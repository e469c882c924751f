/**
 * What a `process` command line looks like: it starts with the quoted
 * program and source and ends with the quoted destination, a kept token is
 * a flag for an option exactly when that option's emitter produced a token,
 * and the tokens are separated by single spaces with no empty segment.
 * Flags are read token by token: a free-text value is not quoted, so the
 * text of one token can itself hold something that looks like a flag.
 */
module ColoristProperties {
  import opened Wrappers
  import opened Strings
  import opened ColoristOptions
  import opened Flags
  import opened Geometry
  import opened Colorist

  /** The resize token as `process` receives it: a `--resize` flag, or nothing. */
  predicate ResizeShaped(resize: string) {
    resize == "" || (FlagName(resize) == Some("resize") && Trimmed(resize) && NoDoubleSpace(resize))
  }

  /** Every token `resize` returns has that shape. */
  lemma ResizeIsShaped(bin: string, file: string, opts: Options, probe: Probe)
    requires Resize(bin, file, opts, probe).Ok?
    ensures ResizeShaped(Resize(bin, file, opts, probe).value)
  {
    ResizeToken(bin, file, opts, probe);
  }

  // ---------------------------------------------------------------------
  // Start and end of the line
  // ---------------------------------------------------------------------

  lemma QuotedKept(s: string)
    requires |s| > 0 && s[0] == '"'
    ensures KeepTruthy([s]) == [s]
  {
    var none: seq<string> := [];
    assert [s][..0] == none;
  }

  /** The tokens between the convert token and the destination. */
  function MiddleTokens(file: string, opts: Options, resize: string): seq<string> {
    [Quality(file, opts), resize]
    + BasicTokens(opts) + InputProfileTokens(opts) + OutputProfileTokens(opts) + OutputFormatTokens(opts)
  }

  lemma ProcessTokensSplit(bin: string, file: string, opts: Options, resize: string)
    ensures ProcessTokens(bin, file, opts, resize) ==
      [Convert(bin, file)] + MiddleTokens(file, opts, resize) + [Save(file)]
  {
    RegroupEnds(Convert(bin, file), Quality(file, opts), resize, BasicTokens(opts), InputProfileTokens(opts),
      OutputProfileTokens(opts), OutputFormatTokens(opts), Save(file));
  }

  /** Splitting off the first and last token of the `process` list's shape. */
  lemma RegroupEnds<T>(c: T, q: T, r: T, b: seq<T>, i: seq<T>, p: seq<T>, f: seq<T>, s: T)
    ensures [c, q, r] + b + i + p + f + [s] == [c] + ([q, r] + b + i + p + f) + [s]
  {
    assert [c, q, r] == [c] + [q, r];
  }

  /** The convert and save tokens are always kept, and everything between them is filtered. */
  lemma KeptProcessTokens(bin: string, file: string, opts: Options, resize: string)
    ensures KeepTruthy(ProcessTokens(bin, file, opts, resize)) ==
      [Convert(bin, file)] + KeepTruthy(MiddleTokens(file, opts, resize)) + [Save(file)]
  {
    var c, m, s := [Convert(bin, file)], MiddleTokens(file, opts, resize), [Save(file)];
    ProcessTokensSplit(bin, file, opts, resize);
    KeepTruthyAppend(c + m, s);
    KeepTruthyAppend(c, m);
    QuotedKept(Convert(bin, file));
    QuotedKept(Save(file));
  }

  /** A `process` line begins with `"bin" convert "file"` and ends with `"file"`. */
  lemma ProcessLineFrame(bin: string, file: string, opts: Options, resize: string)
    ensures var line := CommandLine(ProcessTokens(bin, file, opts, resize));
      |line| >= |Convert(bin, file)| && line[..|Convert(bin, file)|] == Convert(bin, file) &&
      |line| >= |Save(file)| && line[|line| - |Save(file)|..] == Save(file)
  {
    var kept := KeepTruthy(ProcessTokens(bin, file, opts, resize));
    KeptProcessTokens(bin, file, opts, resize);
    assert kept[0] == Convert(bin, file) && kept[|kept| - 1] == Save(file);
    JoinFrame(kept);
  }

  // ---------------------------------------------------------------------
  // Which options appear
  // ---------------------------------------------------------------------

  /** Some kept token of the command is a flag naming `name`. */
  predicate Mentions(tokens: seq<string>, name: string) {
    exists t :: t in KeepTruthy(tokens) && FlagName(t) == Some(name)
  }

  /** No name occurs twice in `names`. */
  predicate Distinct(names: seq<string>) {
    forall a, b :: 0 <= a < b < |names| ==> names[a] != names[b]
  }

  /** No name of `a` occurs in `b`. */
  predicate Disjoint(a: seq<string>, b: seq<string>) {
    forall x :: x in a ==> x !in b
  }

  /** Two lists of distinct names with no name in common make one list of distinct names. */
  lemma DistinctAppend(a: seq<string>, b: seq<string>)
    requires Distinct(a) && Distinct(b) && Disjoint(a, b)
    ensures Distinct(a + b)
  {
    forall i, j | 0 <= i < j < |a + b|
      ensures (a + b)[i] != (a + b)[j]
    {
      if j < |a| {
      } else if i >= |a| {
        assert (a + b)[i] == b[i - |a|] && (a + b)[j] == b[j - |a|];
      } else {
        assert (a + b)[i] in a && (a + b)[j] == b[j - |a|] && b[j - |a|] in b;
      }
    }
  }

  /** The darkroom, basic and input profile names are distinct. */
  lemma LeadingNamesDistinct()
    ensures Distinct(DarkroomOptions + BasicOptions + InputProfileOptions)
  {
    var names := DarkroomOptions + BasicOptions + InputProfileOptions;
    assert names == ["quality", "resize", "jobs", "cmm", "deflum", "hlglum", "iccin", "frameindex"];
  }

  /** The output profile names are distinct. */
  lemma OutputProfileNamesDistinct()
    ensures Distinct(OutputProfileOptions)
  {
  }

  /** No output profile name is a leading name. */
  lemma OutputProfileNamesFresh()
    ensures Disjoint(DarkroomOptions + BasicOptions + InputProfileOptions, OutputProfileOptions)
  {
    forall x | x in DarkroomOptions + BasicOptions + InputProfileOptions
      ensures x !in OutputProfileOptions
    {
      assert x in DarkroomOptions || x in BasicOptions || x in InputProfileOptions;
    }
  }

  /** The output format names are distinct. */
  lemma OutputFormatNamesDistinct()
    ensures Distinct(OutputFormatOptions)
  {
  }

  /** No output format name is a leading name. */
  lemma OutputFormatNamesFresh()
    ensures Disjoint(DarkroomOptions + BasicOptions + InputProfileOptions, OutputFormatOptions)
  {
    forall x | x in DarkroomOptions + BasicOptions + InputProfileOptions
      ensures x !in OutputFormatOptions
    {
      assert x in DarkroomOptions || x in BasicOptions || x in InputProfileOptions;
    }
  }

  /** No output profile name is an output format name. */
  lemma ProfileFormatDisjoint()
    ensures Disjoint(OutputProfileOptions, OutputFormatOptions)
  {
  }

  /** No two options share a name. */
  lemma OptionNamesDistinct()
    ensures |OptionOrder| == 23 && Distinct(OptionOrder)
  {
    var lead := DarkroomOptions + BasicOptions + InputProfileOptions;
    LeadingNamesDistinct();
    OutputProfileNamesDistinct();
    OutputProfileNamesFresh();
    DistinctAppend(lead, OutputProfileOptions);
    OutputFormatNamesDistinct();
    OutputFormatNamesFresh();
    ProfileFormatDisjoint();
    assert Disjoint(lead + OutputProfileOptions, OutputFormatOptions);
    DistinctAppend(lead + OutputProfileOptions, OutputFormatOptions);
  }

  /** An emitter's token is empty or the flag `--name value`. */
  predicate NamesOption(token: string, name: string) {
    token == "" || FlagName(token) == Some(name)
  }

  /** Each token is empty or names the option at the same position. */
  predicate Labelled(tokens: seq<string>, names: seq<string>) {
    |tokens| == |names| && forall k :: 0 <= k < |tokens| ==> NamesOption(tokens[k], names[k])
  }

  lemma LabelledConcat(t1: seq<string>, n1: seq<string>, t2: seq<string>, n2: seq<string>)
    requires Labelled(t1, n1) && Labelled(t2, n2)
    ensures Labelled(t1 + t2, n1 + n2)
  {
    forall k | 0 <= k < |t1 + t2|
      ensures NamesOption((t1 + t2)[k], (n1 + n2)[k])
    {
      if k < |t1| {
        assert (t1 + t2)[k] == t1[k] && (n1 + n2)[k] == n1[k];
      } else {
        assert (t1 + t2)[k] == t2[k - |t1|] && (n1 + n2)[k] == n2[k - |t1|];
      }
    }
  }

  lemma DarkroomLabelled(file: string, opts: Options, resize: string)
    requires ResizeShaped(resize)
    ensures Labelled([Quality(file, opts), resize], DarkroomOptions)
  {
    var tokens := [Quality(file, opts), resize];
    assert NamesOption(tokens[0], "quality") by {
      if Quality(file, opts) != "" {
        match opts.quality
        case Scalar(q) => FlagNamed("quality", IntToString(q));
        case PerFormat(table) => FlagNamed("quality", IntToString(table[QualityKey(file, opts)]));
      }
    }
    forall k | 0 <= k < 2
      ensures NamesOption(tokens[k], DarkroomOptions[k])
    {
    }
  }

  lemma JobsToFrameindexNames(opts: Options)
    ensures NamesOption(Jobs(opts), "jobs") && NamesOption(Cmm(opts), "cmm")
    ensures NamesOption(Deflum(opts), "deflum") && NamesOption(Hlglum(opts), "hlglum")
    ensures NamesOption(Iccin(opts), "iccin") && NamesOption(Frameindex(opts), "frameindex")
  {
    assert NamesOption(Jobs(opts), "jobs") by { if Jobs(opts) != "" { FlagNamed("jobs", IntToString(opts.jobs)); } }
    assert NamesOption(Cmm(opts), "cmm") by { if Cmm(opts) != "" { FlagNamed("cmm", opts.cmm.value); } }
    assert NamesOption(Deflum(opts), "deflum") by { if Deflum(opts) != "" { FlagNamed("deflum", opts.deflum.value); } }
    assert NamesOption(Hlglum(opts), "hlglum") by { if Hlglum(opts) != "" { FlagNamed("hlglum", opts.hlglum.value); } }
    assert NamesOption(Iccin(opts), "iccin") by { if Iccin(opts) != "" { FlagNamed("iccin", opts.iccin.value); } }
    assert NamesOption(Frameindex(opts), "frameindex") by { if Frameindex(opts) != "" { FlagNamed("frameindex", IntToString(opts.frameindex)); } }
  }

  lemma BasicLabelled(opts: Options)
    ensures Labelled(BasicTokens(opts), BasicOptions)
    ensures Labelled(InputProfileTokens(opts), InputProfileOptions)
  {
    JobsToFrameindexNames(opts);
    LabelledPointwise(BasicTokens(opts), BasicOptions);
    LabelledPointwise(InputProfileTokens(opts), InputProfileOptions);
  }

  lemma IccoutToDescriptionNames(opts: Options)
    ensures NamesOption(Iccout(opts), "iccout")
    ensures NamesOption(Autograde(opts), "autograde")
    ensures NamesOption(Copyright(opts), "copyright")
    ensures NamesOption(Description(opts), "description")
  {
    assert NamesOption(Iccout(opts), "iccout") by { if Iccout(opts) != "" { FlagNamed("iccout", opts.iccout.value); } }
    assert NamesOption(Autograde(opts), "autograde") by { FlagNamed("autograde", ""); }
    assert NamesOption(Copyright(opts), "copyright") by { if Copyright(opts) != "" { FlagNamed("copyright", opts.copyright.value); } }
    assert NamesOption(Description(opts), "description") by { if Description(opts) != "" { FlagNamed("description", opts.description.value); } }
  }

  lemma GammaToNoprofileNames(opts: Options)
    ensures NamesOption(Gamma(opts), "gamma")
    ensures NamesOption(Luminance(opts), "luminance")
    ensures NamesOption(Primaries(opts), "primaries")
    ensures NamesOption(Noprofile(opts), "noprofile")
  {
    assert NamesOption(Gamma(opts), "gamma") by { if Gamma(opts) != "" { FlagNamed("gamma", opts.gamma.value); } }
    assert NamesOption(Luminance(opts), "luminance") by { if Luminance(opts) != "" { FlagNamed("luminance", opts.luminance.value); } }
    assert NamesOption(Primaries(opts), "primaries") by { if Primaries(opts) != "" { FlagNamed("primaries", opts.primaries.value); } }
    assert NamesOption(Noprofile(opts), "noprofile") by { FlagNamed("noprofile", ""); }
  }

  lemma OutputProfileLabelled(opts: Options)
    ensures Labelled(OutputProfileTokens(opts), OutputProfileOptions)
  {
    IccoutToDescriptionNames(opts);
    GammaToNoprofileNames(opts);
    LabelledPointwise(OutputProfileTokens(opts), OutputProfileOptions);
  }

  /** Up to eight tokens, each empty or naming the option at the same position, are labelled. */
  lemma LabelledPointwise(tokens: seq<string>, names: seq<string>)
    requires |tokens| == |names| <= 8
    requires |tokens| > 0 ==> NamesOption(tokens[0], names[0])
    requires |tokens| > 1 ==> NamesOption(tokens[1], names[1])
    requires |tokens| > 2 ==> NamesOption(tokens[2], names[2])
    requires |tokens| > 3 ==> NamesOption(tokens[3], names[3])
    requires |tokens| > 4 ==> NamesOption(tokens[4], names[4])
    requires |tokens| > 5 ==> NamesOption(tokens[5], names[5])
    requires |tokens| > 6 ==> NamesOption(tokens[6], names[6])
    requires |tokens| > 7 ==> NamesOption(tokens[7], names[7])
    ensures Labelled(tokens, names)
  {
    forall k | 0 <= k < |tokens|
      ensures NamesOption(tokens[k], names[k])
    {
      if k == 0 {} else if k == 1 {} else if k == 2 {} else if k == 3 {}
      else if k == 4 {} else if k == 5 {} else if k == 6 {} else {}
    }
  }

  lemma BpcToTonemapNames(opts: Options)
    ensures NamesOption(Bpc(opts), "bpc")
    ensures NamesOption(Format(opts), "format")
    ensures NamesOption(Rate(opts), "rate")
    ensures NamesOption(Tonemap(opts), "tonemap")
  {
    assert NamesOption(Bpc(opts), "bpc") by { if Bpc(opts) != "" { FlagNamed("bpc", IntToString(opts.bpc.value)); } }
    assert NamesOption(Format(opts), "format") by { if Format(opts) != "" { FlagNamed("format", opts.format.value); } }
    assert NamesOption(Rate(opts), "rate") by { if Rate(opts) != "" { FlagNamed("rate", IntToString(opts.rate)); } }
    assert NamesOption(Tonemap(opts), "tonemap") by { if Tonemap(opts) != "" { FlagNamed("tonemap", TonemapWord(opts.tonemap.value)); } }
  }

  lemma YuvToNclxNames(opts: Options)
    ensures NamesOption(Yuv(opts), "yuv")
    ensures NamesOption(Speed(opts), "speed")
    ensures NamesOption(Nclx(opts), "nclx")
  {
    assert NamesOption(Yuv(opts), "yuv") by { if Yuv(opts) != "" { FlagNamed("yuv", opts.yuv.value); } }
    assert NamesOption(Speed(opts), "speed") by { if Speed(opts) != "" { FlagNamed("speed", IntToString(opts.speed.value)); } }
    assert NamesOption(Nclx(opts), "nclx") by { if Nclx(opts) != "" { FlagNamed("nclx", opts.nclx.value); } }
  }

  lemma OutputFormatLabelled(opts: Options)
    ensures Labelled(OutputFormatTokens(opts), OutputFormatOptions)
  {
    BpcToTonemapNames(opts);
    YuvToNclxNames(opts);
    LabelledPointwise(OutputFormatTokens(opts), OutputFormatOptions);
  }


  /** The tokens between the convert token and the destination belong, in order, to the fixed option list. */
  lemma MiddleLabelled(file: string, opts: Options, resize: string)
    requires ResizeShaped(resize)
    ensures Labelled(MiddleTokens(file, opts, resize), OptionOrder)
  {
    var d, b, i, p, f := [Quality(file, opts), resize], BasicTokens(opts), InputProfileTokens(opts),
      OutputProfileTokens(opts), OutputFormatTokens(opts);
    DarkroomLabelled(file, opts, resize);
    BasicLabelled(opts);
    OutputProfileLabelled(opts);
    OutputFormatLabelled(opts);
    LabelledConcat(d, DarkroomOptions, b, BasicOptions);
    LabelledConcat(d + b, DarkroomOptions + BasicOptions, i, InputProfileOptions);
    LabelledConcat(d + b + i, DarkroomOptions + BasicOptions + InputProfileOptions, p, OutputProfileOptions);
    LabelledConcat(d + b + i + p, DarkroomOptions + BasicOptions + InputProfileOptions + OutputProfileOptions,
      f, OutputFormatOptions);
  }

  /**
   * In a line made of a quoted token, labelled option tokens and a quoted
   * token, an option is named exactly when its own token is non-empty.
   */
  lemma LabelledPresence(first: string, middle: seq<string>, last: string, names: seq<string>, i: int)
    requires |first| > 0 && first[0] == '"' && |last| > 0 && last[0] == '"'
    requires Labelled(middle, names) && Distinct(names)
    requires 0 <= i < |names|
    ensures Mentions([first] + middle + [last], names[i]) <==> middle[i] != ""
  {
    if middle[i] != "" {
      OwnTokenMentioned(first, middle, last, names, i);
    }
    if Mentions([first] + middle + [last], names[i]) {
      MentionIsOwnToken(first, middle, last, names, i);
    }
  }

  /** A non-empty labelled token survives the filter and names its option. */
  lemma OwnTokenMentioned(first: string, middle: seq<string>, last: string, names: seq<string>, i: int)
    requires Labelled(middle, names) && 0 <= i < |names| && middle[i] != ""
    ensures Mentions([first] + middle + [last], names[i])
  {
    var tokens := [first] + middle + [last];
    var t := middle[i];
    assert NamesOption(t, names[i]);
    assert tokens[i + 1] == t;
    assert t in tokens && !Falsey(t);
    KeepTruthyMembers(tokens);
    assert t in KeepTruthy(tokens) && FlagName(t) == Some(names[i]);
  }

  /** A kept token of `tokens` that is a flag for `name`. */
  lemma MentioningToken(tokens: seq<string>, name: string) returns (t: string)
    requires Mentions(tokens, name)
    ensures t in tokens && FlagName(t) == Some(name)
  {
    t :| t in KeepTruthy(tokens) && FlagName(t) == Some(name);
    KeepTruthyMembers(tokens);
  }

  /** A token in double quotes is no flag. */
  lemma QuotedNamesNothing(s: string)
    requires |s| > 0 && s[0] == '"'
    ensures FlagName(s).None?
  {
  }

  /** A token of `[first] + middle + [last]` that is neither end is in the middle. */
  lemma InnerToken(t: string, first: string, middle: seq<string>, last: string)
    requires t in [first] + middle + [last] && t != first && t != last
    ensures t in middle
  {
  }

  /** Only the option's own token can name it: the quoted ends name nothing, the others other options. */
  lemma MentionIsOwnToken(first: string, middle: seq<string>, last: string, names: seq<string>, i: int)
    requires |first| > 0 && first[0] == '"' && |last| > 0 && last[0] == '"'
    requires Labelled(middle, names) && Distinct(names)
    requires 0 <= i < |names|
    requires Mentions([first] + middle + [last], names[i])
    ensures middle[i] != ""
  {
    var tokens := [first] + middle + [last];
    var t := MentioningToken(tokens, names[i]);
    QuotedNamesNothing(first);
    QuotedNamesNothing(last);
    InnerToken(t, first, middle, last);
    var j :| 0 <= j < |middle| && middle[j] == t;
    assert NamesOption(middle[j], names[j]);
    assert names[j] == names[i];
  }

  /**
   * Some kept token of the `process` list is a flag for the i-th option of
   * the fixed order exactly when that option's emitter produced a token: no
   * other token is a flag for it, and a token that is produced is never
   * filtered out.
   */
  lemma OptionPresence(bin: string, file: string, opts: Options, resize: string, i: int)
    requires ResizeShaped(resize)
    requires 0 <= i < |OptionOrder|
    ensures Mentions(ProcessTokens(bin, file, opts, resize), OptionOrder[i]) <==>
      ProcessTokens(bin, file, opts, resize)[i + 1] != ""
  {
    var middle := MiddleTokens(file, opts, resize);
    ProcessTokensSplit(bin, file, opts, resize);
    MiddleLabelled(file, opts, resize);
    OptionNamesDistinct();
    LabelledPresence(Convert(bin, file), middle, Save(file), OptionOrder, i);
  }


  // ---------------------------------------------------------------------
  // Dropped and kept values
  // ---------------------------------------------------------------------

  /** An option whose emitter produced nothing has no kept flag token. */
  lemma SilentOptionAbsent(bin: string, file: string, opts: Options, resize: string, i: int)
    requires ResizeShaped(resize)
    requires 0 <= i < |OptionOrder| && i < |MiddleTokens(file, opts, resize)|
    requires MiddleTokens(file, opts, resize)[i] == ""
    ensures !Mentions(ProcessTokens(bin, file, opts, resize), OptionOrder[i])
  {
    var m := MiddleTokens(file, opts, resize);
    ProcessTokensSplit(bin, file, opts, resize);
    assert ([Convert(bin, file)] + m + [Save(file)])[i + 1] == m[i];
    OptionPresence(bin, file, opts, resize, i);
  }

  /** The middle part of `a + p + f` is `p`, shifted by the length of `a`. */
  lemma MiddleAt<T>(a: seq<T>, p: seq<T>, f: seq<T>, k: int)
    requires 0 <= k < |p|
    ensures |a + p + f| == |a| + |p| + |f| && (a + p + f)[|a| + k] == p[k]
  {
  }

  /** The output profile tokens sit at positions 8..15 of the middle tokens. */
  lemma MiddleOutputProfileAt(file: string, opts: Options, resize: string, k: int)
    requires 0 <= k < 8
    ensures |MiddleTokens(file, opts, resize)| == 23
    ensures MiddleTokens(file, opts, resize)[8 + k] == OutputProfileTokens(opts)[k]
  {
    var lead := [Quality(file, opts), resize] + BasicTokens(opts) + InputProfileTokens(opts);
    MiddleAt(lead, OutputProfileTokens(opts), OutputFormatTokens(opts), k);
  }

  /** Primaries outside {bt709, bt2020, p3} leave no kept `--primaries` token. */
  lemma UnknownPrimariesDropped(bin: string, file: string, opts: Options, resize: string)
    requires ResizeShaped(resize)
    requires opts.primaries.Some? && opts.primaries.value !in ColorPrimaries
    ensures !Mentions(ProcessTokens(bin, file, opts, resize), "primaries")
  {
    MiddleOutputProfileAt(file, opts, resize, 6);
    assert OutputProfileTokens(opts)[6] == "";
    SilentOptionAbsent(bin, file, opts, resize, 14);
  }

  /** A speed outside 0..10 leaves no kept `--speed` token. */
  lemma SpeedOutOfRangeDropped(bin: string, file: string, opts: Options, resize: string)
    requires ResizeShaped(resize)
    requires opts.speed.Some? && !(0 <= opts.speed.value <= 10)
    ensures !Mentions(ProcessTokens(bin, file, opts, resize), "speed")
  {
    OptionPresence(bin, file, opts, resize, 21);
  }

  /** A speed inside 0..10 is kept as the token `--speed v`. */
  lemma SpeedInRangeKept(bin: string, file: string, opts: Options, resize: string)
    requires opts.speed.Some? && 0 <= opts.speed.value <= 10
    ensures Flag("speed", IntToString(opts.speed.value)) in KeepTruthy(ProcessTokens(bin, file, opts, resize))
  {
    var token := Flag("speed", IntToString(opts.speed.value));
    assert OutputFormatTokens(opts)[5] == token;
    assert token[0] == '-';
    ProcessTokensSplit(bin, file, opts, resize);
    assert token in MiddleTokens(file, opts, resize);
    assert token in ProcessTokens(bin, file, opts, resize);
    KeepTruthyMembers(ProcessTokens(bin, file, opts, resize));
  }

  /** A quality table without an entry under the format (or extension) leaves no kept `--quality` token. */
  lemma QualityTableMissDropped(bin: string, file: string, opts: Options, resize: string)
    requires ResizeShaped(resize)
    requires opts.quality.PerFormat? && QualityKey(file, opts) !in opts.quality.table
    ensures !Mentions(ProcessTokens(bin, file, opts, resize), "quality")
  {
    OptionPresence(bin, file, opts, resize, 0);
  }

  /** A token list whose tokens are all empty keeps nothing. */
  lemma AllEmptyDropped(tokens: seq<string>)
    requires forall t :: t in tokens ==> t == ""
    ensures KeepTruthy(tokens) == []
  {
    if KeepTruthy(tokens) != [] {
      KeepTruthyMembers(tokens);
      assert KeepTruthy(tokens)[0] in KeepTruthy(tokens);
    }
  }

  /** With nothing configured, every basic, profile and format option is silent. */
  lemma DefaultsSilent(opts: Options)
    requires opts == Defaults(None, None, false)
    ensures KeepTruthy(BasicTokens(opts)) == [] && KeepTruthy(InputProfileTokens(opts)) == []
    ensures KeepTruthy(OutputProfileTokens(opts)) == [] && KeepTruthy(OutputFormatTokens(opts)) == []
  {
    BasicSilent(opts);
    OutputProfileSilent(opts);
    OutputFormatSilent(opts);
  }

  /** With nothing configured, the basic and input profile options are silent. */
  lemma BasicSilent(opts: Options)
    requires opts == Defaults(None, None, false)
    ensures KeepTruthy(BasicTokens(opts)) == [] && KeepTruthy(InputProfileTokens(opts)) == []
  {
    AllEmptyDropped(BasicTokens(opts));
    AllEmptyDropped(InputProfileTokens(opts));
  }

  /** With nothing configured, the output profile options are silent. */
  lemma OutputProfileSilent(opts: Options)
    requires opts == Defaults(None, None, false)
    ensures KeepTruthy(OutputProfileTokens(opts)) == []
  {
    AllEmptyDropped(OutputProfileTokens(opts));
  }

  /** With nothing configured, the output format options are silent. */
  lemma OutputFormatSilent(opts: Options)
    requires opts == Defaults(None, None, false)
    ensures KeepTruthy(OutputFormatTokens(opts)) == []
  {
    AllEmptyDropped(OutputFormatTokens(opts));
  }

  lemma DefaultQuality(file: string, opts: Options)
    requires opts == Defaults(None, None, false)
    ensures Quality(file, opts) == "--quality 90"
  {
    assert IntToString(90) == "90";
  }

  lemma DefaultResize(bin: string, file: string, opts: Options, probe: Probe)
    requires opts == Defaults(None, None, false)
    ensures Resize(bin, file, opts, probe) == Ok("--resize x")
  {
    ResizeWithoutCrop(bin, file, opts, probe);
    assert ShowNullable(opts.width) == "" && ShowNullable(opts.height) == "";
    assert "" + "x" + "" == "x";
    assert Flag("resize", "x") == "--resize x";
  }

  lemma KeptPair(a: string, b: string)
    requires !Falsey(a) && !Falsey(b)
    ensures KeepTruthy([a, b]) == [a, b]
  {
    var none: seq<string> := [];
    assert [a, b][..1] == [a] && [a][..0] == none;
  }

  /** Sections that keep nothing add nothing to the kept tokens. */
  lemma SilentSections(d: seq<string>, b: seq<string>, i: seq<string>, p: seq<string>, f: seq<string>)
    requires KeepTruthy(b) == [] && KeepTruthy(i) == [] && KeepTruthy(p) == [] && KeepTruthy(f) == []
    ensures KeepTruthy(d + b + i + p + f) == KeepTruthy(d)
  {
    KeepTruthyAppend(d, b);
    KeepTruthyAppend(d + b, i);
    KeepTruthyAppend(d + b + i, p);
    KeepTruthyAppend(d + b + i + p, f);
    assert KeepTruthy(d) + [] == KeepTruthy(d);
  }

  /** When every option section is silent, only quality and resize are kept between the convert and save tokens. */
  lemma MiddleKeptWhenSilent(file: string, opts: Options, resize: string)
    requires !Falsey(Quality(file, opts)) && !Falsey(resize)
    requires KeepTruthy(BasicTokens(opts)) == [] && KeepTruthy(InputProfileTokens(opts)) == []
    requires KeepTruthy(OutputProfileTokens(opts)) == [] && KeepTruthy(OutputFormatTokens(opts)) == []
    ensures KeepTruthy(MiddleTokens(file, opts, resize)) == [Quality(file, opts), resize]
  {
    var q := Quality(file, opts);
    KeptPair(q, resize);
    SilentSections([q, resize], BasicTokens(opts), InputProfileTokens(opts), OutputProfileTokens(opts), OutputFormatTokens(opts));
  }

  lemma FourTokens(c: string, m: seq<string>, s: string)
    requires |m| == 2
    ensures [c] + m + [s] == [c, m[0], m[1], s]
  {
  }

  lemma DefaultKept(bin: string, file: string, opts: Options)
    requires opts == Defaults(None, None, false)
    ensures KeepTruthy(ProcessTokens(bin, file, opts, "--resize x")) ==
      [Convert(bin, file), "--quality 90", "--resize x", Save(file)]
  {
    DefaultQuality(file, opts);
    DefaultsSilent(opts);
    MiddleKeptWhenSilent(file, opts, "--resize x");
    KeptProcessTokens(bin, file, opts, "--resize x");
    FourTokens(Convert(bin, file), ["--quality 90", "--resize x"], Save(file));
  }

  /**
   * With nothing configured, `process` runs
   * `"bin" convert "file" --quality 90 --resize x "file"`.
   */
  lemma DefaultCommand(bin: string, file: string, opts: Options, probe: Probe)
    requires opts == Defaults(None, None, false)
    ensures Resize(bin, file, opts, probe) == Ok("--resize x")
    ensures CommandLine(ProcessTokens(bin, file, opts, Resize(bin, file, opts, probe).value)) ==
      Convert(bin, file) + " " + "--quality 90" + " " + "--resize x" + " " + Save(file)
  {
    DefaultResize(bin, file, opts, probe);
    DefaultKept(bin, file, opts);
    JoinFour(Convert(bin, file), "--quality 90", "--resize x", Save(file));
  }

  lemma JoinFour(a: string, b: string, c: string, d: string)
    ensures Join([a, b, c, d]) == a + " " + b + " " + c + " " + d
  {
    assert [a, b, c, d][..3] == [a, b, c];
    JoinTriple(a, b, c);
  }

  // ---------------------------------------------------------------------
  // Spacing
  // ---------------------------------------------------------------------

  /** A token with no space at either end and no two spaces in a row, or the empty token. */
  predicate Clean(token: string) {
    token == "" || (Trimmed(token) && NoDoubleSpace(token))
  }

  /** A pass-through value that keeps the line cleanly spaced. */
  predicate CleanValue(v: Option<string>) {
    v.None? || (Trimmed(v.value) && NoDoubleSpace(v.value))
  }

  lemma FlagClean(name: string, value: string)
    requires name != "" && ' ' !in name
    requires Trimmed(value) && NoDoubleSpace(value)
    ensures Clean(Flag(name, value)) && Clean(Switch(name))
  {
    SpacelessClean(name);
    FlagSpacing(name, value);
  }

  lemma WordFlagClean(name: string, value: string)
    requires name != "" && ' ' !in name
    requires value != "" && ' ' !in value
    ensures Clean(Flag(name, value))
  {
    SpacelessClean(value);
    FlagClean(name, value);
  }

  lemma IntFlagClean(name: string, i: int)
    requires name != "" && ' ' !in name
    ensures Clean(Flag(name, IntToString(i)))
  {
    WordFlagClean(name, IntToString(i));
  }

  lemma ConvertClean(bin: string, file: string)
    requires NoDoubleSpace(bin) && NoDoubleSpace(file)
    ensures Trimmed(Convert(bin, file)) && NoDoubleSpace(Convert(bin, file))
    ensures Trimmed(Save(file)) && NoDoubleSpace(Save(file))
  {
    var mid := "\" convert \"";
    SpacelessClean("\"");
    forall i | 0 <= i < |mid| - 1
      ensures !(mid[i] == ' ' && mid[i + 1] == ' ')
    {
    }
    ConcatSpacing("\"", bin);
    ConcatSpacing("\"" + bin, mid);
    ConcatSpacing("\"" + bin + mid, file);
    ConcatSpacing("\"" + bin + mid + file, "\"");
    ConcatSpacing("\"", file);
    ConcatSpacing("\"" + file, "\"");
  }

  lemma BasicClean(opts: Options)
    requires CleanValue(opts.deflum) && CleanValue(opts.hlglum) && CleanValue(opts.iccin)
    ensures forall t :: t in BasicTokens(opts) + InputProfileTokens(opts) ==> Clean(t)
  {
    assert Clean(Jobs(opts)) by { if Jobs(opts) != "" { IntFlagClean("jobs", opts.jobs); } }
    assert Clean(Cmm(opts)) by {
      if Cmm(opts) != "" {
        var v := opts.cmm.value;
        assert v == "colorist" || v == "lcms";
        WordFlagClean("cmm", v);
      }
    }
    assert Clean(Deflum(opts)) by { if Deflum(opts) != "" { FlagClean("deflum", opts.deflum.value); } }
    assert Clean(Hlglum(opts)) by { if Hlglum(opts) != "" { FlagClean("hlglum", opts.hlglum.value); } }
    assert Clean(Iccin(opts)) by { if Iccin(opts) != "" { FlagClean("iccin", opts.iccin.value); } }
    assert Clean(Frameindex(opts)) by { if Frameindex(opts) != "" { IntFlagClean("frameindex", opts.frameindex); } }
  }

  /** The gamma curve and the primaries are single words, so their flags are clean. */
  lemma ProfileWordsClean(opts: Options)
    ensures Clean(Gamma(opts)) && Clean(Primaries(opts))
  {
    assert Clean(Gamma(opts)) by {
      if Gamma(opts) != "" {
        var v := opts.gamma.value;
        assert v == "pq" || v == "hlg" || v == "source";
        WordFlagClean("gamma", v);
      }
    }
    assert Clean(Primaries(opts)) by {
      if Primaries(opts) != "" {
        var v := opts.primaries.value;
        assert v == "bt709" || v == "bt2020" || v == "p3";
        WordFlagClean("primaries", v);
      }
    }
  }

  lemma OutputProfileClean(opts: Options)
    requires CleanValue(opts.iccout) && CleanValue(opts.copyright)
    requires CleanValue(opts.description) && CleanValue(opts.luminance)
    ensures forall t :: t in OutputProfileTokens(opts) ==> Clean(t)
  {
    assert Clean(Iccout(opts)) by { if Iccout(opts) != "" { FlagClean("iccout", opts.iccout.value); } }
    assert Clean(Autograde(opts)) by { FlagClean("autograde", "x"); }
    assert Clean(Copyright(opts)) by { if Copyright(opts) != "" { FlagClean("copyright", opts.copyright.value); } }
    assert Clean(Description(opts)) by { if Description(opts) != "" { FlagClean("description", opts.description.value); } }
    ProfileWordsClean(opts);
    assert Clean(Luminance(opts)) by { if Luminance(opts) != "" { FlagClean("luminance", opts.luminance.value); } }
    assert Clean(Noprofile(opts)) by { FlagClean("noprofile", "x"); }
  }

  lemma QualityClean(file: string, opts: Options)
    ensures Clean(Quality(file, opts))
  {
    if Quality(file, opts) != "" {
      match opts.quality
      case Scalar(q) => IntFlagClean("quality", q);
      case PerFormat(table) => IntFlagClean("quality", table[QualityKey(file, opts)]);
    }
  }

  /** The format, tone-mapping and chroma words are single words, so their flags are clean. */
  lemma FormatWordsClean(opts: Options)
    ensures Clean(Format(opts)) && Clean(Tonemap(opts)) && Clean(Yuv(opts))
  {
    assert Clean(Format(opts)) by {
      if Format(opts) != "" {
        var v := opts.format.value;
        assert v == "avif" || v == "bmp" || v == "jpg" || v == "jp2" || v == "j2k" || v == "png" || v == "tiff" || v == "webp";
        WordFlagClean("format", v);
      }
    }
    assert Clean(Tonemap(opts)) by {
      if Tonemap(opts) != "" {
        var v := TonemapWord(opts.tonemap.value);
        assert v == "on" || v == "off";
        WordFlagClean("tonemap", v);
      }
    }
    assert Clean(Yuv(opts)) by {
      if Yuv(opts) != "" {
        var v := opts.yuv.value;
        assert v == "444" || v == "422" || v == "420" || v == "yv12";
        WordFlagClean("yuv", v);
      }
    }
  }

  lemma OutputFormatClean(file: string, opts: Options)
    requires CleanValue(opts.nclx)
    ensures forall t :: t in [Quality(file, opts)] + OutputFormatTokens(opts) ==> Clean(t)
  {
    QualityClean(file, opts);
    assert Clean(Bpc(opts)) by { if Bpc(opts) != "" { IntFlagClean("bpc", opts.bpc.value); } }
    FormatWordsClean(opts);
    assert Clean(Rate(opts)) by { if Rate(opts) != "" { IntFlagClean("rate", opts.rate); } }
    assert Clean(Speed(opts)) by { if Speed(opts) != "" { IntFlagClean("speed", opts.speed.value); } }
    assert Clean(Nclx(opts)) by { if Nclx(opts) != "" { FlagClean("nclx", opts.nclx.value); } }
  }

  /**
   * Joining the kept tokens leaves no empty segment: when the program and
   * file paths have no two spaces in a row and neither has any free-text
   * option value at an end or doubled inside, the `process` line has single
   * spaces only and none at either end.
   */
  lemma ProcessLineSpacing(bin: string, file: string, opts: Options, resize: string)
    requires NoDoubleSpace(bin) && NoDoubleSpace(file) && ResizeShaped(resize)
    requires CleanValue(opts.deflum) && CleanValue(opts.hlglum) && CleanValue(opts.iccin)
    requires CleanValue(opts.iccout) && CleanValue(opts.copyright)
    requires CleanValue(opts.description) && CleanValue(opts.luminance) && CleanValue(opts.nclx)
    ensures Trimmed(CommandLine(ProcessTokens(bin, file, opts, resize)))
    ensures NoDoubleSpace(CommandLine(ProcessTokens(bin, file, opts, resize)))
  {
    var tokens := ProcessTokens(bin, file, opts, resize);
    ConvertClean(bin, file);
    BasicClean(opts);
    OutputProfileClean(opts);
    OutputFormatClean(file, opts);
    assert forall t :: t in tokens ==> Clean(t);
    var kept := KeepTruthy(tokens);
    KeepTruthyMembers(tokens);
    KeptProcessTokens(bin, file, opts, resize);
    assert |kept| > 0;
    JoinSpacing(kept);
  }
}
