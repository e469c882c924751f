/**
 * Command assembly for `colorist convert`: `process` lists the tokens in a
 * fixed order (the program and source, quality, resize, the basic, input
 * profile, output profile and output format options, the destination),
 * drops the falsey ones, joins the rest with single spaces and runs the
 * line; `toFormat` does the same with just the format option.
 *
 * Running a command is replaced by its exit status, given as a parameter;
 * `identify` is replaced by a Probe.
 */
module Colorist {
  import opened Wrappers
  import opened Strings
  import opened ColoristOptions
  import opened Flags
  import opened Geometry

  /** `"bin" convert "file"`: the program and the source, each in double quotes. */
  function Convert(bin: string, file: string): string {
    "\"" + bin + "\" convert \"" + file + "\""
  }

  /** The destination in double quotes. */
  function Save(file: string): (token: string)
    ensures |token| == |file| + 2 && token[0] == '"' && token[|token| - 1] == '"'
    ensures token[1..|token| - 1] == file
  {
    "\"" + file + "\""
  }

  /** The options each section of `process` emits, in their order. */
  const DarkroomOptions: seq<string> := ["quality", "resize"]
  const BasicOptions: seq<string> := ["jobs", "cmm", "deflum", "hlglum"]
  const InputProfileOptions: seq<string> := ["iccin", "frameindex"]
  const OutputProfileOptions: seq<string> :=
    ["iccout", "autograde", "copyright", "description", "gamma", "luminance", "primaries", "noprofile"]
  const OutputFormatOptions: seq<string> := ["bpc", "format", "rate", "tonemap", "yuv", "speed", "nclx"]

  /** The options whose tokens `process` emits, in their order. */
  const OptionOrder: seq<string> :=
    DarkroomOptions + BasicOptions + InputProfileOptions + OutputProfileOptions + OutputFormatOptions

  /** The basic options' tokens, in the order `process` appends them. */
  function BasicTokens(opts: Options): seq<string> {
    [Jobs(opts), Cmm(opts), Deflum(opts), Hlglum(opts)]
  }

  /** The input profile options' tokens. */
  function InputProfileTokens(opts: Options): seq<string> {
    [Iccin(opts), Frameindex(opts)]
  }

  /** The output profile options' tokens. */
  function OutputProfileTokens(opts: Options): seq<string> {
    [Iccout(opts), Autograde(opts), Copyright(opts), Description(opts),
     Gamma(opts), Luminance(opts), Primaries(opts), Noprofile(opts)]
  }

  /** The output format options' tokens. */
  function OutputFormatTokens(opts: Options): seq<string> {
    [Bpc(opts), Format(opts), Rate(opts), Tonemap(opts), Yuv(opts), Speed(opts), Nclx(opts)]
  }

  /** The token list `process` builds, given the token `resize` produced. */
  function ProcessTokens(bin: string, file: string, opts: Options, resize: string): seq<string> {
    [Convert(bin, file), Quality(file, opts), resize]
    + BasicTokens(opts) + InputProfileTokens(opts) + OutputProfileTokens(opts) + OutputFormatTokens(opts)
    + [Save(file)]
  }

  /** The token list `toFormat` builds. */
  function ToFormatTokens(bin: string, src: string, dst: string, opts: Options): seq<string> {
    [Convert(bin, src), Format(opts), Save(dst)]
  }

  /** The command line made of a token list: `implode(' ', array_filter($tokens))`. */
  function CommandLine(tokens: seq<string>): string {
    Join(KeepTruthy(tokens))
  }

  /** Drops the falsey tokens and separates the rest by single spaces, one token at a time. */
  method Implode(tokens: seq<string>) returns (line: string)
    ensures line == Join(KeepTruthy(tokens))
  {
    line := "";
    var kept := 0;
    ghost var parts: seq<string> := [];
    for i := 0 to |tokens|
      invariant parts == KeepTruthy(tokens[..i])
      invariant kept == |parts| && line == Join(parts)
    {
      var token := tokens[i];
      KeepTruthyPrefix(tokens, i);
      if !Falsey(token) {
        JoinSnoc(parts, token);
        line := if kept == 0 then token else line + " " + token;
        kept := kept + 1;
        parts := parts + [token];
      }
    }
    assert tokens[..|tokens|] == tokens;
  }

  /** Appends the basic options' tokens one by one. */
  method AppendBasic(command: seq<string>, opts: Options) returns (extended: seq<string>)
    ensures extended == command + BasicTokens(opts)
  {
    extended := command;
    extended := extended + [Jobs(opts)];
    extended := extended + [Cmm(opts)];
    extended := extended + [Deflum(opts)];
    extended := extended + [Hlglum(opts)];
  }

  /** Appends the input profile options' tokens one by one. */
  method AppendInputProfile(command: seq<string>, opts: Options) returns (extended: seq<string>)
    ensures extended == command + InputProfileTokens(opts)
  {
    extended := command;
    extended := extended + [Iccin(opts)];
    extended := extended + [Frameindex(opts)];
  }

  /** Appends the output profile options' tokens one by one. */
  method AppendOutputProfile(command: seq<string>, opts: Options) returns (extended: seq<string>)
    ensures extended == command + OutputProfileTokens(opts)
  {
    extended := command;
    extended := extended + [Iccout(opts)];
    extended := extended + [Autograde(opts)];
    extended := extended + [Copyright(opts)];
    extended := extended + [Description(opts)];
    extended := extended + [Gamma(opts)];
    extended := extended + [Luminance(opts)];
    extended := extended + [Primaries(opts)];
    extended := extended + [Noprofile(opts)];
  }

  /** Appends the output format options' tokens one by one. */
  method AppendOutputFormat(command: seq<string>, opts: Options) returns (extended: seq<string>)
    ensures extended == command + OutputFormatTokens(opts)
  {
    extended := command;
    extended := extended + [Bpc(opts)];
    extended := extended + [Format(opts)];
    extended := extended + [Rate(opts)];
    extended := extended + [Tonemap(opts)];
    extended := extended + [Yuv(opts)];
    extended := extended + [Speed(opts)];
    extended := extended + [Nclx(opts)];
  }

  /**
   * `process`: builds the command token by token, runs it, and returns the
   * options on a zero exit status. `executed` is the line handed to the
   * shell, None when `resize` threw before anything ran.
   */
  method Process(bin: string, file: string, opts: Options, probe: Probe, status: int)
    returns (executed: Option<string>, result: Result<Options, Failure>)
    ensures Resize(bin, file, opts, probe).Err? ==>
      executed.None? && result == Err(Resize(bin, file, opts, probe).error)
    ensures Resize(bin, file, opts, probe).Ok? ==>
      executed == Some(CommandLine(ProcessTokens(bin, file, opts, Resize(bin, file, opts, probe).value)))
    ensures executed.Some? ==>
      result == if status == 0 then Ok(opts) else Err(CommandFailed(executed.value))
  {
    var command: seq<string> := [];
    command := command + [Convert(bin, file)];
    // Darkroom options
    command := command + [Quality(file, opts)];
    var resize := Resize(bin, file, opts, probe);
    if resize.Err? {
      return None, Err(resize.error);
    }
    command := command + [resize.value];
    assert command == [Convert(bin, file), Quality(file, opts), resize.value];
    command := AppendBasic(command, opts);
    command := AppendInputProfile(command, opts);
    command := AppendOutputProfile(command, opts);
    command := AppendOutputFormat(command, opts);
    // destination
    command := command + [Save(file)];
    assert command == ProcessTokens(bin, file, opts, resize.value);

    var line := Implode(command);
    executed := Some(line);
    if status != 0 {
      result := Err(CommandFailed(line));
    } else {
      result := Ok(opts);
    }
  }

  /**
   * `toFormat`: converts `src` to `dst` in the given format, with the
   * configured options and only the format token. `failure` is None on a
   * zero exit status.
   */
  method ToFormat(bin: string, src: string, dst: string, format: string, configured: Options, status: int)
    returns (executed: string, failure: Option<Failure>)
    ensures executed == CommandLine(ToFormatTokens(bin, src, dst, configured.(format := Some(format))))
    ensures failure == if status == 0 then None else Some(CommandFailed(executed))
  {
    var opts := configured.(format := Some(format));
    var command: seq<string> := [];
    command := command + [Convert(bin, src)];
    command := command + [Format(opts)];
    command := command + [Save(dst)];
    assert command == ToFormatTokens(bin, src, dst, opts);

    executed := Implode(command);
    if status != 0 {
      failure := Some(CommandFailed(executed));
    } else {
      failure := None;
    }
  }

  // ---------------------------------------------------------------------
  // What the command line looks like
  // ---------------------------------------------------------------------

  lemma QuotedNotFalsey(bin: string, file: string)
    ensures !Falsey(Convert(bin, file)) && !Falsey(Save(file))
  {
    assert Save(file)[0] == '"';
    assert Convert(bin, file)[0] == '"';
  }

  /**
   * A `toFormat` line is the quoted program and source, then `--format f`
   * when f is a supported format, then the quoted destination; nothing else.
   */
  lemma ToFormatLine(bin: string, src: string, dst: string, format: string, configured: Options)
    ensures CommandLine(ToFormatTokens(bin, src, dst, configured.(format := Some(format)))) ==
      if format in {"avif", "bmp", "jpg", "jp2", "j2k", "png", "tiff", "webp"} then
        Convert(bin, src) + " " + Flag("format", format) + " " + Save(dst)
      else
        Convert(bin, src) + " " + Save(dst)
  {
    var opts := configured.(format := Some(format));
    var c, f, s := Convert(bin, src), Format(opts), Save(dst);
    assert c[0] == '"' && s[0] == '"';
    var tokens := [c, f, s];
    var none: seq<string> := [];
    assert tokens[..2] == [c, f] && [c, f][..1] == [c] && [c][..0] == none;
    assert KeepTruthy([c]) == [c];
    if f != "" {
      assert f[0] == '-';
      assert KeepTruthy(tokens) == [c, f, s];
      JoinTriple(c, f, s);
    } else {
      assert KeepTruthy(tokens) == [c, s];
      JoinPair(c, s);
    }
  }
}
