/**
 * The string machinery the command builder relies on: PHP's decimal
 * rendering of integers, `array_filter` (which drops falsey strings),
 * `implode(' ', ...)`, `pathinfo(..., PATHINFO_EXTENSION)` and reading the
 * option name back out of a `--name value` token.
 */
module Strings {
  import opened Wrappers

  // ---------------------------------------------------------------------
  // Integers as decimal text
  // ---------------------------------------------------------------------

  predicate IsDigit(c: char) {
    '0' <= c <= '9'
  }

  predicate IsDigits(s: string) {
    forall i :: 0 <= i < |s| ==> IsDigit(s[i])
  }

  function DigitChar(d: nat): (c: char)
    requires d < 10
    ensures IsDigit(c) && c as int - '0' as int == d
  {
    ('0' as int + d) as char
  }

  /** The decimal text PHP gives a non-negative integer: digits only, no leading zero. */
  function NatToString(n: nat): (s: string)
    ensures |s| > 0 && IsDigits(s)
    ensures s[0] == '0' <==> n == 0
    decreases n
  {
    if n < 10 then [DigitChar(n)] else NatToString(n / 10) + [DigitChar(n % 10)]
  }

  /** The value of a string of decimal digits; the inverse of NatToString. */
  function ParseNat(s: string): nat
    requires IsDigits(s)
  {
    if s == [] then 0 else 10 * ParseNat(s[..|s| - 1]) + (s[|s| - 1] as int - '0' as int)
  }

  lemma {:induction false} ParseNatToString(n: nat)
    ensures ParseNat(NatToString(n)) == n
    decreases n
  {
    if n >= 10 {
      var s := NatToString(n / 10);
      ParseNatToString(n / 10);
      assert (s + [DigitChar(n % 10)])[..|s|] == s;
    }
  }

  /** The decimal text PHP gives any integer (string conversion, `%s` in sprintf). */
  function IntToString(i: int): (s: string)
    ensures |s| > 0 && ' ' !in s
    ensures s[0] == '-' <==> i < 0
    ensures i >= 0 ==> IsDigits(s)
  {
    if i < 0 then "-" + NatToString(-i) else NatToString(i)
  }

  /** Text of the shape IntToString produces: an optional minus sign, then digits. */
  predicate IsIntText(s: string) {
    if |s| > 0 && s[0] == '-' then IsDigits(s[1..]) else IsDigits(s)
  }

  function ParseInt(s: string): int
    requires IsIntText(s)
  {
    if |s| > 0 && s[0] == '-' then 0 - ParseNat(s[1..]) else ParseNat(s)
  }

  /** Printing an integer loses nothing: the number can be read back from its text. */
  lemma IntRoundTrip(i: int)
    ensures IsIntText(IntToString(i)) && ParseInt(IntToString(i)) == i
  {
    if i < 0 {
      assert IntToString(i)[1..] == NatToString(-i);
      ParseNatToString(-i);
    } else {
      ParseNatToString(i);
    }
  }

  // ---------------------------------------------------------------------
  // array_filter and implode(' ', ...)
  // ---------------------------------------------------------------------

  /** The strings PHP's `array_filter` treats as false and drops. */
  predicate Falsey(s: string) {
    s == "" || s == "0"
  }

  /** `array_filter` on a list of strings: the truthy entries, in their order. */
  function KeepTruthy(parts: seq<string>): (kept: seq<string>)
    ensures |kept| <= |parts|
  {
    if |parts| == 0 then []
    else
      var last := parts[|parts| - 1];
      KeepTruthy(parts[..|parts| - 1]) + (if Falsey(last) then [] else [last])
  }

  /** What the filter keeps is exactly the parts that are not falsey. */
  lemma {:induction false} KeepTruthyMembers(parts: seq<string>)
    ensures forall t :: t in KeepTruthy(parts) <==> t in parts && !Falsey(t)
    decreases |parts|
  {
    if |parts| > 0 {
      var init, last := parts[..|parts| - 1], parts[|parts| - 1];
      KeepTruthyMembers(init);
      assert parts == init + [last];
    }
  }

  lemma {:induction false} KeepTruthyAppend(a: seq<string>, b: seq<string>)
    ensures KeepTruthy(a + b) == KeepTruthy(a) + KeepTruthy(b)
    decreases |b|
  {
    if |b| == 0 {
      assert a + b == a;
    } else {
      var b' := b[..|b| - 1];
      assert (a + b)[..|a + b| - 1] == a + b';
      KeepTruthyAppend(a, b');
    }
  }

  /** `implode(' ', parts)`: the parts separated by single spaces. */
  function Join(parts: seq<string>): string {
    if |parts| == 0 then ""
    else if |parts| == 1 then parts[0]
    else Join(parts[..|parts| - 1]) + " " + parts[|parts| - 1]
  }

  /** Joining one more part adds it after a space, or alone when nothing came before. */
  lemma JoinSnoc(parts: seq<string>, t: string)
    ensures Join(parts + [t]) == if |parts| == 0 then t else Join(parts) + " " + t
  {
    var ps := parts + [t];
    assert ps[..|ps| - 1] == parts;
    assert ps[|ps| - 1] == t;
  }

  /** Filtering one more token keeps it exactly when it is not falsey. */
  lemma KeepTruthyPrefix(tokens: seq<string>, i: int)
    requires 0 <= i < |tokens|
    ensures KeepTruthy(tokens[..i + 1]) ==
      if Falsey(tokens[i]) then KeepTruthy(tokens[..i]) else KeepTruthy(tokens[..i]) + [tokens[i]]
  {
    assert tokens[..i + 1][..i] == tokens[..i];
    assert KeepTruthy(tokens[..i]) + [] == KeepTruthy(tokens[..i]);
  }

  lemma JoinPair(a: string, b: string)
    ensures Join([a, b]) == a + " " + b
  {
    assert [a, b][..1] == [a];
  }

  lemma JoinTriple(a: string, b: string, c: string)
    ensures Join([a, b, c]) == a + " " + b + " " + c
  {
    assert [a, b, c][..2] == [a, b];
    JoinPair(a, b);
  }

  /** A joined line begins with its first part and ends with its last part. */
  lemma {:induction false} JoinFrame(parts: seq<string>)
    requires |parts| > 0
    ensures |Join(parts)| >= |parts[0]| && |Join(parts)| >= |parts[|parts| - 1]|
    ensures Join(parts)[..|parts[0]|] == parts[0]
    ensures Join(parts)[|Join(parts)| - |parts[|parts| - 1]|..] == parts[|parts| - 1]
  {
    if |parts| > 1 {
      var init := parts[..|parts| - 1];
      JoinFrame(init);
      assert init[0] == parts[0];
      var j := Join(init);
      assert Join(parts) == j + " " + parts[|parts| - 1];
      assert (j + " " + parts[|parts| - 1])[..|parts[0]|] == j[..|parts[0]|];
    }
  }

  /** No two adjacent spaces. */
  predicate NoDoubleSpace(s: string) {
    forall i :: 0 <= i < |s| - 1 ==> !(s[i] == ' ' && s[i + 1] == ' ')
  }

  /** Non-empty, and neither begins nor ends with a space. */
  predicate Trimmed(s: string) {
    |s| > 0 && s[0] != ' ' && s[|s| - 1] != ' '
  }

  lemma GlueSpacing(a: string, b: string)
    requires Trimmed(a) && Trimmed(b) && NoDoubleSpace(a) && NoDoubleSpace(b)
    ensures Trimmed(a + " " + b) && NoDoubleSpace(a + " " + b)
  {
    var s := a + " " + b;
    forall i | 0 <= i < |s| - 1
      ensures !(s[i] == ' ' && s[i + 1] == ' ')
    {
      if i < |a| - 1 {
        assert s[i] == a[i] && s[i + 1] == a[i + 1];
      } else if i == |a| - 1 {
        assert s[i] == a[|a| - 1];
      } else if i == |a| {
        assert s[i + 1] == b[0];
      } else {
        assert s[i] == b[i - |a| - 1] && s[i + 1] == b[i - |a|];
      }
    }
  }

  /**
   * Joining parts that carry no stray spaces of their own leaves no empty
   * segment: no doubled separator, and no separator at either end.
   */
  lemma {:induction false} JoinSpacing(parts: seq<string>)
    requires |parts| > 0
    requires forall t :: t in parts ==> Trimmed(t) && NoDoubleSpace(t)
    ensures Trimmed(Join(parts)) && NoDoubleSpace(Join(parts))
  {
    if |parts| > 1 {
      var init := parts[..|parts| - 1];
      assert forall t :: t in init ==> t in parts;
      JoinSpacing(init);
      assert parts[|parts| - 1] in parts;
      GlueSpacing(Join(init), parts[|parts| - 1]);
    } else {
      assert parts[0] in parts;
    }
  }

  // ---------------------------------------------------------------------
  // Substrings
  // ---------------------------------------------------------------------

  /** `needle` stands in `hay` at position `i`. */
  predicate OccursAt(needle: string, hay: string, i: nat) {
    i + |needle| <= |hay| && hay[i..i + |needle|] == needle
  }

  /** `needle` appears somewhere in `hay`. */
  predicate Occurs(needle: string, hay: string) {
    exists i: nat :: i <= |hay| && OccursAt(needle, hay, i)
  }

  /** A string cannot contain a needle one of whose characters it lacks. */
  lemma AbsentChar(needle: string, hay: string, c: char)
    requires c in needle && c !in hay
    ensures !Occurs(needle, hay)
  {
    var k :| 0 <= k < |needle| && needle[k] == c;
    forall i: nat | i + |needle| <= |hay|
      ensures !OccursAt(needle, hay, i)
    {
      assert hay[i..i + |needle|][k] == hay[i + k];
      assert hay[i + k] in hay;
    }
  }

  // ---------------------------------------------------------------------
  // pathinfo($file, PATHINFO_EXTENSION)
  // ---------------------------------------------------------------------

  /** The text after the last `c` in `s`, or None when `s` has no `c`. */
  function AfterLast(s: string, c: char): (r: Option<string>)
    ensures r.None? <==> c !in s
    ensures r.Some? ==> c !in r.value && |r.value| < |s|
    ensures r.Some? ==> s[|s| - |r.value|..] == r.value && s[|s| - |r.value| - 1] == c
  {
    if |s| == 0 then None
    else if s[|s| - 1] == c then Some("")
    else
      match AfterLast(s[..|s| - 1], c)
      case None => None
      case Some(u) => Some(u + [s[|s| - 1]])
  }

  /** Appending one character other than `c` extends what follows the last `c`. */
  lemma AfterLastStep(s: string, x: char, c: char, u: string)
    requires x != c
    requires AfterLast(s, c) == Some(u)
    ensures AfterLast(s + [x], c) == Some(u + [x])
  {
    var sx := s + [x];
    assert sx[|sx| - 1] == x;
    assert sx[..|sx| - 1] == s;
  }

  /** Appending text without a `c` extends what follows the last `c`. */
  lemma {:induction false} AfterLastAppend(s: string, t: string, c: char, u: string)
    requires c !in t
    requires AfterLast(s, c) == Some(u)
    ensures AfterLast(s + t, c) == Some(u + t)
    decreases |t|
  {
    if |t| == 0 {
      assert s + t == s;
      assert u + t == u;
    } else {
      var t', last := t[..|t| - 1], t[|t| - 1];
      assert last != c by { assert last in t; }
      assert c !in t' by { assert forall k :: 0 <= k < |t'| ==> t'[k] == t[k]; }
      AfterLastAppend(s, t', c, u);
      AfterLastStep(s + t', last, c, u + t');
      AppendLast(s, t);
      AppendLast(u, t);
    }
  }

  /** Appending `t` is appending all of `t` but its last character, then that character. */
  lemma AppendLast(a: string, t: string)
    requires |t| > 0
    ensures a + t == (a + t[..|t| - 1]) + [t[|t| - 1]]
  {
    assert t == t[..|t| - 1] + [t[|t| - 1]];
  }

  /** The final path component (PHP's basename, for a path without a trailing slash). */
  function BaseName(path: string): (name: string)
    ensures '/' !in name && |name| <= |path| && path[|path| - |name|..] == name
    ensures name == path || path[|path| - |name| - 1] == '/'
  {
    match AfterLast(path, '/')
    case None => path
    case Some(name) => name
  }

  /** `pathinfo($path, PATHINFO_EXTENSION)`: what follows the last dot of the base name, or "". */
  function Extension(path: string): (ext: string)
    ensures '.' !in ext && '/' !in ext
  {
    match AfterLast(BaseName(path), '.')
    case None => ""
    case Some(e) => e
  }

  /** Text without a slash stays in the base name. */
  lemma BaseNameAppend(s: string, t: string)
    requires '/' !in t
    ensures BaseName(s + t) == BaseName(s) + t
  {
    match AfterLast(s, '/') {
      case None =>
        assert '/' !in s + t;
      case Some(u) =>
        AfterLastAppend(s, t, '/', u);
    }
  }

  /** The text after the last `c` of a string that ends in `c` is empty. */
  lemma AfterLastAtEnd(s: string, c: char)
    ensures AfterLast(s + [c], c) == Some("")
  {
    var sc := s + [c];
    assert sc[|sc| - 1] == c;
  }

  /** What follows the last `c` of `b + [c] + t`, when `t` has no `c`, is `t`. */
  lemma AfterLastSeparator(b: string, c: char, t: string)
    requires c !in t
    ensures AfterLast(b + [c] + t, c) == Some(t)
  {
    AfterLastAtEnd(b, c);
    AfterLastAppend(b + [c], t, c, "");
    assert "" + t == t;
  }

  /** The base name of `stem.ext` is the base name of the stem followed by `.ext`. */
  lemma BaseNameOfDotted(stem: string, ext: string)
    requires '.' !in ext && '/' !in ext
    ensures BaseName(stem + "." + ext) == BaseName(stem) + ['.'] + ext
  {
    DotAssociates(stem, ext);
    assert '/' !in "." + ext;
    BaseNameAppend(stem, "." + ext);
    DotAssociates(BaseName(stem), ext);
  }

  /** Where the dot of `s.ext` is grouped does not matter. */
  lemma DotAssociates(s: string, ext: string)
    ensures s + "." + ext == s + ("." + ext) == s + ['.'] + ext
  {
  }

  /** A base name ending in `.ext` has extension ext. */
  lemma ExtensionFromBaseName(path: string, b: string, ext: string)
    requires '.' !in ext && '/' !in ext
    requires BaseName(path) == b + ['.'] + ext
    ensures Extension(path) == ext
  {
    AfterLastSeparator(b, '.', ext);
  }

  /** A file named `stem.ext` has extension `ext`, whatever directories and dots the stem holds. */
  lemma ExtensionOf(stem: string, ext: string)
    requires '.' !in ext && '/' !in ext
    ensures Extension(stem + "." + ext) == ext
  {
    BaseNameOfDotted(stem, ext);
    ExtensionFromBaseName(stem + "." + ext, BaseName(stem), ext);
  }

  /** A base name without a dot has no extension, with or without a directory before it. */
  lemma NoExtension(dir: string, name: string)
    requires '.' !in name && '/' !in name
    ensures Extension(name) == ""
    ensures Extension(dir + "/" + name) == ""
  {
    AfterLastSeparator(dir, '/', name);
    assert dir + "/" + name == dir + ['/'] + name;
  }


  // ---------------------------------------------------------------------
  // Command-line flags
  // ---------------------------------------------------------------------

  /** The token `--name value`. */
  function Flag(name: string, value: string): string {
    "--" + name + " " + value
  }

  /** The bare token `--name`. */
  function Switch(name: string): string {
    "--" + name
  }

  /** The leading run of `s` up to its first space. */
  function FirstWord(s: string): (w: string)
    ensures ' ' !in w && |w| <= |s| && s[..|w|] == w
  {
    if s == [] || s[0] == ' ' then [] else [s[0]] + FirstWord(s[1..])
  }

  lemma {:induction false} FirstWordOf(w: string, rest: string)
    requires ' ' !in w
    requires rest == [] || rest[0] == ' '
    ensures FirstWord(w + rest) == w
  {
    if w != [] {
      assert w[0] in w;
      assert (w + rest)[1..] == w[1..] + rest;
      FirstWordOf(w[1..], rest);
    } else {
      assert w + rest == rest;
    }
  }

  /** The option a token names: its first word without the leading `--`; None if it is no flag. */
  function FlagName(token: string): Option<string> {
    if |token| >= 2 && token[0] == '-' && token[1] == '-' then Some(FirstWord(token[2..])) else None
  }

  /** `--name value` and `--name` name the option `name` (the name itself has no space). */
  lemma FlagNamed(name: string, value: string)
    requires ' ' !in name
    ensures FlagName(Flag(name, value)) == Some(name)
    ensures FlagName(Switch(name)) == Some(name)
  {
    assert Flag(name, value)[2..] == name + (" " + value);
    FirstWordOf(name, " " + value);
    assert Switch(name)[2..] == name + [];
    FirstWordOf(name, []);
  }

  /** Text without spaces. */
  lemma SpacelessClean(s: string)
    requires s != "" && ' ' !in s
    ensures Trimmed(s) && NoDoubleSpace(s)
  {
    assert s[0] in s && s[|s| - 1] in s;
    forall i | 0 <= i < |s| - 1
      ensures !(s[i] == ' ' && s[i + 1] == ' ')
    {
      assert s[i] in s;
    }
  }

  /** Concatenation adds no double space where the seam is not two spaces. */
  lemma ConcatSpacing(a: string, b: string)
    requires NoDoubleSpace(a) && NoDoubleSpace(b)
    requires a == [] || b == [] || a[|a| - 1] != ' ' || b[0] != ' '
    ensures NoDoubleSpace(a + b)
  {
    var s := a + b;
    forall i | 0 <= i < |s| - 1
      ensures !(s[i] == ' ' && s[i + 1] == ' ')
    {
      if i < |a| - 1 {
        assert s[i] == a[i] && s[i + 1] == a[i + 1];
      } else if i == |a| - 1 {
        assert s[i] == a[|a| - 1] && s[i + 1] == b[0];
      } else {
        assert s[i] == b[i - |a|] && s[i + 1] == b[i + 1 - |a|];
      }
    }
  }

  lemma FlagSpacing(name: string, value: string)
    requires Trimmed(name) && NoDoubleSpace(name) && ' ' !in name
    requires Trimmed(value) && NoDoubleSpace(value)
    ensures Trimmed(Flag(name, value)) && NoDoubleSpace(Flag(name, value))
    ensures Trimmed(Switch(name)) && NoDoubleSpace(Switch(name))
  {
    GlueSpacing("--" + name, value);
    var s := Switch(name);
    forall i | 0 <= i < |s| - 1
      ensures !(s[i] == ' ' && s[i + 1] == ' ')
    {
      if i >= 2 { assert s[i] == name[i - 2]; assert name[i - 2] in name; }
    }
  }
}
