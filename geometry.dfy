/**
 * The `resize` option of the colorist driver: a plain `--resize WxH` when
 * cropping is off; otherwise the source dimensions reported by `identify`,
 * a square fallback for a missing target dimension, and, when the source
 * and target aspect ratios differ, a centred `--crop x,y,w,h` that cuts the
 * source down to the target's ratio along one axis.
 *
 * The source divides floats (`$x / $y`, `floor($x2 / $ar1)`). Here every
 * ratio is compared exactly by cross-multiplication and every floor is taken
 * of the exact quotient; RatioEquality, RatioOrder and FloorDivIsFloor tie
 * these integer forms to division over the reals.
 */
module Geometry {
  import opened Wrappers
  import opened Strings
  import opened ColoristOptions

  // ---------------------------------------------------------------------
  // Exact ratios
  // ---------------------------------------------------------------------

  /** a/b = c/d, for non-zero b and d. */
  predicate SameRatio(a: int, b: int, c: int, d: int) {
    a * d == c * b
  }

  /** a/b < c/d, for non-zero b and d. */
  predicate RatioBelow(a: int, b: int, c: int, d: int)
    requires b != 0 && d != 0
  {
    if b * d > 0 then a * d < c * b else a * d > c * b
  }

  /** floor(a/b): Dafny's `/` rounds toward negative infinity only for a positive divisor. */
  function FloorDiv(a: int, b: int): (q: int)
    requires b != 0
    ensures b > 0 ==> q * b <= a < q * b + b
    ensures b < 0 ==> q * b >= a > q * b + b
  {
    if b > 0 then a / b else (-a) / (-b)
  }

  /** Cross-multiplied equality is equality of the real quotients. */
  lemma RatioEquality(a: int, b: int, c: int, d: int)
    requires b != 0 && d != 0
    ensures SameRatio(a, b, c, d) <==> (a as real) / (b as real) == (c as real) / (d as real)
  {
    var p, q := (a as real) / (b as real), (c as real) / (d as real);
    assert p * (b as real) == a as real;
    assert q * (d as real) == c as real;
    assert (a * d) as real == p * ((b * d) as real);
    assert (c * b) as real == q * ((b * d) as real);
  }

  /** RatioBelow is the order of the real quotients. */
  lemma RatioOrder(a: int, b: int, c: int, d: int)
    requires b != 0 && d != 0
    ensures RatioBelow(a, b, c, d) <==> (a as real) / (b as real) < (c as real) / (d as real)
  {
    var p, q := (a as real) / (b as real), (c as real) / (d as real);
    var bd := (b * d) as real;
    assert p * (b as real) == a as real;
    assert q * (d as real) == c as real;
    assert (a * d - c * b) as real == (p - q) * bd;
    if b * d > 0 {
      assert bd > 0.0;
      assert a * d < c * b <==> (p - q) * bd < 0.0;
    } else {
      assert b * d < 0;
      assert bd < 0.0;
      assert a * d > c * b <==> (p - q) * bd > 0.0;
    }
  }

  lemma RealCancel(u: real, v: real, b: real)
    requires b > 0.0 && u * b <= v * b
    ensures u <= v
  {
  }

  lemma RealCancelStrict(u: real, v: real, b: real)
    requires b > 0.0 && u * b < v * b
    ensures u < v
  {
  }

  /** For a positive divisor, Dafny's `/` lies within one below the real quotient. */
  lemma PositiveDivBounds(p: int, n: int)
    requires n > 0
    ensures (p / n) as real <= (p as real) / (n as real) < (p / n) as real + 1.0
  {
    var q := p / n;
    var qr, nr, pr := q as real, n as real, p as real;
    assert q * n <= p < q * n + n;
    assert (q * n) as real == qr * nr;
    var r := pr / nr;
    assert r * nr == pr;
    RealCancel(qr, r, nr);
    assert (qr + 1.0) * nr == qr * nr + nr;
    RealCancelStrict(r, qr + 1.0, nr);
  }

  /** FloorDiv is the floor of the real quotient. */
  lemma FloorDivIsFloor(a: int, b: int)
    requires b != 0
    ensures FloorDiv(a, b) == ((a as real) / (b as real)).Floor
  {
    if b > 0 {
      PositiveDivBounds(a, b);
    } else {
      assert (a as real) / (b as real) == ((-a) as real) / ((-b) as real);
      PositiveDivBounds(-a, -b);
    }
  }

  // ---------------------------------------------------------------------
  // The crop rectangle
  // ---------------------------------------------------------------------

  /** A crop rectangle: top-left corner, then width and height. */
  datatype Rect = Rect(x: int, y: int, width: int, height: int)

  /** When the target is relatively wider than the source, its width is not zero. */
  lemma WiderTargetNonZero(x: nat, y: nat, x1: int, y1: int)
    requires y > 0 && y1 != 0 && RatioBelow(x, y, x1, y1)
    ensures x1 != 0
  {
    if y1 > 0 {
      assert x * y1 >= 0;
    } else {
      assert x * y1 <= 0;
    }
  }

  /**
   * The centred crop of an x by y source to the ratio x1/y1. When the source
   * is relatively taller (x/y < x1/y1) the whole width is kept and the height
   * cut to floor(x / (x1/y1)); otherwise the whole height is kept and the
   * width cut to floor(y * (x1/y1)). Either way the cut axis is centred,
   * with any odd pixel going to the far side.
   */
  function CenteredCrop(x: nat, y: nat, x1: int, y1: int): (r: Rect)
    requires y > 0 && y1 != 0
    ensures RatioBelow(x, y, x1, y1) ==> r.x == 0 && r.width == x && 0 <= (y - r.height) - 2 * r.y <= 1
    ensures !RatioBelow(x, y, x1, y1) ==> r.y == 0 && r.height == y && 0 <= (x - r.width) - 2 * r.x <= 1
  {
    if RatioBelow(x, y, x1, y1) then
      WiderTargetNonZero(x, y, x1, y1);
      var y2 := FloorDiv(x * y1, x1);
      Rect(0, FloorDiv(y - y2, 2), x, y2)
    else
      var x2 := FloorDiv(y * x1, y1);
      Rect(FloorDiv(x - x2, 2), 0, x2, y)
  }

  lemma MulCancel(a: int, b: int, c: int)
    requires c > 0 && a * c < b * c
    ensures a < b
  {
  }

  /** Fitting by width: the height is cut to floor(x * y1 / x1), which lies in [0, y). */
  lemma WidthFitInside(x: nat, y: nat, x1: int, y1: int)
    requires y > 0 && x1 > 0 && y1 > 0 && x * y1 < x1 * y
    ensures var r := CenteredCrop(x, y, x1, y1);
      && r.x == 0 && r.width == x && 0 <= r.y && 0 <= r.height && r.y + r.height <= y
      && r.height * x1 <= x * y1 < (r.height + 1) * x1
  {
    assert y * y1 > 0;
    assert RatioBelow(x, y, x1, y1);
    var y2 := FloorDiv(x * y1, x1);
    assert y2 * x1 <= x * y1 < y2 * x1 + x1;
    assert (y2 + 1) * x1 == y2 * x1 + x1;
    MulCancel(0, y2 + 1, x1);
    MulCancel(y2, y, x1);
  }

  /** Fitting by height: the width is cut to floor(y * x1 / y1), which lies in [0, x). */
  lemma HeightFitInside(x: nat, y: nat, x1: int, y1: int)
    requires y > 0 && x1 > 0 && y1 > 0 && x * y1 > x1 * y
    ensures var r := CenteredCrop(x, y, x1, y1);
      && r.y == 0 && r.height == y && 0 <= r.x && 0 <= r.width && r.x + r.width <= x
      && r.width * y1 <= y * x1 < (r.width + 1) * y1
  {
    assert y * y1 > 0;
    assert !RatioBelow(x, y, x1, y1);
    var x2 := FloorDiv(y * x1, y1);
    assert x2 * y1 <= y * x1 < x2 * y1 + y1;
    assert (x2 + 1) * y1 == x2 * y1 + y1;
    MulCancel(0, x2 + 1, y1);
    MulCancel(x2, x, y1);
  }

  /**
   * For a positive target whose ratio differs from the source's, the crop
   * lies inside the source, and its cut side is the largest whole length
   * whose ratio to the kept side does not exceed the target's.
   */
  lemma CropInsideSource(x: nat, y: nat, x1: int, y1: int)
    requires y > 0 && x1 > 0 && y1 > 0 && !SameRatio(x, y, x1, y1)
    ensures var r := CenteredCrop(x, y, x1, y1);
      && 0 <= r.x && 0 <= r.y && 0 <= r.width && 0 <= r.height
      && r.x + r.width <= x && r.y + r.height <= y
      && (RatioBelow(x, y, x1, y1) ==> r.height * x1 <= x * y1 < (r.height + 1) * x1)
      && (!RatioBelow(x, y, x1, y1) ==> r.width * y1 <= y * x1 < (r.width + 1) * y1)
  {
    assert y * y1 > 0;
    if x * y1 < x1 * y {
      WidthFitInside(x, y, x1, y1);
    } else {
      HeightFitInside(x, y, x1, y1);
    }
  }

  // ---------------------------------------------------------------------
  // Resize
  // ---------------------------------------------------------------------

  /** PHP truthiness of an optional integer. */
  predicate Truthy(v: Option<int>) {
    v.Some? && v.value != 0
  }

  /**
   * When either target dimension is null, each falsy one is replaced by the
   * other (width first, then height from the new width).
   */
  function Normalize(w: Option<int>, h: Option<int>): (wh: (Option<int>, Option<int>))
    ensures w.Some? && h.Some? ==> wh == (w, h)
    ensures w.None? && h.Some? ==> wh == (h, h)
    ensures w.Some? && h.None? ==> wh == if w.value != 0 then (w, w) else (None, None)
    ensures w.None? && h.None? ==> wh == (None, None)
  {
    if w.None? || h.None? then
      var w' := if Truthy(w) then w else h;
      var h' := if Truthy(h) then h else w';
      (w', h')
    else
      (w, h)
  }

  /** What `resize` decides: a plain resize, a resize alone, or a resize with a crop. */
  datatype ResizeDecision =
    | Stretch(requestedWidth: Option<int>, requestedHeight: Option<int>)  // crop is off: `--resize WxH`
    | Fill(width: int, height: int)                      // ratios agree: `--resize W,H`
    | FillCrop(width: int, height: int, crop: Rect)      // `--resize W,H --crop x,y,w,h`

  /** The `identify` command line: binary and file are not quoted. */
  function IdentifyCommand(bin: string, file: string): string {
    bin + " identify --json " + file
  }

  /**
   * The resize decision. `probe` stands for what `identify` returns; it is
   * consulted only when cropping. A null or zero height in a ratio is PHP 8's
   * division by zero.
   */
  function Plan(bin: string, file: string, opts: Options, probe: Probe): Result<ResizeDecision, Failure> {
    if !opts.crop then
      Ok(Stretch(opts.width, opts.height))
    else if probe.status != 0 then
      Err(CommandFailed(IdentifyCommand(bin, file)))
    else
      var x, y := probe.width, probe.height;
      var wh := Normalize(opts.width, opts.height);
      if y == 0 || !Truthy(wh.1) then
        Err(DivisionByZero)
      else
        var x1, y1 := wh.0.value, wh.1.value;
        if SameRatio(x, y, x1, y1) then Ok(Fill(x1, y1))
        else Ok(FillCrop(x1, y1, CenteredCrop(x, y, x1, y1)))
  }

  /** A crop that `resize` plans for a positive target lies inside the probed source. */
  lemma PlanCropInside(bin: string, file: string, opts: Options, probe: Probe, w: int, h: int, r: Rect)
    requires Plan(bin, file, opts, probe) == Ok(FillCrop(w, h, r)) && w > 0 && h > 0
    ensures 0 <= r.x && 0 <= r.y && 0 <= r.width && 0 <= r.height
    ensures r.x + r.width <= probe.width && r.y + r.height <= probe.height
  {
    CropInsideSource(probe.width, probe.height, w, h);
  }

  /** `%s` of an optional integer: null prints as nothing. */
  function ShowNullable(v: Option<int>): string {
    match v
    case None => ""
    case Some(n) => IntToString(n)
  }

  /** The `--resize` (and `--crop`) text of a decision. */
  function Render(g: ResizeDecision): string {
    match g
    case Stretch(w, h) =>
      Flag("resize", ShowNullable(w) + "x" + ShowNullable(h))
    case Fill(w, h) =>
      Flag("resize", IntToString(w) + "," + IntToString(h))
    case FillCrop(w, h, r) =>
      Flag("resize", IntToString(w) + "," + IntToString(h)) + " " +
      Flag("crop", IntToString(r.x) + "," + IntToString(r.y) + "," + IntToString(r.width) + "," + IntToString(r.height))
  }

  /** The token `resize` contributes to the command, or the exception it throws. */
  function Resize(bin: string, file: string, opts: Options, probe: Probe): Result<string, Failure> {
    match Plan(bin, file, opts, probe)
    case Ok(g) => Ok(Render(g))
    case Err(e) => Err(e)
  }

  /** Integer text is a sign and digits, so it holds no `c` and cannot spell `--crop`. */
  lemma IntTextWithoutC(i: int)
    ensures 'c' !in IntToString(i)
  {
    var s := IntToString(i);
    if i < 0 {
      var d := NatToString(-i);
      assert s == "-" + d;
      assert forall k :: 0 <= k < |s| ==> s[k] == '-' || IsDigit(s[k]) by {
        forall k | 0 <= k < |s| ensures s[k] == '-' || IsDigit(s[k]) {
          if k > 0 { assert s[k] == d[k - 1]; }
        }
      }
    }
  }

  /** Without cropping, `--resize WxH` is emitted, no crop, and `identify` is never consulted. */
  lemma ResizeWithoutCrop(bin: string, file: string, opts: Options, probe: Probe)
    requires !opts.crop
    ensures Resize(bin, file, opts, probe) == Ok(Flag("resize", ShowNullable(opts.width) + "x" + ShowNullable(opts.height)))
    ensures !Occurs("--crop", Resize(bin, file, opts, probe).value)
  {
    var token := Flag("resize", ShowNullable(opts.width) + "x" + ShowNullable(opts.height));
    if opts.width.Some? { IntTextWithoutC(opts.width.value); }
    if opts.height.Some? { IntTextWithoutC(opts.height.value); }
    assert 'c' !in ShowNullable(opts.width) && 'c' !in ShowNullable(opts.height);
    assert 'c' !in token;
    AbsentChar("--crop", token, 'c');
  }

  /**
   * With cropping, a target with one dimension missing and the other set
   * (and non-zero) becomes a square of that size.
   */
  lemma ResizeFillsMissingDimension(bin: string, file: string, opts: Options, probe: Probe, v: int)
    requires opts.crop && probe.status == 0 && probe.height > 0 && v != 0
    requires (opts.width.None? && opts.height == Some(v)) || (opts.height.None? && opts.width == Some(v))
    ensures Plan(bin, file, opts, probe).Ok?
    ensures var g := Plan(bin, file, opts, probe).value; !g.Stretch? && g.width == v && g.height == v
  {
  }

  /** When the source and target ratios agree exactly, the token is `--resize W,H` and nothing else. */
  lemma ResizeEqualRatio(bin: string, file: string, opts: Options, probe: Probe)
    requires opts.crop && probe.status == 0 && probe.height > 0
    requires var wh := Normalize(opts.width, opts.height);
      Truthy(wh.1) && wh.0.Some? && SameRatio(probe.width, probe.height, wh.0.value, wh.1.value)
    ensures var wh := Normalize(opts.width, opts.height);
      Resize(bin, file, opts, probe) == Ok(Flag("resize", IntToString(wh.0.value) + "," + IntToString(wh.1.value)))
    ensures !Occurs("--crop", Resize(bin, file, opts, probe).value)
  {
    var wh := Normalize(opts.width, opts.height);
    var token := Flag("resize", IntToString(wh.0.value) + "," + IntToString(wh.1.value));
    IntTextWithoutC(wh.0.value);
    IntTextWithoutC(wh.1.value);
    assert 'c' !in token;
    AbsentChar("--crop", token, 'c');
  }

  /**
   * `resize` throws exactly when cropping is on and `identify` fails, the
   * source height is zero, or the target height is still null or zero after
   * normalisation; the failing `identify` command is reported.
   */
  lemma ResizeFailure(bin: string, file: string, opts: Options, probe: Probe)
    ensures Resize(bin, file, opts, probe).Err? <==>
      opts.crop && (probe.status != 0 || probe.height == 0 || !Truthy(Normalize(opts.width, opts.height).1))
    ensures opts.crop && probe.status != 0 ==>
      Resize(bin, file, opts, probe) == Err(CommandFailed(IdentifyCommand(bin, file)))
  {
  }

  /** `--resize v` for a single-word v names the resize option and is cleanly spaced. */
  lemma ResizeFlagToken(v: string)
    requires v != "" && ' ' !in v
    ensures FlagName(Flag("resize", v)) == Some("resize")
    ensures Trimmed(Flag("resize", v)) && NoDoubleSpace(Flag("resize", v))
  {
    SpacelessClean("resize");
    SpacelessClean(v);
    FlagSpacing("resize", v);
    FlagNamed("resize", v);
  }

  /** `--resize v --crop c` is one token, named by its first flag, and cleanly spaced. */
  lemma ResizeCropToken(v: string, c: string)
    requires v != "" && ' ' !in v && c != "" && ' ' !in c
    ensures FlagName(Flag("resize", v) + " " + Flag("crop", c)) == Some("resize")
    ensures Trimmed(Flag("resize", v) + " " + Flag("crop", c))
    ensures NoDoubleSpace(Flag("resize", v) + " " + Flag("crop", c))
  {
    ResizeFlagToken(v);
    SpacelessClean("crop");
    SpacelessClean(c);
    FlagSpacing("crop", c);
    GlueSpacing(Flag("resize", v), Flag("crop", c));
    assert Flag("resize", v) + " " + Flag("crop", c) == Flag("resize", v + " " + Flag("crop", c));
    FlagNamed("resize", v + " " + Flag("crop", c));
  }

  /**
   * Every token `resize` renders is a `--resize` flag (a crop follows it in
   * the same token) with single spaces inside and none at either end.
   */
  lemma RenderToken(g: ResizeDecision)
    ensures FlagName(Render(g)) == Some("resize")
    ensures Trimmed(Render(g)) && NoDoubleSpace(Render(g))
  {
    match g
    case Stretch(w, h) =>
      var v := ShowNullable(w) + "x" + ShowNullable(h);
      assert 'x' in v;
      assert ' ' !in ShowNullable(w) && ' ' !in ShowNullable(h);
      ResizeFlagToken(v);
    case Fill(w, h) =>
      ResizeFlagToken(IntToString(w) + "," + IntToString(h));
    case FillCrop(w, h, r) =>
      var v := IntToString(w) + "," + IntToString(h);
      var c := IntToString(r.x) + "," + IntToString(r.y) + "," + IntToString(r.width) + "," + IntToString(r.height);
      ResizeCropToken(v, c);
  }

  /** A token `resize` returns names the resize option and is cleanly spaced. */
  lemma ResizeToken(bin: string, file: string, opts: Options, probe: Probe)
    requires Resize(bin, file, opts, probe).Ok?
    ensures FlagName(Resize(bin, file, opts, probe).value) == Some("resize")
    ensures Trimmed(Resize(bin, file, opts, probe).value) && NoDoubleSpace(Resize(bin, file, opts, probe).value)
  {
    RenderToken(Plan(bin, file, opts, probe).value);
  }

  lemma ExampleCrop()
    ensures CenteredCrop(1600, 900, 400, 400) == Rect(350, 0, 900, 900)
  {
    assert !RatioBelow(1600, 900, 400, 400);
    assert FloorDiv(900 * 400, 400) == 900;
  }

  lemma ExampleNumbers()
    ensures IntToString(400) == "400" && IntToString(350) == "350"
    ensures IntToString(900) == "900" && IntToString(0) == "0"
  {
  }

  lemma ExamplePlan(bin: string, file: string, opts: Options)
    requires opts.crop && opts.width == Some(400) && opts.height == Some(400)
    ensures Plan(bin, file, opts, Probe(0, 1600, 900)) == Ok(FillCrop(400, 400, Rect(350, 0, 900, 900)))
  {
    ExampleCrop();
  }

  /** The resize token of the worked example, spelled out. */
  lemma ExampleResizeText()
    ensures Flag("resize", "400" + "," + "400") == "--resize 400,400"
  {
  }

  /** The crop token of the worked example, spelled out. */
  lemma ExampleCropText()
    ensures Flag("crop", "350" + "," + "0" + "," + "900" + "," + "900") == "--crop 350,0,900,900"
  {
  }

  lemma ExampleRender()
    ensures Render(FillCrop(400, 400, Rect(350, 0, 900, 900))) == "--resize 400,400 --crop 350,0,900,900"
  {
    ExampleNumbers();
    ExampleResizeText();
    ExampleCropText();
    assert "--resize 400,400" + " " + "--crop 350,0,900,900" == "--resize 400,400 --crop 350,0,900,900";
  }

  /** A 1600x900 source cropped to a 400x400 target keeps the full height and centres a 900-wide square. */
  lemma WorkedExample(bin: string, file: string, opts: Options)
    requires opts.crop && opts.width == Some(400) && opts.height == Some(400)
    ensures Resize(bin, file, opts, Probe(0, 1600, 900)) == Ok("--resize 400,400 --crop 350,0,900,900")
  {
    ExamplePlan(bin, file, opts);
    ExampleRender();
  }
}
