/**
 * The per-option emitters of the colorist driver. Each reads one option of
 * the bag and yields either its command-line token or the empty string; an
 * option whose value is not allowed is dropped silently, so that the tool's
 * own default applies.
 */
module Flags {
  import opened Wrappers
  import opened Strings
  import opened ColoristOptions

  // ---------------------------------------------------------------------
  // Quality
  // ---------------------------------------------------------------------

  /** The key a quality table is read with: the format option, else the file's extension. */
  function QualityKey(file: string, opts: Options): string {
    match opts.format
    case Some(f) => f
    case None => Extension(file)
  }

  /** `--quality n`, with n read from the table when quality is given per format. */
  function Quality(file: string, opts: Options): (token: string)
    ensures opts.quality.Scalar? ==> token == Flag("quality", IntToString(opts.quality.level))
    ensures opts.quality.PerFormat? ==>
      (token == "" <==> QualityKey(file, opts) !in opts.quality.table)
    ensures opts.quality.PerFormat? && QualityKey(file, opts) in opts.quality.table ==>
      token == Flag("quality", IntToString(opts.quality.table[QualityKey(file, opts)]))
  {
    match opts.quality
    case Scalar(level) => Flag("quality", IntToString(level))
    case PerFormat(table) =>
      var key := QualityKey(file, opts);
      if key in table then Flag("quality", IntToString(table[key])) else ""
  }

  /**
   * With no format option, a quality table is read under the extension of
   * the file, and a missing entry emits nothing.
   */
  lemma QualityFromExtension(stem: string, ext: string, opts: Options)
    requires '.' !in ext && '/' !in ext
    requires opts.format.None? && opts.quality.PerFormat?
    ensures Quality(stem + "." + ext, opts) ==
      if ext in opts.quality.table then Flag("quality", IntToString(opts.quality.table[ext])) else ""
  {
    ExtensionOf(stem, ext);
  }

  /** A file whose base name has no dot reads a quality table under the empty key. */
  lemma QualityWithoutExtension(dir: string, name: string, opts: Options)
    requires '.' !in name && '/' !in name
    requires opts.format.None? && opts.quality.PerFormat?
    ensures Quality(dir + "/" + name, opts) ==
      if "" in opts.quality.table then Flag("quality", IntToString(opts.quality.table[""])) else ""
  {
    NoExtension(dir, name);
  }

  // ---------------------------------------------------------------------
  // Basic options
  // ---------------------------------------------------------------------

  function Jobs(opts: Options): (token: string)
    ensures token != "" <==> opts.jobs > 0
    ensures token != "" ==> token == Flag("jobs", IntToString(opts.jobs))
  {
    if opts.jobs > 0 then Flag("jobs", IntToString(opts.jobs)) else ""
  }

  const CmmModules: seq<string> := ["colorist", "lcms"]

  function Cmm(opts: Options): (token: string)
    ensures token != "" <==> opts.cmm.Some? && opts.cmm.value in {"colorist", "lcms"}
    ensures token != "" ==> token == Flag("cmm", opts.cmm.value)
  {
    if opts.cmm.Some? && opts.cmm.value in CmmModules then Flag("cmm", opts.cmm.value) else ""
  }

  function Deflum(opts: Options): (token: string)
    ensures token != "" <==> opts.deflum.Some?
    ensures token != "" ==> token == Flag("deflum", opts.deflum.value)
  {
    if opts.deflum.Some? then Flag("deflum", opts.deflum.value) else ""
  }

  function Hlglum(opts: Options): (token: string)
    ensures token != "" <==> opts.hlglum.Some?
    ensures token != "" ==> token == Flag("hlglum", opts.hlglum.value)
  {
    if opts.hlglum.Some? then Flag("hlglum", opts.hlglum.value) else ""
  }

  // ---------------------------------------------------------------------
  // Input profile options
  // ---------------------------------------------------------------------

  function Iccin(opts: Options): (token: string)
    ensures token != "" <==> opts.iccin.Some?
    ensures token != "" ==> token == Flag("iccin", opts.iccin.value)
  {
    if opts.iccin.Some? then Flag("iccin", opts.iccin.value) else ""
  }

  function Frameindex(opts: Options): (token: string)
    ensures token != "" <==> opts.frameindex > 0
    ensures token != "" ==> token == Flag("frameindex", IntToString(opts.frameindex))
  {
    if opts.frameindex > 0 then Flag("frameindex", IntToString(opts.frameindex)) else ""
  }

  // ---------------------------------------------------------------------
  // Output profile options
  // ---------------------------------------------------------------------

  function Iccout(opts: Options): (token: string)
    ensures token != "" <==> opts.iccout.Some?
    ensures token != "" ==> token == Flag("iccout", opts.iccout.value)
  {
    if opts.iccout.Some? then Flag("iccout", opts.iccout.value) else ""
  }

  function Autograde(opts: Options): (token: string)
    ensures token != "" <==> opts.autograde
    ensures token != "" ==> token == Switch("autograde")
  {
    if opts.autograde then Switch("autograde") else ""
  }

  function Copyright(opts: Options): (token: string)
    ensures token != "" <==> opts.copyright.Some?
    ensures token != "" ==> token == Flag("copyright", opts.copyright.value)
  {
    if opts.copyright.Some? then Flag("copyright", opts.copyright.value) else ""
  }

  function Description(opts: Options): (token: string)
    ensures token != "" <==> opts.description.Some?
    ensures token != "" ==> token == Flag("description", opts.description.value)
  {
    if opts.description.Some? then Flag("description", opts.description.value) else ""
  }

  const GammaCurves: seq<string> := ["pq", "hlg", "source"]

  function Gamma(opts: Options): (token: string)
    ensures token != "" <==> opts.gamma.Some? && opts.gamma.value in {"pq", "hlg", "source"}
    ensures token != "" ==> token == Flag("gamma", opts.gamma.value)
  {
    if opts.gamma.Some? && opts.gamma.value in GammaCurves then Flag("gamma", opts.gamma.value) else ""
  }

  function Luminance(opts: Options): (token: string)
    ensures token != "" <==> opts.luminance.Some?
    ensures token != "" ==> token == Flag("luminance", opts.luminance.value)
  {
    if opts.luminance.Some? then Flag("luminance", opts.luminance.value) else ""
  }

  const ColorPrimaries: seq<string> := ["bt709", "bt2020", "p3"]

  function Primaries(opts: Options): (token: string)
    ensures token != "" <==> opts.primaries.Some? && opts.primaries.value in {"bt709", "bt2020", "p3"}
    ensures token != "" ==> token == Flag("primaries", opts.primaries.value)
  {
    if opts.primaries.Some? && opts.primaries.value in ColorPrimaries then
      Flag("primaries", opts.primaries.value)
    else ""
  }

  function Noprofile(opts: Options): (token: string)
    ensures token != "" <==> opts.noprofile
    ensures token != "" ==> token == Switch("noprofile")
  {
    if opts.noprofile then Switch("noprofile") else ""
  }

  // ---------------------------------------------------------------------
  // Output format options
  // ---------------------------------------------------------------------

  function Bpc(opts: Options): (token: string)
    ensures token != "" <==> opts.bpc.Some? && 8 <= opts.bpc.value <= 16
    ensures token != "" ==> token == Flag("bpc", IntToString(opts.bpc.value))
  {
    if opts.bpc.None? then ""
    else if 8 <= opts.bpc.value && opts.bpc.value <= 16 then Flag("bpc", IntToString(opts.bpc.value))
    else ""
  }

  const OutputFormats: seq<string> := ["avif", "bmp", "jpg", "jp2", "j2k", "png", "tiff", "webp"]

  function Format(opts: Options): (token: string)
    ensures token != "" <==>
      opts.format.Some? && opts.format.value in {"avif", "bmp", "jpg", "jp2", "j2k", "png", "tiff", "webp"}
    ensures token != "" ==> token == Flag("format", opts.format.value)
  {
    if opts.format.Some? && opts.format.value in OutputFormats then Flag("format", opts.format.value) else ""
  }

  function Rate(opts: Options): (token: string)
    ensures token != "" <==> opts.rate > 0
    ensures token != "" ==> token == Flag("rate", IntToString(opts.rate))
  {
    if opts.rate > 0 then Flag("rate", IntToString(opts.rate)) else ""
  }

  /** The tone-mapping word after booleans are normalised: true is "on", false is "off". */
  function TonemapWord(t: TonemapSetting): string {
    match t
    case Toggle(on) => if on then "on" else "off"
    case Named(name) => name
  }

  const TonemapModes: seq<string> := ["on", "off"]

  function Tonemap(opts: Options): (token: string)
    ensures opts.tonemap == Some(Toggle(true)) ==> token == Flag("tonemap", "on")
    ensures opts.tonemap == Some(Toggle(false)) ==> token == Flag("tonemap", "off")
    ensures opts.tonemap.None? ==> token == ""
    ensures opts.tonemap.Some? && opts.tonemap.value.Named? ==>
      (token != "" <==> opts.tonemap.value.name in {"on", "off"})
    ensures token != "" ==> opts.tonemap.Some? && token == Flag("tonemap", TonemapWord(opts.tonemap.value))
  {
    if opts.tonemap.Some? && TonemapWord(opts.tonemap.value) in TonemapModes then
      Flag("tonemap", TonemapWord(opts.tonemap.value))
    else ""
  }

  const YuvModes: seq<string> := ["444", "422", "420", "yv12"]

  function Yuv(opts: Options): (token: string)
    ensures token != "" <==> opts.yuv.Some? && opts.yuv.value in {"444", "422", "420", "yv12"}
    ensures token != "" ==> token == Flag("yuv", opts.yuv.value)
  {
    if opts.yuv.Some? && opts.yuv.value in YuvModes then Flag("yuv", opts.yuv.value) else ""
  }

  function Speed(opts: Options): (token: string)
    ensures token != "" <==> opts.speed.Some? && 0 <= opts.speed.value <= 10
    ensures token != "" ==> token == Flag("speed", IntToString(opts.speed.value))
  {
    if opts.speed.None? then ""
    else if 0 <= opts.speed.value && opts.speed.value <= 10 then Flag("speed", IntToString(opts.speed.value))
    else ""
  }

  function Nclx(opts: Options): (token: string)
    ensures token != "" <==> opts.nclx.Some?
    ensures token != "" ==> token == Flag("nclx", opts.nclx.value)
  {
    if opts.nclx.Some? then Flag("nclx", opts.nclx.value) else ""
  }
}
