/**
 * The merged option bag a colorist conversion works from, what the external
 * tool reports back, and the ways a conversion can fail.
 */
module ColoristOptions {
  import opened Wrappers

  /** `quality`: one number for every format, or a table from format name to number. */
  datatype QualitySetting = Scalar(level: int) | PerFormat(table: map<string, int>)

  /** `tonemap`: a boolean (true stands for "on", false for "off") or a name. */
  datatype TonemapSetting = Toggle(on: bool) | Named(name: string)

  /**
   * The option bag after defaults are merged in. `None` is PHP's `null`.
   * `crop` is false exactly when the option is the literal `false`; every
   * other crop setting (true, a gravity name) is treated alike and is `true`
   * here. Pass-through values are given in the text form PHP's string
   * concatenation produces for them.
   */
  datatype Options = Options(
    // Darkroom options
    width: Option<int>,
    height: Option<int>,
    crop: bool,
    quality: QualitySetting,
    // basic options
    jobs: int,
    cmm: Option<string>,
    deflum: Option<string>,
    hlglum: Option<string>,
    // input profile options
    iccin: Option<string>,
    frameindex: int,
    // output profile options
    iccout: Option<string>,
    autograde: bool,
    copyright: Option<string>,
    description: Option<string>,
    gamma: Option<string>,
    luminance: Option<string>,
    primaries: Option<string>,
    noprofile: bool,
    // output format options
    bpc: Option<int>,
    format: Option<string>,
    rate: int,
    tonemap: Option<TonemapSetting>,
    yuv: Option<string>,
    speed: Option<int>,
    nclx: Option<string>
  )

  /**
   * The option bag when nothing is configured: the fallback of every
   * `option(...)` lookup. Width, height and crop come from the Darkroom base
   * class and are passed in.
   */
  function Defaults(width: Option<int>, height: Option<int>, crop: bool): Options {
    Options(
      width, height, crop, Scalar(90),
      0, None, None, None,
      None, 0,
      None, false, None, None, None, None, None, false,
      None, None, 0, None, None, None, None)
  }

  /** What `colorist identify --json` reports: its exit status and the decoded width and height. */
  datatype Probe = Probe(status: int, width: nat, height: nat)

  /** Why a conversion throws. */
  datatype Failure =
    | CommandFailed(command: string)  // a child process exited with a non-zero status
    | DivisionByZero                  // PHP 8's DivisionByZeroError in the aspect-ratio arithmetic
}
