# colorist command builder, modelled in Dafny

This project models the command-line builder of the Kirby `colorist` image
driver (`src/Colorist.php`). The builder turns a merged option bag into the
argument string for the external `colorist convert` tool.

- **Flag emitters.** Each option (`quality`, `jobs` … `nclx`) becomes either
  `--name value`, a bare `--name`, or the empty string.
- **`resize`.** This emits `--resize WxH` when cropping is off. When cropping
  is on it:
  - fills in a missing target dimension;
  - compares the source and target aspect ratios;
  - emits `--resize W,H`, followed by a centred `--crop x,y,w,h` when the
    ratios differ.
- **`process` and `toFormat`.** These append the tokens in a fixed order, drop
  the falsey ones, join the rest with single spaces and run the line.

Modules, one file each:

| file | module | contents |
|---|---|---|
| `wrappers.dfy` | `Wrappers` | `Option`, `Result` |
| `options.dfy` | `ColoristOptions` | the merged option record, its defaults, the `identify` probe, failures |
| `strings.dfy` | `Strings` | integer text, `array_filter` (falsey tokens), `implode(' ')`, `pathinfo` extension, flag tokens and spacing |
| `flags.dfy` | `Flags` | `quality` and the 21 option handlers |
| `geometry.dfy` | `Geometry` | `resize`: normalisation, exact ratios, the centred crop, the rendered token |
| `colorist.dfy` | `Colorist` | `convert`/`save`, the token lists, the `Implode` loop, the `Process` and `ToFormat` methods |
| `properties.dfy` | `ColoristProperties` | properties of the assembled line: frame, order, option presence, defaults, spacing |

Some parts of the source are replaced by inputs:

- **The shell.** Running a command is replaced by its exit status, given as a
  parameter.
- **`identify`.** Its result is a `Probe(status, width, height)`.
- **The binary path.** `option('fundevogel.colorist.bin')` is a `bin`
  parameter.

Float arithmetic in `resize` is replaced by exact rational comparisons:

- a/b < c/d is decided by cross-multiplication;
- `floor` is taken of the exact quotient.

`RatioEquality`, `RatioOrder` and `FloorDivIsFloor` prove that these integer
forms agree with division over the reals. PHP 8's `DivisionByZeroError` is
modelled as `Err(DivisionByZero)`. It is raised when the source height is 0,
or when the target height is still null or 0 after normalisation.

## Model

| member | source | states |
|---|---|---|
| Strings.IntRoundTrip | src/Colorist.php:129 | the decimal text PHP concatenates for an integer option value parses back to that integer |
| Strings.IntToString | src/Colorist.php:129 | the text is non-empty and has no space; it starts with `-` iff the integer is negative, and a non-negative integer is all digits (IntRoundTrip: it parses back) |
| Strings.KeepTruthy | src/Colorist.php:609 | `array_filter` never lengthens the list (KeepTruthyMembers: it keeps exactly the truthy tokens; KeepTruthyAppend: in order) |
| Strings.Join | src/Colorist.php:609 | `implode(' ', …)`: no contract of its own; JoinFrame, JoinSpacing and Colorist.Implode state what the line looks like |
| Strings.KeepTruthyMembers | src/Colorist.php:660 | `array_filter` keeps exactly the tokens that are neither "" nor "0" |
| Strings.KeepTruthyAppend | src/Colorist.php:660 | filtering a concatenation filters each part and keeps their order |
| Strings.JoinFrame | src/Colorist.php:660 | an imploded line begins with its first part and ends with its last part |
| Strings.JoinSpacing | src/Colorist.php:660 | joining non-empty parts that have no outer or doubled spaces, using single spaces, gives a line with no outer or doubled spaces |
| Strings.ExtensionOf | src/Colorist.php:117-118 | the `pathinfo` extension of `stem.ext`, where ext has no dot or slash, is ext |
| Strings.NoExtension | src/Colorist.php:117-118 | a dotless name has the empty extension, alone or under any directory |
| Strings.FlagNamed | src/Colorist.php:297 | `--name value` and `--name` name the option `name` |
| Strings.BaseName | src/Colorist.php:118 | the base name has no slash, ends the path, and is either the whole path or follows its last slash |
| Strings.Extension | src/Colorist.php:118 | the extension has no dot and no slash (ExtensionOf and NoExtension: what it is for dotted and dotless names) |
| Flags.Quality | src/Colorist.php:112-130 | scalar q gives `--quality q`; for a table, the token is empty iff the key (the format, else the extension) is absent, and is `--quality table[key]` otherwise |
| Flags.QualityKey | src/Colorist.php:117-120 | no contract of its own; Flags.Quality, QualityFromExtension and QualityWithoutExtension state the lookup under the format, else the extension |
| Flags.QualityFromExtension | src/Colorist.php:117-126 | with no format, a table is read under the file's extension; a missing entry gives "" |
| Flags.QualityWithoutExtension | src/Colorist.php:117-126 | with no format and no dot in the base name, a table is read under the empty key |
| Flags.Jobs | src/Colorist.php:294-301 | non-empty iff jobs > 0, and then `--jobs n` |
| Flags.Cmm | src/Colorist.php:304-316 | non-empty iff cmm ∈ {colorist, lcms}, and then `--cmm v` |
| Flags.Deflum | src/Colorist.php:319-326 | non-empty iff deflum is not null, and then `--deflum v` |
| Flags.Hlglum | src/Colorist.php:329-336 | non-empty iff hlglum is not null, and then `--hlglum v` |
| Flags.Iccin | src/Colorist.php:339-346 | non-empty iff iccin is not null, and then `--iccin v` |
| Flags.Frameindex | src/Colorist.php:348-355 | non-empty iff frameindex > 0, and then `--frameindex n` |
| Flags.Iccout | src/Colorist.php:359-366 | non-empty iff iccout is not null, and then `--iccout v` |
| Flags.Autograde | src/Colorist.php:369-376 | non-empty iff autograde is true, and then the bare `--autograde` |
| Flags.Copyright | src/Colorist.php:379-386 | non-empty iff copyright is not null, and then `--copyright v` |
| Flags.Description | src/Colorist.php:389-396 | non-empty iff description is not null, and then `--description v` |
| Flags.Gamma | src/Colorist.php:399-412 | non-empty iff gamma ∈ {pq, hlg, source}, and then `--gamma v` |
| Flags.Luminance | src/Colorist.php:415-422 | non-empty iff luminance is not null, and then `--luminance v` |
| Flags.Primaries | src/Colorist.php:425-438 | non-empty iff primaries ∈ {bt709, bt2020, p3}, and then `--primaries v` |
| Flags.Noprofile | src/Colorist.php:441-448 | non-empty iff noprofile is true, and then the bare `--noprofile` |
| Flags.Bpc | src/Colorist.php:453-467 | non-empty iff bpc is set and 8 ≤ bpc ≤ 16 (null gives ""), and then `--bpc n` |
| Flags.Format | src/Colorist.php:470-488 | non-empty iff format ∈ {avif, bmp, jpg, jp2, j2k, png, tiff, webp}, and then `--format v` |
| Flags.Rate | src/Colorist.php:491-498 | non-empty iff rate > 0, and then `--rate n` |
| Flags.Tonemap | src/Colorist.php:501-522 | true gives `--tonemap on` and false gives `--tonemap off`; null gives ""; a name gives a token iff it is on or off |
| Flags.Yuv | src/Colorist.php:525-539 | non-empty iff yuv ∈ {444, 422, 420, yv12}, and then `--yuv v` |
| Flags.Speed | src/Colorist.php:541-555 | non-empty iff speed is set and 0 ≤ speed ≤ 10 (null gives ""), and then `--speed n` |
| Flags.Nclx | src/Colorist.php:557-564 | non-empty iff nclx is not null, and then `--nclx v` |
| Geometry.RatioEquality | src/Colorist.php:176-180 | the cross-multiplied test holds iff the real quotients x/y and x1/y1 are equal |
| Geometry.RatioOrder | src/Colorist.php:186-189 | the cross-multiplied order holds iff x/y < x1/y1 over the reals |
| Geometry.FloorDivIsFloor | src/Colorist.php:251-254 | the integer quotient taken for the crop is the floor of the real quotient |
| Geometry.Normalize | src/Colorist.php:167-170 | both set: unchanged; one null: the null side takes the other (a width of 0 with a null height leaves both null) |
| Geometry.CenteredCrop | src/Colorist.php:249-273 | fit by width keeps the full width and centres the cut height; fit by height keeps the full height and centres the cut width; an odd pixel goes to the far side |
| Geometry.WidthFitInside | src/Colorist.php:249-255 | fit by width: the cut height is floor(x·y1/x1), non-negative, and the crop from ypos ≥ 0 stays within the source height |
| Geometry.HeightFitInside | src/Colorist.php:267-273 | fit by height: the cut width is floor(y·x1/y1), non-negative, and the crop from xpos ≥ 0 stays within the source width |
| Geometry.CropInsideSource | src/Colorist.php:249-276 | for a positive target with a different ratio, the crop lies inside the source and its cut side is the largest whole length within the target ratio |
| Geometry.PlanCropInside | src/Colorist.php:151-189 | every crop that `resize` plans for a positive target lies inside the probed source width and height |
| Geometry.ResizeWithoutCrop | src/Colorist.php:136-137 | with crop off, the token is exactly `--resize WxH` (null prints as nothing) and contains no `--crop` |
| Geometry.ResizeFillsMissingDimension | src/Colorist.php:167-173 | with crop on and one dimension null, the other (non-zero) value v gives a v×v resize |
| Geometry.ResizeEqualRatio | src/Colorist.php:176-182 | when the ratios agree exactly, the token is `--resize W,H` alone, with no `--crop` |
| Geometry.ResizeFailure | src/Colorist.php:151-177 | `resize` fails iff crop is on and identify fails, the source height is 0, or the normalised target height is null or 0; a failed identify reports its command |
| Geometry.ResizeToken | src/Colorist.php:134-279 | every token `resize` returns names the resize option and has no outer or doubled spaces |
| Geometry.ExampleCrop | src/Colorist.php:267-273 | a 1600×900 source with a 400×400 target crops to (350, 0, 900, 900) |
| Geometry.ExamplePlan | src/Colorist.php:151-189 | that case is a resize to 400,400 with that crop |
| Geometry.ExampleRender | src/Colorist.php:173-276 | that decision prints as `--resize 400,400 --crop 350,0,900,900` |
| Geometry.WorkedExample | src/Colorist.php:134-279 | `resize` of a 1600×900 source with a 400×400 target is `--resize 400,400 --crop 350,0,900,900` |
| Geometry.Plan | src/Colorist.php:134-190 | no contract of its own; ResizeWithoutCrop, ResizeFillsMissingDimension, ResizeEqualRatio, ResizeFailure and PlanCropInside state each branch |
| Geometry.Render | src/Colorist.php:136-137 | no contract of its own; ResizeWithoutCrop, ResizeToken and ExampleRender state the printed tokens |
| Geometry.Resize | src/Colorist.php:134-279 | no contract of its own; ResizeFailure, ResizeToken, ResizeEqualRatio and WorkedExample state its results |
| Geometry.IdentifyCommand | src/Colorist.php:574 | no contract of its own; ResizeFailure states that a failed identify reports this command |
| Colorist.QuotedNotFalsey | src/Colorist.php:96-104 | the convert and save tokens are never filtered out |
| Colorist.Save | src/Colorist.php:101-104 | the token is the file between two double quotes: two characters longer, and unquoting it gives the file back |
| Colorist.Convert | src/Colorist.php:96-99 | no contract of its own; QuotedNotFalsey, ConvertClean and ProcessLineFrame state that it is kept, cleanly spaced and first on the line |
| Colorist.ProcessTokens | src/Colorist.php:624-655 | no contract of its own; KeptProcessTokens, MiddleLabelled and OptionPresence state its order and which options have a kept token |
| Colorist.ToFormatTokens | src/Colorist.php:601-604 | no contract of its own; ToFormatLine states the resulting line |
| Colorist.CommandLine | src/Colorist.php:609 | no contract of its own; Colorist.Implode computes it with a loop, and ProcessLineFrame and ProcessLineSpacing state its shape |
| Colorist.Implode | src/Colorist.php:657-660 | the loop that drops falsey tokens and joins the rest with single spaces computes `Join(KeepTruthy(tokens))` |
| Colorist.AppendBasic | src/Colorist.php:629-633 | appends jobs, cmm, deflum and hlglum in that order |
| Colorist.AppendInputProfile | src/Colorist.php:634-636 | appends iccin and frameindex in that order |
| Colorist.AppendOutputProfile | src/Colorist.php:637-645 | appends the eight output profile tokens in their order |
| Colorist.AppendOutputFormat | src/Colorist.php:646-653 | appends the seven output format tokens in their order |
| Colorist.Process | src/Colorist.php:619-670 | a failing `resize` throws before anything runs; otherwise the line run is the filtered, joined token list, and a non-zero status fails with that line while a zero status returns the options |
| Colorist.ToFormat | src/Colorist.php:596-617 | runs the filtered, joined convert/format/save tokens, with the format set; a non-zero status fails with that line |
| Colorist.ToFormatLine | src/Colorist.php:596-609 | the `toFormat` line is the convert token, `--format f` when f is supported, and the save token, and nothing else |
| ColoristProperties.ResizeIsShaped | src/Colorist.php:134-279 | a successful `resize` token is a single `--resize` token with no outer or doubled spaces |
| ColoristProperties.KeptProcessTokens | src/Colorist.php:624-660 | the convert and save tokens are always kept, and only the tokens between them are filtered |
| ColoristProperties.ProcessLineFrame | src/Colorist.php:624-660 | the `process` line starts with `"bin" convert "file"` and ends with `"file"` |
| ColoristProperties.OptionNamesDistinct | src/Colorist.php:626-653 | the 23 options appended between convert and save are distinct |
| ColoristProperties.DarkroomLabelled | src/Colorist.php:626-628 | the quality and resize tokens are empty or name their own option |
| ColoristProperties.BasicLabelled | src/Colorist.php:629-636 | each basic and input profile token is empty or names its own option |
| ColoristProperties.OutputProfileLabelled | src/Colorist.php:637-645 | each output profile token is empty or names its own option |
| ColoristProperties.OutputFormatLabelled | src/Colorist.php:646-653 | each output format token is empty or names its own option |
| ColoristProperties.MiddleLabelled | src/Colorist.php:626-653 | the tokens between convert and save follow the fixed option order |
| ColoristProperties.LabelledPresence | src/Colorist.php:657-660 | in a quoted-first, quoted-last list of labelled tokens with distinct names, some kept token is a flag for an option iff that option's own token is non-empty |
| ColoristProperties.OptionPresence | src/Colorist.php:619-660 | some kept token of the `process` list is a flag for the i-th option in the fixed order iff its emitter produced a token |
| ColoristProperties.UnknownPrimariesDropped | src/Colorist.php:425-438 | any primaries value outside {bt709, bt2020, p3} leaves no kept `--primaries` token |
| ColoristProperties.SpeedOutOfRangeDropped | src/Colorist.php:541-555 | any speed outside 0..10 leaves no kept `--speed` token |
| ColoristProperties.SpeedInRangeKept | src/Colorist.php:541-555 | any speed v in 0..10 is kept as the token `--speed v` |
| ColoristProperties.QualityTableMissDropped | src/Colorist.php:116-126 | any quality table with no entry under the format (or, without a format, the extension) leaves no kept `--quality` token |
| ColoristProperties.DefaultsSilent | src/Colorist.php:27-54 | with the default option values, every basic, profile and format handler is silent |
| ColoristProperties.DefaultCommand | src/Colorist.php:619-660 | with the default option values and no target size, `resize` is `--resize x` and the line is `"bin" convert "file" --quality 90 --resize x "file"` |
| ColoristProperties.ConvertClean | src/Colorist.php:96-104 | the convert and save tokens have no outer or doubled spaces when the paths have no doubled spaces |
| ColoristProperties.ProcessLineSpacing | src/Colorist.php:657-660 | when the paths and free-text values are clean, the `process` line has single spaces only and none at either end |

## Left out

- The Focus-plugin branch of `resize` (src/Colorist.php:193-239) is not
  modelled. It delegates to `Flokosiol\Focus::cropValues`, which is not part
  of this model.
- `exec_enabled` (src/Colorist.php:62-89) is not modelled. It only probes the
  PHP environment.
- `identify` (src/Colorist.php:571-583) is reduced to a Probe:
  - its exit status is kept, and a non-zero status fails with the identify
    command;
  - running the tool, JSON decoding and malformed output are not modelled.
- Running the command in `process` and `toFormat` is modelled as an exit
  status parameter. A child process and its output are not modelled.
- Default merging is taken as done: `parent::defaults()`, `$this->options()`,
  `preprocess` and the global `option(...)` lookups. The options are an
  input. `Defaults` records the default values as constants.
- Geometry.CenteredCrop: the cut side is the floor of the exact quotient, while
  PHP takes the floor of a value rounded twice as a float (the ratio, then
  the quotient or product). The two can differ by one pixel, and the centring offset with
  them. For a 1600x900 source and a 130x120 target PHP computes
  floor(974.9999999999999) and prints `--crop 313,0,974,900`; the model gives
  `--crop 312,0,975,900`.
- Geometry.SameRatio and Geometry.RatioBelow: the ratio tests compare exact
  quotients by cross-multiplication, while PHP compares correctly rounded
  doubles. The two agree when every dimension is below 2^17 in absolute
  value. Two different ratios then differ by more than 2^-34, and doubles
  below 2^17 are at most 2^-36 apart, so rounding keeps them distinct and in
  order. For larger dimensions PHP can round two different ratios to the same
  double: a 105553116266497x3 source with a 4503599627370539x128 target is a
  `===` match in PHP, so PHP prints only the resize, but here it gets a crop.
- Geometry.Render: `floor` returns a PHP float. It is printed here as the
  integer it holds. PHP prints an integral float that way only below 10^14 in
  absolute value; from 10^14 on, its default `precision` of 14 gives
  E notation (`1.0E+14`), which the model does not produce.
- Geometry.Plan: the crop option is a boolean. In the source, any value other
  than `false` (a string such as "center", say) turns cropping on.
- Geometry.Plan: the target width and height are integers or null. Non-integer
  PHP values are not represented.
- Geometry.Plan: division by zero follows PHP 8, where it throws. Under PHP 7
  it was a warning and an INF or NAN ratio, after which `resize` printed a
  degenerate crop; that is not modelled.
- Flags.Cmm: `in_array` compares loosely in the source. Values are typed as
  strings here, so loose matches such as `true` are not modelled. The same
  holds for Flags.Gamma, Flags.Primaries, Flags.Format, Flags.Tonemap and
  Flags.Yuv.
- Flags.Yuv: even among strings the loose comparison matters. PHP 8 compares
  two numeric strings as numbers, so `"0444"`, `"444.0"` and `" 444"` all
  match `'444'` (src/Colorist.php:527-534), and PHP emits `--yuv 0444`. The
  model compares strings exactly and emits nothing for them.
- Flags.Bpc: the `(int)` cast of a string value is not modelled; bpc is an
  integer. The same holds for Flags.Speed.
- Flags.Autograde: "exactly true" is modelled as a boolean field, so values
  that are truthy but not `true` cannot be expressed. The same holds for
  Flags.Noprofile.
- Flags.Quality: table keys and the quality value are a string-to-int map and
  an int. PHP's integer-like string keys are not distinguished.
- Colorist.Convert: `sprintf` treats a `%` in the binary path as a directive.
  The binary path is modelled as inserted literally.
- Geometry.IdentifyCommand: the same holds for the `identify` command line
  (src/Colorist.php:574), whose format string also contains the binary path.
- Strings.BaseName: PHP's `pathinfo` strips trailing slashes before taking
  the base name. The model takes what follows the last slash, so a path
  ending in `/` has an empty base name here. Strings.Extension inherits this.
- The exception messages (src/Colorist.php:579, 615, 666) are not modelled as
  text. A failure is the value `CommandFailed(command)`, which carries the
  command line the message quotes.
- Colorist.ToFormat: `toFormat` passes a second argument to `convert`, which
  PHP ignores; the model passes only the source.
- Shell quoting is not modelled: paths are wrapped in `"` without escaping,
  and no shell-safety property is claimed.
- ColoristProperties.OptionPresence: presence is stated token by token: some
  kept token is a flag for the option. Free-text values (copyright,
  description, deflum, hlglum, iccin, iccout, luminance, nclx) are concatenated
  unquoted (src/Colorist.php:322-392, 418, 560), so a value such as
  `--primaries p3` puts that text on the line inside another option's token,
  and the shell hands it to colorist as a flag. No line-level claim is made
  for such values. The same holds for ColoristProperties.LabelledPresence,
  ColoristProperties.UnknownPrimariesDropped,
  ColoristProperties.SpeedOutOfRangeDropped and
  ColoristProperties.QualityTableMissDropped.
- ColoristProperties.ProcessLineSpacing: this holds only when the paths have
  no doubled spaces (the quotes protect their ends) and the free-text option
  values have no doubled or outer spaces. The source
  passes those values through unchanged.
- `index.php` and `snippets/` (Kirby file methods and the HTML template) are
  not part of this model.
