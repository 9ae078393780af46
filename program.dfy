/** The pipe tool's start-up: the checks made on the parsed command line, and the
    size of one NV12 sample read from standard input, computed in unchecked 32-bit
    `int` arithmetic as the tool does. */
module InterpreterPipe {

  const Int32Min: int := -0x8000_0000
  const Int32Max: int := 0x7FFF_FFFF
  const Modulus: int := 0x1_0000_0000

  predicate IsInt32(x: int) {
    Int32Min <= x <= Int32Max
  }

  /** Unchecked 32-bit arithmetic: the exact result taken modulo 2^32 into the `int`
      range; a result already in range is kept. */
  function Wrap32(x: int): (r: int)
    ensures IsInt32(r)
    ensures (x - r) % Modulus == 0
    ensures IsInt32(x) ==> r == x
  {
    var m := (x - Int32Min) % Modulus;
    assert x - (m + Int32Min) == Modulus * ((x - Int32Min) / Modulus);
    m + Int32Min
  }

  /** `x / 2` on `int`: the quotient truncated toward zero. */
  function Half(x: int): (r: int)
    ensures x >= 0 ==> 0 <= r && 2 * r <= x < 2 * r + 2
    ensures x < 0 ==> r <= 0 && 2 * r - 2 < x <= 2 * r
  {
    if x >= 0 then x / 2 else -((-x) / 2)
  }

  /** Luminance: one byte per pixel. */
  function LuminanceSize(width: int, height: int): int {
    Wrap32(width * height)
  }

  /** An odd height is rounded up to even for the colour data. */
  function AdjustedHeight(height: int): int {
    if height % 2 == 0 then height else Wrap32(height + 1)
  }

  /** The colour data: half a byte per pixel of the adjusted frame. */
  function OtherSize(width: int, height: int): int {
    Half(Wrap32(width * AdjustedHeight(height)))
  }

  /** The bytes of one NV12 sample. */
  function SampleSize(width: int, height: int): int {
    Wrap32(LuminanceSize(width, height) + OtherSize(width, height))
  }

  /** The adjusted height is even; below the largest `int` it is the height itself or
      the next number up (at the largest `int` the increment wraps). */
  lemma AdjustedHeightIsEven(height: int)
    requires IsInt32(height)
    ensures AdjustedHeight(height) % 2 == 0
    ensures height < Int32Max ==> AdjustedHeight(height) == height || AdjustedHeight(height) == height + 1
    ensures height == Int32Max ==> AdjustedHeight(height) == Int32Min
  {}

  /** The bound under which none of the 32-bit operations wraps. */
  predicate FitsInt32(width: int, height: int) {
    width * height + width * ((height + 1) / 2) <= Int32Max
  }

  /** For a positive frame within the bound, the sizes are exact: the luminance is
      width * height, the colour data width * ceil(height / 2), the sample their
      sum, which is at least the luminance and for an even height 3 * width * height / 2. */
  lemma SampleSizeExact(width: int, height: int)
    requires 0 < width && 0 < height && FitsInt32(width, height)
    ensures LuminanceSize(width, height) == width * height
    ensures AdjustedHeight(height) == 2 * ((height + 1) / 2)
    ensures OtherSize(width, height) == width * ((height + 1) / 2)
    ensures SampleSize(width, height) == width * height + width * ((height + 1) / 2)
    ensures SampleSize(width, height) >= LuminanceSize(width, height)
    ensures height % 2 == 0 ==> SampleSize(width, height) == 3 * width * height / 2
  {
    var c := (height + 1) / 2;
    assert 1 <= c;
    assert width * c >= width;
    assert 0 < width * height <= Int32Max;
    assert height + 1 <= Int32Max;
    assert AdjustedHeight(height) == 2 * c;
    assert width * (2 * c) == 2 * (width * c);
    assert 2 * c <= height + 1;
    assert width * (2 * c) <= width * (height + 1) == width * height + width;
    assert Wrap32(width * AdjustedHeight(height)) == 2 * (width * c);
    if height % 2 == 0 {
      assert height == 2 * c;
      assert width * height == 2 * (width * c);
      assert 3 * width * height == 6 * (width * c);
    }
  }

  /** Every row a decoder asks for, `0 <= y < height`, lies within a sample of this
      size, as the row copy of the luminance source demands. */
  lemma RowsFitInSample(width: int, height: int, y: int)
    requires 0 < width && 0 < height && FitsInt32(width, height)
    requires 0 <= y < height
    ensures 0 <= y * width && y * width + width <= SampleSize(width, height)
  {
    SampleSizeExact(width, height);
    var c := (height + 1) / 2;
    assert 0 <= y * width by { MulNonNegative(y, width); }
    assert y * width + width == (y + 1) * width;
    assert (y + 1) * width <= height * width by { MulMonotone(y + 1, height, width); }
    assert 0 <= width * c by { MulNonNegative(width, c); }
  }

  lemma MulNonNegative(a: int, b: int)
    requires 0 <= a && 0 <= b
    ensures 0 <= a * b
  {}

  lemma MulMonotone(a: int, b: int, c: int)
    requires a <= b && 0 <= c
    ensures a * c <= b * c
  {
    assert b * c - a * c == (b - a) * c;
    MulNonNegative(b - a, c);
  }

  /** The size is not checked for overflow: a 65536 x 65536 frame is accepted by the
      argument checks and its sample size wraps to zero. */
  lemma LargeFrameSampleSizeWraps()
    ensures ValidateArguments(Parsed(Options(4, false, 65536, 65536, []))) == Accepted(65536, 65536)
    ensures LuminanceSize(65536, 65536) == 0
    ensures SampleSize(65536, 65536) == 0
  {
    assert 65536 * 65536 == Modulus;
  }

  // ----- ParseArguments, after the option parser has run -----

  /** What the option parser leaves: the number of arguments, whether help was asked
      for, the width and height (0 when not given) and the arguments it did not
      recognise. */
  datatype Options = Options(argCount: nat, showHelp: bool, width: int, height: int, remaining: seq<string>)

  /** The parser either throws an option error or yields the options. */
  datatype Parse = ParseFailed(message: string) | Parsed(options: Options)

  /** The decision: print usage, report an option error, report unknown parameters,
      or go on with the given frame size. Only the last lets the tool run. */
  datatype Verdict =
    | Usage
    | OptionError(message: string)
    | UnknownParameters(rest: seq<string>)
    | Accepted(width: int, height: int)

  const WidthMissing: string := "You must specify the width of the input samples."
  const HeightMissing: string := "You must specify the height of the input samples."

  /** The checks in order: parser error, no arguments or help, width, height, then
      arguments left over. */
  function ValidateArguments(p: Parse): (v: Verdict)
    ensures v.Accepted? <==>
      p.Parsed? && p.options.argCount > 0 && !p.options.showHelp
      && p.options.width > 0 && p.options.height > 0 && p.options.remaining == []
    ensures v.Accepted? ==> v.width == p.options.width && v.height == p.options.height
    ensures v == Usage <==> p.Parsed? && (p.options.argCount == 0 || p.options.showHelp)
    ensures p.ParseFailed? ==> v == OptionError(p.message)
    ensures v.OptionError? <==>
      p.ParseFailed? || (p.Parsed? && p.options.argCount > 0 && !p.options.showHelp
                         && (p.options.width <= 0 || p.options.height <= 0))
    ensures v.OptionError? && p.Parsed? ==>
      v.message == (if p.options.width <= 0 then WidthMissing else HeightMissing)
    ensures v.UnknownParameters? <==>
      p.Parsed? && p.options.argCount > 0 && !p.options.showHelp
      && p.options.width > 0 && p.options.height > 0 && p.options.remaining != []
    ensures v.UnknownParameters? ==> v.rest == p.options.remaining
  {
    match p
    case ParseFailed(m) => OptionError(m)
    case Parsed(o) =>
      if o.argCount == 0 || o.showHelp then Usage
      else if o.width <= 0 then OptionError(WidthMissing)
      else if o.height <= 0 then OptionError(HeightMissing)
      else if o.remaining != [] then UnknownParameters(o.remaining)
      else Accepted(o.width, o.height)
  }
}
