/** The luminance view of one NV12 video sample: the sample starts with one byte of
    luminance per pixel, row by row, followed by colour data that is ignored. */
module Nv12LuminanceSource {

  newtype byte = x: int | 0 <= x < 256

  class Nv12LuminanceSource {
    const sample: array<byte>   // _sample, shared with the caller, never written
    const width: int            // Width
    const height: int           // Height

    constructor (sample: array<byte>, width: int, height: int)
      ensures this.sample == sample && this.width == width && this.height == height
    {
      this.sample := sample;
      this.width := width;
      this.height := height;
    }

    /** Matrix: the sample buffer itself, not a copy. */
    function Matrix(): (m: array<byte>)
      ensures m == sample
    {
      sample
    }

    /** getRow: the luminance of row `y` is copied into `row` if it is long enough,
        otherwise into a fresh array of exactly `width` bytes, which is returned. The
        block copy demands that the bytes lie within the sample; `y` is not checked
        against the height. */
    method GetRow(y: int, row: array<byte>) returns (r: array<byte>)
      requires 0 <= width && 0 <= y * width && y * width + width <= sample.Length
      requires row != sample
      modifies row
      ensures row.Length < width ==> fresh(r) && r.Length == width
      ensures row.Length >= width ==> r == row
      ensures r[..width] == sample[y * width .. y * width + width]
      ensures r == row ==> r[width..] == old(row[width..])
      ensures r != row ==> row[..] == old(row[..])
      ensures sample[..] == old(sample[..])
    {
      r := row;
      if row.Length < width {
        r := new byte[width];
      }
      var offset := y * width;
      forall i | 0 <= i < width {
        r[i] := sample[offset + i];
      }
    }
  }
}
