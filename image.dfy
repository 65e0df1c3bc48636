/** The pixel buffer handed to detection and calibration: the canvas's RGBA bytes in
    row-major order, four bytes per pixel. */
module Pixels {
  import opened Color

  datatype Image = Image(data: seq<int>, width: nat, height: nat)

  datatype Rgb = Rgb(r: int, g: int, b: int)

  /** A well-formed buffer: exactly width * height * 4 entries, every one a byte. */
  ghost predicate ValidImage(img: Image)
  {
    |img.data| == img.width * img.height * 4 &&
    forall i :: 0 <= i < |img.data| ==> IsByte(img.data[i])
  }

  /** Pixel (x, y) starts at index (y * width + x) * 4. */
  function PixelIndex(width: nat, x: nat, y: nat): nat
  {
    (y * width + x) * 4
  }

  /** The start of every in-frame pixel leaves room for its four bytes. */
  lemma PixelIndexInRange(width: nat, height: nat, x: nat, y: nat)
    requires x < width && y < height
    ensures PixelIndex(width, x, y) + 3 < width * height * 4
  {
    assert y * width + x < (y + 1) * width;
    assert (y + 1) * width <= height * width;
  }

  /** The red, green and blue bytes of pixel (x, y); the alpha byte is never read. */
  function PixelAt(img: Image, x: nat, y: nat): (c: Rgb)
    requires ValidImage(img) && x < img.width && y < img.height
    ensures IsByte(c.r) && IsByte(c.g) && IsByte(c.b)
  {
    var i := PixelIndex(img.width, x, y);
    PixelIndexInRange(img.width, img.height, x, y);
    Rgb(img.data[i], img.data[i + 1], img.data[i + 2])
  }

  lemma PixelAtBytes(img: Image, x: nat, y: nat)
    requires ValidImage(img) && x < img.width && y < img.height
    ensures var i := PixelIndex(img.width, x, y);
      i + 3 < |img.data| &&
      PixelAt(img, x, y).r == img.data[i] &&
      PixelAt(img, x, y).g == img.data[i + 1] &&
      PixelAt(img, x, y).b == img.data[i + 2]
  {
    PixelIndexInRange(img.width, img.height, x, y);
  }
}
