/** Decoded camera images and the pixel a projected point is read from. */
module Images {

  /** A color column. Image pixels have channels in 0..255; the exporter's
      coloring buffer also holds the sentinel -1. */
  datatype Rgb = Rgb(r: int, g: int, b: int)

  predicate IsPixel(c: Rgb) {
    0 <= c.r < 256 && 0 <= c.g < 256 && 0 <= c.b < 256
  }

  /** A decoded RGB image of `width` x `height` pixels (the image's size
      pair); rows[v][u] is the pixel in row v and column u, as indexing the
      decoded array with [v, u] gives it. */
  datatype RawImage = RawImage(width: nat, height: nat, rows: seq<seq<Rgb>>)

  predicate WellFormed(im: RawImage) {
    |im.rows| == im.height &&
    forall v :: 0 <= v < |im.rows| ==>
      |im.rows[v]| == im.width && forall u :: 0 <= u < |im.rows[v]| ==> IsPixel(im.rows[v][u])
  }

  /** What the image loader returns: a grid of the stated size with 8-bit channels. */
  type Image = im: RawImage | WellFormed(im) witness RawImage(0, 0, [])

  /** A point projected onto the image plane, in pixel coordinates. */
  datatype UV = UV(u: real, v: real)

  /** Rounding to the nearest integer with ties to even, as numpy rounds. */
  function Round(x: real): (r: int)
    ensures -0.5 <= r as real - x <= 0.5
    ensures (r as real - x == 0.5 || x - r as real == 0.5) ==> r % 2 == 0
  {
    var f := x.Floor;
    var d := x - f as real;
    if d < 0.5 then f
    else if d > 0.5 then f + 1
    else if f % 2 == 0 then f
    else f + 1
  }

  /** The projected point lies strictly inside the image, at least one pixel
      away from every border. */
  predicate InsideMargin(p: UV, width: nat, height: nat) {
    1.0 < p.u < width as real - 1.0 && 1.0 < p.v < height as real - 1.0
  }

  /** The (column, row) a projected point is rounded to. Inside the margin,
      rounding cannot leave the image. */
  function PixelIndex(p: UV, width: nat, height: nat): (ix: (nat, nat))
    requires InsideMargin(p, width, height)
    ensures 1 <= ix.0 < width && 1 <= ix.1 < height
  {
    (Round(p.u), Round(p.v))
  }

  /** The color of the pixel nearest to p. */
  function PixelAt(im: Image, p: UV): (c: Rgb)
    requires InsideMargin(p, im.width, im.height)
    ensures IsPixel(c)
  {
    var ix := PixelIndex(p, im.width, im.height);
    im.rows[ix.1][ix.0]
  }
}
