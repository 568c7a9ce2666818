/** The fallback background of the header image
    (`_create_gradient_background`): a vertical gradient drawn one scanline
    at a time. */
module Gradient {
  import opened Config

  datatype Rgb = Rgb(r: int, g: int, b: int)

  const GradientStart: Rgb := Rgb(102, 126, 234)
  const GradientEnd: Rgb := Rgb(118, 75, 162)

  /** One channel at row `y`, `int(start + (end - start) * (y / 670))`,
      computed exactly on integers: the floating-point ratio is replaced by
      the rational `y / 670`, and `int` (truncation) by Dafny's floor `/`,
      which agree because every exact value here is positive. */
  function Channel(start: int, end: int, y: int): int {
    start + ((end - start) * y) / ImageHeight
  }

  /** The colour of scanline `y`. */
  function RowColour(y: int): Rgb {
    Rgb(Channel(GradientStart.r, GradientEnd.r, y),
        Channel(GradientStart.g, GradientEnd.g, y),
        Channel(GradientStart.b, GradientEnd.b, y))
  }

  /** The first row is the start colour; the last row (669) reaches the end
      colour in green and blue but stops one short of it in red, because the
      ratio never reaches 1. */
  lemma GradientEnds()
    ensures RowColour(0) == GradientStart
    ensures RowColour(ImageHeight - 1) == Rgb(GradientEnd.r - 1, GradientEnd.g, GradientEnd.b)
    ensures RowColour(ImageHeight - 1) != GradientEnd
  {
  }

  /** Going down the image, red never decreases and green and blue never
      increase, and every channel stays between its two end values. */
  lemma GradientMonotone(y1: int, y2: int)
    requires 0 <= y1 <= y2 < ImageHeight
    ensures RowColour(y1).r <= RowColour(y2).r
    ensures RowColour(y1).g >= RowColour(y2).g
    ensures RowColour(y1).b >= RowColour(y2).b
    ensures GradientStart.r <= RowColour(y2).r <= GradientEnd.r
    ensures GradientEnd.g <= RowColour(y2).g <= GradientStart.g
    ensures GradientEnd.b <= RowColour(y2).b <= GradientStart.b
  {
  }

  /** `_create_gradient_background()`: a new image whose row `y` is drawn
      across the full width in `RowColour(y)`. Each scanline is uniform, so
      the image is represented by its column of row colours. */
  method CreateGradientBackground() returns (rows: array<Rgb>)
    ensures fresh(rows) && rows.Length == ImageHeight
    ensures forall y :: 0 <= y < rows.Length ==> rows[y] == RowColour(y)
  {
    rows := new Rgb[ImageHeight](_ => Rgb(0, 0, 0));
    for y := 0 to ImageHeight
      invariant forall j :: 0 <= j < y ==> rows[j] == RowColour(j)
    {
      var r := GradientStart.r + ((GradientEnd.r - GradientStart.r) * y) / ImageHeight;
      var g := GradientStart.g + ((GradientEnd.g - GradientStart.g) * y) / ImageHeight;
      var b := GradientStart.b + ((GradientEnd.b - GradientStart.b) * y) / ImageHeight;
      rows[y] := Rgb(r, g, b);
    }
  }
}
