/**
 * The colour palette: eight fixed swatches, 80 pixels wide and 50 pixels
 * tall, side by side along the top of the frame, and the hit test that maps
 * a fingertip to the swatch under it.
 */
module Palette {
  import opened Wrappers
  import opened Hand

  /** A colour as the three channel values handed to OpenCV, in that order. */
  datatype Color = Color(c0: int, c1: int, c2: int)

  const SwatchWidth: nat := 80
  const BandHeight: nat := 50
  const PaletteWidth: nat := 640

  /** Colour of a pixel nothing has painted (the palette image starts zeroed). */
  const Black: Color := Color(0, 0, 0)

  /** The eight swatch colours, left to right. */
  const Colors: seq<Color> := [
    Color(255, 0, 0), Color(0, 255, 0), Color(0, 0, 255), Color(255, 255, 0),
    Color(255, 165, 0), Color(128, 0, 128), Color(255, 20, 147), Color(0, 255, 255)
  ]

  /** The stroke colour a session starts with. */
  const InitialColor: Color := Color(255, 0, 0)

  /**
   * Colour of column `c` of the palette strip once swatches `0..i-1` have been
   * painted. A filled rectangle covers both of its corner columns, so swatch
   * `k` covers columns `80k..80k+80` and the column it shares with swatch
   * `k+1` ends up in the colour painted last.
   */
  function PaintedAfter(i: nat, c: int): Color
    requires i <= |Colors| && 0 <= c < PaletteWidth
  {
    if c < SwatchWidth * i then Colors[c / SwatchWidth]
    else if c == SwatchWidth * i && i > 0 then Colors[i - 1]
    else Black
  }

  /**
   * `create_color_palette`: a 50 x 640 image, zeroed, then one filled
   * rectangle per colour from `(80i, 0)` to `(80i + 80, 50)`, clipped to the
   * image. Every pixel ends up in the colour of the swatch whose half-open
   * column range `[80i, 80i + 80)` holds it.
   */
  method CreateColorPalette() returns (palette: array2<Color>)
    ensures fresh(palette)
    ensures palette.Length0 == BandHeight && palette.Length1 == PaletteWidth
    ensures forall r, c :: 0 <= r < BandHeight && 0 <= c < PaletteWidth ==>
              palette[r, c] == Colors[c / SwatchWidth]
  {
    palette := new Color[BandHeight, PaletteWidth]((r, c) => Black);
    for i := 0 to |Colors|
      invariant forall r, c :: 0 <= r < BandHeight && 0 <= c < PaletteWidth ==>
                  palette[r, c] == PaintedAfter(i, c)
    {
      var left, right := i * SwatchWidth, (i + 1) * SwatchWidth;
      forall r, c | 0 <= r < BandHeight && left <= c <= right && c < PaletteWidth {
        palette[r, c] := Colors[i];
      }
    }
  }

  /**
   * The swatch under a fingertip: present when the tip is above the bottom
   * of the band and `x // 80` names one of the eight swatches.
   */
  function SwatchAt(tip: Point): (r: Option<nat>)
    ensures r.Some? <==> tip.y < BandHeight && 0 <= tip.x < PaletteWidth
    ensures r.Some? ==> r.value < |Colors|
    ensures r.Some? ==> SwatchWidth * r.value <= tip.x < SwatchWidth * (r.value + 1)
  {
    if tip.y < BandHeight then
      var index := tip.x / SwatchWidth;
      if 0 <= index < |Colors| then Some(index) else None
    else
      None
  }

  /** The colour under a fingertip, if any. */
  function ColorAt(tip: Point): (r: Option<Color>)
    ensures r.Some? <==> SwatchAt(tip).Some?
    ensures r.Some? ==> r.value in Colors
    ensures r.Some? ==> r.value == Colors[tip.x / SwatchWidth]
  {
    match SwatchAt(tip)
    case Some(index) => Some(Colors[index])
    case None => None
  }

  /** Hovering examples: swatches 0, 1 and 2, and nothing below the band or beside the strip. */
  lemma SwatchExamples()
    ensures SwatchAt(Point(45, 10)) == Some(0)
    ensures SwatchAt(Point(85, 10)) == Some(1)
    ensures SwatchAt(Point(170, 20)) == Some(2)
    ensures SwatchAt(Point(45, 60)) == None
    ensures SwatchAt(Point(640, 10)) == None
    ensures SwatchAt(Point(-1, 10)) == None
  {
  }
}
