/** Colours and the `PaletteConversor` conversion from the human-readable
    form (channels 0..255, alpha 0..100) to normalised RGBA. Colours are
    real numbers here; `f32` rounding is not modelled. */
module Colors {

  /** Normalised RGBA, as the toolkit's `Color`. */
  datatype Color = Color(r: real, g: real, b: real, a: real)

  /** A human-readable `RGBAColor`: channels over 255, alpha over 100. */
  datatype Rgba = Rgba(r: real, g: real, b: real, a: real) {
    function ToColor(): (c: Color) {
      FromRgba(r, g, b, a)
    }
  }

  /** A human-readable `RGBColor`, as carried by a tag button. */
  type Rgb = (real, real, real)

  const Transparent := Color(0.0, 0.0, 0.0, 0.0)
  const Black := Color(0.0, 0.0, 0.0, 1.0)

  /** Factor applied to the red, green and blue channels of a pressed button. */
  const PressFactor: real := 0.7

  predicate InUnitRange(c: Color) {
    && 0.0 <= c.r <= 1.0
    && 0.0 <= c.g <= 1.0
    && 0.0 <= c.b <= 1.0
    && 0.0 <= c.a <= 1.0
  }

  predicate IsHumanRgba(r: real, g: real, b: real, a: real) {
    && 0.0 <= r <= 255.0
    && 0.0 <= g <= 255.0
    && 0.0 <= b <= 255.0
    && 0.0 <= a <= 100.0
  }

  predicate IsHumanRgb(c: Rgb) {
    IsHumanRgba(c.0, c.1, c.2, 100.0)
  }

  /** The inverse of `FromRgba`: back to the human-readable form. */
  function ToRgba(c: Color): (h: Rgba)
    ensures InUnitRange(c) <==> IsHumanRgba(h.r, h.g, h.b, h.a)
  {
    Rgba(c.r * 255.0, c.g * 255.0, c.b * 255.0, c.a * 100.0)
  }

  /** `PaletteConversor::from_rgba`. The result lies in the unit range
      exactly when the input lies in the human-readable range, and
      converting back recovers the input. */
  function FromRgba(r: real, g: real, b: real, a: real): (c: Color)
    ensures InUnitRange(c) <==> IsHumanRgba(r, g, b, a)
    ensures ToRgba(c) == Rgba(r, g, b, a)
  {
    Color(r / 255.0, g / 255.0, b / 255.0, a / 100.0)
  }

  /** `PaletteConversor::from_rgb`: the opaque special case of `from_rgba`. */
  function FromRgb(r: real, g: real, b: real): (c: Color)
    ensures c == FromRgba(r, g, b, 100.0)
    ensures c.a == 1.0
  {
    Color(r / 255.0, g / 255.0, b / 255.0, 1.0)
  }

  /** `c.r`, `c.g` and `c.b` are `PressFactor` times those of `base`, and the
      alpha is the same. */
  predicate DarkenedFrom(c: Color, base: Color) {
    && c.r == PressFactor * base.r
    && c.g == PressFactor * base.g
    && c.b == PressFactor * base.b
    && c.a == base.a
  }

  /** The colour of a pressed button: RGB scaled by 0.7, alpha kept. It stays
      in the unit range and no channel gets brighter. */
  function Darken(c: Color): (d: Color)
    ensures DarkenedFrom(d, c)
    ensures InUnitRange(c) ==> InUnitRange(d) && d.r <= c.r && d.g <= c.g && d.b <= c.b
  {
    c.(r := c.r * PressFactor, g := c.g * PressFactor, b := c.b * PressFactor)
  }

  /** `DarkenedFrom` pins the colour: it is `Darken` of the base. */
  lemma DarkenedFromIsDarken(c: Color, base: Color)
    requires DarkenedFrom(c, base)
    ensures c == Darken(base)
  {
  }

  /** `ToRgba` undoes `FromRgba` and vice versa. */
  lemma RgbaRoundTrip(c: Color)
    ensures ToRgba(c).ToColor() == c
  {
  }

  /** The worked examples of the conversion's documentation, in exact
      arithmetic. */
  lemma ConversionExamples()
    ensures FromRgba(255.0, 255.0, 255.0, 100.0) == Color(1.0, 1.0, 1.0, 1.0)
    ensures FromRgba(127.0, 0.0, 255.0, 50.0) == Color(127.0 / 255.0, 0.0, 1.0, 0.5)
    ensures FromRgb(127.0, 0.0, 255.0) == Color(127.0 / 255.0, 0.0, 1.0, 1.0)
  {
  }
}
