/** `ModernTheme` and the two constant `ModernPalette` tables it selects. */
module Palette {
  import opened Wrappers
  import opened Colors

  datatype Theme = Dark | Light

  datatype ButtonsPalette = ButtonsPalette(text: Rgba, principal: Rgba, secondary: Rgba, tag: Rgba) {
    /** `label()` and `text()` both read the `text` entry. */
    function Label(): (c: Color) { text.ToColor() }
    function Primary(): (c: Color) { principal.ToColor() }
    function Secondary(): (c: Color) { secondary.ToColor() }
    function Tag(): (c: Color) { tag.ToColor() }
  }

  datatype InputPalette = InputPalette(
    background: Rgba,
    borderColor: Rgba,
    iconColor: Rgba,
    placeholderText: Rgba,
    text: Rgba,
    disabledColor: Rgba,
    disabled: Rgba)
  {
    function Background(): (c: Color) { background.ToColor() }
    function PlaceholderText(): (c: Color) { placeholderText.ToColor() }
  }

  datatype ContainerPalette = ContainerPalette(
    text: Rgba,
    borderRadius: real,
    borderWidth: real,
    borderColor: Option<Rgba>,
    background: Option<Rgba>)

  datatype TogglerPalette = TogglerPalette(background: Rgba, foreground: Rgba) {
    function Background(): (c: Color) { background.ToColor() }
    function Foreground(): (c: Color) { foreground.ToColor() }
  }

  datatype ApplicationPalette = ApplicationPalette(background: Rgba, text: Rgba)

  datatype ModernPalette = ModernPalette(
    buttons: ButtonsPalette,
    inputs: InputPalette,
    container: ContainerPalette,
    toggler: TogglerPalette,
    app: ApplicationPalette)

  const DARK := ModernPalette(
    ButtonsPalette(
      Rgba(255.0, 255.0, 255.0, 100.0),
      Rgba(253.0, 213.0, 193.0, 100.0),
      Rgba(82.0, 89.0, 96.0, 100.0),
      Rgba(82.0, 89.0, 96.0, 100.0)),
    InputPalette(
      Rgba(39.0, 38.0, 47.0, 100.0),
      Rgba(60.0, 60.0, 60.0, 30.0),
      Rgba(90.0, 90.0, 90.0, 100.0),
      Rgba(100.0, 100.0, 100.0, 60.0),
      Rgba(233.0, 233.0, 233.0, 100.0),
      Rgba(60.0, 60.0, 60.0, 60.0),
      Rgba(60.0, 60.0, 60.0, 60.0)),
    ContainerPalette(
      Rgba(90.0, 90.0, 90.0, 100.0), 6.0, 0.0, None, Some(Rgba(60.0, 60.0, 60.0, 30.0))),
    TogglerPalette(
      Rgba(33.0, 35.0, 37.0, 100.0),
      Rgba(60.0, 60.0, 60.0, 100.0)),
    ApplicationPalette(
      Rgba(31.0, 30.0, 37.0, 100.0),
      Rgba(250.0, 250.0, 242.0, 100.0)))

  const LIGHT := ModernPalette(
    ButtonsPalette(
      Rgba(255.0, 255.0, 255.0, 100.0),
      Rgba(51.0, 88.0, 219.0, 100.0),
      Rgba(82.0, 89.0, 96.0, 100.0),
      Rgba(51.0, 245.0, 106.0, 100.0)),
    InputPalette(
      Rgba(250.0, 250.0, 242.0, 100.0),
      Rgba(60.0, 60.0, 60.0, 30.0),
      Rgba(90.0, 90.0, 90.0, 100.0),
      Rgba(60.0, 60.0, 60.0, 60.0),
      Rgba(90.0, 90.0, 90.0, 100.0),
      Rgba(60.0, 60.0, 60.0, 60.0),
      Rgba(60.0, 60.0, 60.0, 60.0)),
    ContainerPalette(
      Rgba(90.0, 90.0, 90.0, 100.0), 6.0, 0.0, None, Some(Rgba(60.0, 60.0, 60.0, 30.0))),
    TogglerPalette(
      Rgba(250.0, 250.0, 250.0, 100.0),
      Rgba(60.0, 60.0, 60.0, 30.0)),
    ApplicationPalette(
      Rgba(250.0, 250.0, 242.0, 100.0),
      Rgba(33.0, 35.0, 37.0, 100.0)))

  predicate IsHuman(c: Rgba) {
    IsHumanRgba(c.r, c.g, c.b, c.a)
  }

  /** Every colour entry of the palette is in the human-readable range. */
  predicate WellFormed(p: ModernPalette) {
    && IsHuman(p.buttons.text) && IsHuman(p.buttons.principal)
    && IsHuman(p.buttons.secondary) && IsHuman(p.buttons.tag)
    && IsHuman(p.inputs.background) && IsHuman(p.inputs.borderColor)
    && IsHuman(p.inputs.iconColor) && IsHuman(p.inputs.placeholderText)
    && IsHuman(p.inputs.text) && IsHuman(p.inputs.disabledColor)
    && IsHuman(p.inputs.disabled)
    && IsHuman(p.container.text)
    && (p.container.borderColor.Some? ==> IsHuman(p.container.borderColor.value))
    && (p.container.background.Some? ==> IsHuman(p.container.background.value))
    && IsHuman(p.toggler.background) && IsHuman(p.toggler.foreground)
    && IsHuman(p.app.background) && IsHuman(p.app.text)
  }

  /** `ModernTheme::palette`: total over both themes, and every table it
      returns is well formed, so every colour derived from it is normalised. */
  function Lookup(theme: Theme): (p: ModernPalette)
    ensures WellFormed(p)
    ensures theme == Dark <==> p == DARK
    ensures theme == Light <==> p == LIGHT
  {
    match theme
    case Dark => DARK
    case Light => LIGHT
  }

  /** The two tables differ, and in particular in the principal button
      colour, so the theme is visible in the principal button. */
  lemma ThemesAreDistinguishable()
    ensures Lookup(Dark).buttons.Primary() != Lookup(Light).buttons.Primary()
    ensures Lookup(Dark).buttons.Secondary() == Lookup(Light).buttons.Secondary()
    ensures Lookup(Dark).buttons.Label() == Lookup(Light).buttons.Label()
  {
  }
}
