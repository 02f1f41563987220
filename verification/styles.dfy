/** The `StyleSheet` implementations of `ModernTheme`: per theme, each
    closed style variant resolves to an appearance record. */
module Styles {
  import opened Wrappers
  import opened Colors
  import opened Palette

  /** `Properties::BORDER_WIDTH`. */
  const BorderWidth: real := 0.0
  /** The pill radius every button and the input container use. */
  const PillRadius: real := 100.0
  /** The rounded-panel radius of the history and line containers. */
  const PanelRadius: real := 35.0
  /** Radius and border width shared by every part of the scroll bar. */
  const ScrollRadius: real := 90.0
  const ScrollBorderWidth: real := 2.0

  /** Text colour of the principal button, the constant `color!(255, 110, 1)`. */
  const PrincipalTextColor := Color(1.0, 110.0 / 255.0, 1.0 / 255.0, 1.0)

  datatype Vector = Vector(x: real, y: real)

  const Origin := Vector(0.0, 0.0)

  // ----- Buttons -----

  datatype ModernButton = Principal | Secondary | Text | Tag(rgb: Rgb)

  datatype ButtonAppearance = ButtonAppearance(
    shadowOffset: Vector,
    background: Option<Color>,
    borderRadius: real,
    borderWidth: real,
    borderColor: Color,
    textColor: Color)

  /** `button::Appearance::default()`, the base of every record below. */
  const DefaultButton := ButtonAppearance(Origin, None, 0.0, 0.0, Transparent, Black)

  /** The button appearance at rest. Every variant is a transparent-bordered
      pill with a background; a tag is painted with its own colour, whatever
      the theme, and every variant but the principal one writes in the
      palette's label colour. */
  function ButtonActive(theme: Theme, style: ModernButton): (r: ButtonAppearance)
    ensures r.borderRadius == PillRadius
    ensures r.borderWidth == BorderWidth && r.borderColor == Transparent
    ensures r.shadowOffset == Origin
    ensures r.background.Some?
    ensures style.Tag? ==> r.background == Some(FromRgba(style.rgb.0, style.rgb.1, style.rgb.2, 100.0))
    ensures style.Principal? ==> r.background == Some(Lookup(theme).buttons.Primary())
    ensures style.Secondary? ==> r.background == Some(Lookup(theme).buttons.Secondary())
    ensures style.Text? ==> r.background == Some(Transparent)
    ensures style.Principal? ==> r.textColor == PrincipalTextColor
    ensures !style.Principal? ==> r.textColor == Lookup(theme).buttons.Label()
  {
    var p := Lookup(theme);
    match style
    case Principal =>
      DefaultButton.(background := Some(p.buttons.Primary()), borderRadius := 100.0,
                     borderWidth := BorderWidth, borderColor := Transparent,
                     textColor := PrincipalTextColor)
    case Secondary =>
      DefaultButton.(background := Some(p.buttons.Secondary()), borderRadius := 100.0,
                     borderWidth := BorderWidth, borderColor := Transparent,
                     textColor := p.buttons.Label())
    case Tag(rgb) =>
      DefaultButton.(background := Some(FromRgb(rgb.0, rgb.1, rgb.2)), borderRadius := 100.0,
                     borderWidth := 0.0, borderColor := Transparent,
                     textColor := p.buttons.Label())
    case Text =>
      DefaultButton.(background := Some(Transparent), borderRadius := 100.0,
                     textColor := p.buttons.Label())
  }

  /** The variant whose resting look a hovered or pressed button takes:
      a secondary button is highlighted as a principal one. */
  function Promote(style: ModernButton): (p: ModernButton)
    ensures !p.Secondary?
    ensures !style.Secondary? ==> p == style
  {
    if style.Secondary? then Principal else style
  }

  /** The button appearance while the mouse is over it: a secondary button
      is highlighted with the principal background and text colour, every
      other variant looks as at rest, and the pill shape is kept. */
  function ButtonHovered(theme: Theme, style: ModernButton): (r: ButtonAppearance)
    ensures style.Secondary? ==>
      r.background == Some(Lookup(theme).buttons.Primary()) && r.textColor == PrincipalTextColor
    ensures !style.Secondary? ==> r == ButtonActive(theme, style)
    ensures r.borderRadius == PillRadius && r.borderWidth == BorderWidth && r.borderColor == Transparent
  {
    match style
    case Secondary => ButtonActive(theme, Principal)
    case _ => ButtonActive(theme, style)
  }

  /** The pressed appearance: the hovered look with background and text
      colours darkened by `PressFactor` (alpha kept) and every other field
      as in the hovered look. */
  function ButtonPressed(theme: Theme, style: ModernButton): (r: ButtonAppearance)
    ensures var base := ButtonHovered(theme, style);
      && r.shadowOffset == Origin
      && r.borderRadius == base.borderRadius
      && r.borderWidth == base.borderWidth
      && r.borderColor == base.borderColor
      && r.background.Some? && DarkenedFrom(r.background.value, base.background.value)
      && DarkenedFrom(r.textColor, base.textColor)
  {
    // The source repeats the hover match here; it is the hovered look.
    var active := ButtonHovered(theme, style);
    active.(shadowOffset := Origin,
            background := match active.background
              case Some(c) => Some(Darken(c))
              case None => None,
            textColor := Darken(active.textColor))
  }

  /** Hovering promotes exactly the secondary variant. */
  lemma HoverPromotesSecondaryOnly(theme: Theme, style: ModernButton)
    ensures ButtonHovered(theme, style) == ButtonActive(theme, Promote(style))
  {
    if !style.Secondary? {
      assert Promote(style) == style;
    }
  }

  /** Hovering visibly changes a secondary button: its background becomes
      the principal colour, which differs from the secondary one under
      both themes. */
  lemma HoverHighlightsSecondary(theme: Theme)
    ensures ButtonHovered(theme, Secondary).background != ButtonActive(theme, Secondary).background
  {
  }

  /** Pressing a secondary button looks exactly like pressing a principal
      one. */
  lemma PressedSecondaryIsPressedPrincipal(theme: Theme)
    ensures ButtonPressed(theme, Secondary) == ButtonPressed(theme, Principal)
  {
    HoverPromotesSecondaryOnly(theme, Secondary);
    PressedFollowsHovered(theme, Secondary, Principal);
  }

  /** The pressed look depends on the variant only through the hovered look. */
  lemma PressedFollowsHovered(theme: Theme, a: ModernButton, b: ModernButton)
    requires ButtonHovered(theme, a) == ButtonHovered(theme, b)
    ensures ButtonPressed(theme, a) == ButtonPressed(theme, b)
  {
    var h := ButtonHovered(theme, a);
    var p := ButtonPressed(theme, a);
    var q := ButtonPressed(theme, b);
    DarkenedFromIsDarken(p.background.value, h.background.value);
    DarkenedFromIsDarken(q.background.value, h.background.value);
    DarkenedFromIsDarken(p.textColor, h.textColor);
    DarkenedFromIsDarken(q.textColor, h.textColor);
  }

  /** A tag button's background is the caller's colour through the opaque
      conversion, the same under both themes; only its text colour follows
      the theme. */
  lemma TagIgnoresTheme(rgb: Rgb)
    ensures ButtonActive(Dark, Tag(rgb)).background == ButtonActive(Light, Tag(rgb)).background
    ensures ButtonActive(Dark, Tag(rgb)).background == Some(FromRgb(rgb.0, rgb.1, rgb.2))
    ensures ButtonActive(Dark, Tag(rgb)).textColor == DARK.buttons.Label()
    ensures ButtonActive(Light, Tag(rgb)).textColor == LIGHT.buttons.Label()
  {
  }

  predicate ButtonInUnitRange(b: ButtonAppearance) {
    && (b.background.Some? ==> InUnitRange(b.background.value))
    && InUnitRange(b.borderColor)
    && InUnitRange(b.textColor)
  }

  /** Every colour a button is drawn with, in every state, is normalised,
      provided a tag's colour is given in the human-readable range. */
  lemma ButtonColorsNormalised(theme: Theme, style: ModernButton)
    requires style.Tag? ==> IsHumanRgb(style.rgb)
    ensures ButtonInUnitRange(ButtonActive(theme, style))
    ensures ButtonInUnitRange(ButtonHovered(theme, style))
    ensures ButtonInUnitRange(ButtonPressed(theme, style))
  {
    ActiveNormalised(theme, style);
    HoveredNormalised(theme, style);
    PressedNormalised(theme, style);
  }

  lemma HoveredNormalised(theme: Theme, style: ModernButton)
    requires style.Tag? ==> IsHumanRgb(style.rgb)
    ensures ButtonInUnitRange(ButtonHovered(theme, style))
  {
    ActiveNormalised(theme, Promote(style));
    HoverPromotesSecondaryOnly(theme, style);
  }

  /** A pressed button is normalised and no brighter than its hovered look. */
  lemma PressedNormalised(theme: Theme, style: ModernButton)
    requires style.Tag? ==> IsHumanRgb(style.rgb)
    ensures ButtonInUnitRange(ButtonPressed(theme, style))
    ensures var h := ButtonHovered(theme, style);
      var d := ButtonPressed(theme, style);
      && d.textColor.r <= h.textColor.r && d.textColor.g <= h.textColor.g && d.textColor.b <= h.textColor.b
      && d.background.value.r <= h.background.value.r
      && d.background.value.g <= h.background.value.g
      && d.background.value.b <= h.background.value.b
  {
    HoveredNormalised(theme, style);
    DarkenedAppearance(ButtonPressed(theme, style), ButtonHovered(theme, style));
  }

  lemma DarkenedAppearance(d: ButtonAppearance, h: ButtonAppearance)
    requires ButtonInUnitRange(h) && h.background.Some? && d.background.Some?
    requires DarkenedFrom(d.background.value, h.background.value)
    requires DarkenedFrom(d.textColor, h.textColor) && d.borderColor == h.borderColor
    ensures ButtonInUnitRange(d)
    ensures && d.textColor.r <= h.textColor.r && d.textColor.g <= h.textColor.g && d.textColor.b <= h.textColor.b
      && d.background.value.r <= h.background.value.r
      && d.background.value.g <= h.background.value.g
      && d.background.value.b <= h.background.value.b
  {
    DarkenedFromIsDarken(d.background.value, h.background.value);
    DarkenedFromIsDarken(d.textColor, h.textColor);
  }

  lemma ActiveNormalised(theme: Theme, style: ModernButton)
    requires style.Tag? ==> IsHumanRgb(style.rgb)
    ensures ButtonInUnitRange(ButtonActive(theme, style))
  {
    var p := Lookup(theme);
    assert InUnitRange(p.buttons.Label());
    match style
    case Principal => assert InUnitRange(p.buttons.Primary());
    case Secondary => assert InUnitRange(p.buttons.Secondary());
    case Tag(rgb) =>
    case Text =>
  }

  // ----- Text -----

  datatype ModernColor = DefaultColor | Custom(r: real, g: real, b: real)

  datatype TextAppearance = TextAppearance(color: Option<Color>)

  /** A custom text colour is an opaque override; the default variant
      overrides nothing. */
  function TextStyle(theme: Theme, style: ModernColor): (r: TextAppearance)
    ensures r.color.None? <==> style.DefaultColor?
    ensures style.Custom? ==> r.color == Some(FromRgb(style.r, style.g, style.b))
    ensures style.Custom? ==> r.color.value.a == 1.0
  {
    match style
    case DefaultColor => TextAppearance(None)
    case Custom(r, g, b) => TextAppearance(Some(FromRgba(r, g, b, 100.0)))
  }

  // ----- Containers -----

  datatype ModernContainer = DefaultContainer | Historial | Input | Line

  datatype ContainerAppearance = ContainerAppearance(
    textColor: Option<Color>,
    background: Option<Color>,
    borderRadius: real,
    borderWidth: real,
    borderColor: Color)

  /** `container::Appearance::default()`. */
  const DefaultContainerAppearance := ContainerAppearance(None, None, 0.0, 0.0, Transparent)

  /** Only the default container is unpainted. The input pill is fully
      rounded, the history and line panels are rounded by 35, none has a
      visible border, and the text colour is never overridden. */
  function ContainerStyle(theme: Theme, style: ModernContainer): (r: ContainerAppearance)
    ensures r.background.None? <==> style.DefaultContainer?
    ensures style.DefaultContainer? ==> r == DefaultContainerAppearance
    ensures r.textColor.None?
    ensures r.borderWidth == 0.0 && r.borderColor == Transparent
    ensures style.Input? ==> r.borderRadius == PillRadius
    ensures style.Historial? || style.Line? ==> r.borderRadius == PanelRadius
    ensures style.Input? || style.Historial? ==> r.background == Some(Lookup(theme).inputs.Background())
    ensures style.Line? ==> r.background == Some(Lookup(theme).inputs.PlaceholderText())
    ensures r.background.Some? ==> InUnitRange(r.background.value)
  {
    var p := Lookup(theme);
    match style
    case DefaultContainer => DefaultContainerAppearance
    case Input =>
      DefaultContainerAppearance.(background := Some(p.inputs.Background()), borderRadius := 100.0,
                                  borderWidth := 0.0, borderColor := Transparent)
    case Historial =>
      DefaultContainerAppearance.(background := Some(p.inputs.Background()), borderRadius := 35.0,
                                  borderWidth := 0.0, borderColor := Transparent)
    case Line =>
      DefaultContainerAppearance.(background := Some(p.inputs.PlaceholderText()), borderRadius := 35.0,
                                  borderWidth := 0.0, borderColor := Transparent)
  }

  // ----- Toggler -----

  datatype TogglerAppearance = TogglerAppearance(
    background: Color,
    backgroundBorder: Option<Color>,
    foreground: Color,
    foregroundBorder: Option<Color>)

  /** The toggler at rest, whether on or off: palette colours, no borders. */
  function TogglerActive(theme: Theme, isActive: bool): (r: TogglerAppearance)
    ensures r.backgroundBorder.None? && r.foregroundBorder.None?
    ensures InUnitRange(r.background) && InUnitRange(r.foreground)
    ensures r.background == Lookup(theme).toggler.Background()
    ensures r.foreground == Lookup(theme).toggler.Foreground()
  {
    TogglerAppearance(Lookup(theme).toggler.Background(), None, Lookup(theme).toggler.Foreground(), None)
  }

  /** The hovered toggler has no look of its own: it is drawn exactly as at
      rest, in either position. */
  function TogglerHovered(theme: Theme, isActive: bool): (r: TogglerAppearance)
    ensures r == TogglerActive(theme, isActive)
    ensures r == TogglerActive(theme, !isActive)
  {
    TogglerAppearance(Lookup(theme).toggler.Background(), None, Lookup(theme).toggler.Foreground(), None)
  }

  // ----- Scrollable -----

  datatype Scroller = Scroller(color: Color, borderRadius: real, borderWidth: real, borderColor: Color)

  datatype Scrollbar = Scrollbar(
    background: Option<Color>,
    borderRadius: real,
    borderWidth: real,
    borderColor: Color,
    scroller: Scroller)

  /** The scroll bar at rest: the track in the secondary button colour, the
      thumb in the placeholder colour. */
  function ScrollActive(theme: Theme): (r: Scrollbar)
    ensures r.background == Some(Lookup(theme).buttons.Secondary())
    ensures r.scroller.color == Lookup(theme).inputs.PlaceholderText()
    ensures r.borderRadius == ScrollRadius && r.scroller.borderRadius == ScrollRadius
    ensures r.borderWidth == ScrollBorderWidth && r.scroller.borderWidth == ScrollBorderWidth
    ensures r.borderColor == Transparent && r.scroller.borderColor == Transparent
  {
    var p := Lookup(theme);
    Scrollbar(Some(p.buttons.Secondary()), 90.0, 2.0, Transparent,
              Scroller(p.inputs.PlaceholderText(), 90.0, 2.0, Transparent))
  }

  /** The hovered scroll bar: the track takes the resting thumb's colour and
      the thumb takes the principal button colour; shape fields stay as at
      rest. */
  function ScrollHovered(theme: Theme, isMouseOverScrollbar: bool): (r: Scrollbar)
    ensures var rest := ScrollActive(theme);
      && r.background == Some(rest.scroller.color)
      && r.scroller.color == Lookup(theme).buttons.Primary()
      && r.borderRadius == rest.borderRadius == ScrollRadius
      && r.borderWidth == rest.borderWidth == ScrollBorderWidth
      && r.scroller.borderRadius == rest.scroller.borderRadius == ScrollRadius
      && r.scroller.borderWidth == rest.scroller.borderWidth == ScrollBorderWidth
      && r.borderColor == rest.borderColor == Transparent
      && r.scroller.borderColor == rest.scroller.borderColor == Transparent
  {
    var p := Lookup(theme);
    Scrollbar(Some(p.inputs.PlaceholderText()), 90.0, 2.0, Transparent,
              Scroller(p.buttons.Primary(), 90.0, 2.0, Transparent))
  }

  /** The hover look is only half a swap: the hovered thumb is not the
      resting track colour, under either theme. */
  lemma ScrollHoverIsNotAFullSwap(theme: Theme, over: bool)
    ensures Some(ScrollHovered(theme, over).scroller.color) != ScrollActive(theme).background
  {
  }
}
