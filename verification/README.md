# capy-search launcher core, modelled in Dafny

This project models the pure, sequential core of the "Capy" programmer-search
launcher: its application state machine (`App::new`, `App::update`, and the
two choices `view` makes from state) and its style resolver (the
`ModernTheme` palette tables and the `StyleSheet` implementations that map
closed style variants to appearance records). Colours are `real` numbers;
the model is about which variant resolves to which record, not about `f32`
rounding.

Modules, one per component:

- `Wrappers` (`wrappers.dfy`): `Option`.
- `Strings` (`strings.dfy`): Rust's `str::trim` over Unicode White_Space, with its characterisation.
- `Colors` (`colors.dfy`): `Color`, the `PaletteConversor` conversions, and the 0.7 press darkening.
- `Palette` (`palette.dfy`): `ModernTheme`, the DARK and LIGHT `ModernPalette` tables, `ModernTheme::palette`.
- `Styles` (`styles.dfy`): button (active, hovered, pressed), text, container, toggler and scrollable appearances.
- `App` (`app.dfy`): the state record, the `Message` variants, `App::new`, `App::update`, and a run over a message stream.
- `View` (`view.dfy`): the submit button style and the history panel (empty placeholder or one row per entry).

Two behaviours of the code worth noting:

- The hovered scroll bar is only half a swap of the resting one. The hovered track takes the resting thumb colour. The hovered thumb takes the principal button colour, not the resting track colour (`Styles.ScrollHoverIsNotAFullSwap`).
- The submit button style tests the trimmed query, so a whitespace-only query shows the Secondary style.

`RemoveSearch(id)` indexes the history and panics when `id` is out of range.
`App.Update` therefore requires `App.Accepts`, and `App.Run` over a message
stream yields `None` (the process aborts) at the first message that is not
accepted. `View.RowMessagesAreAccepted` shows that every remove button the
view draws emits an accepted message.

## Model

| member | source | states |
|---|---|---|
| Strings.Trim | src/main.rs:91-93 | the trimmed query has no whitespace at either end, and it is empty exactly when the query is blank |
| Strings.TrimStartFrom | src/main.rs:91-93 | the leading cut: everything before it is whitespace and the character at it is not |
| Strings.TrimEndFrom | src/main.rs:91-93 | the trailing cut: everything after it is whitespace and the character before it is not |
| Strings.TrimShape | src/main.rs:91-93 | the trim is a contiguous slice of the input; everything before and after it is whitespace |
| Strings.TrimOfTrimmed | src/main.rs:244-249 | a string without surrounding whitespace is its own trim (so trim is idempotent and stored entries equal their trim) |
| Strings.TrimIdempotent | src/main.rs:91-93 | trimming twice gives the same string as trimming once |
| Strings.TrimExample | src/main.rs:91-93 | `"  hello  "` trims to `"hello"` |
| Colors.FromRgba | src/styles/modern.rs:72-74 | conversion divides channels by 255 and alpha by 100: the result is normalised exactly when the input is in the human-readable range, and converting back recovers the input |
| Colors.FromRgb | src/styles/modern.rs:112-114 | the RGB form equals the RGBA form with alpha 100, so it is opaque |
| Colors.RgbaRoundTrip | src/styles/modern.rs:72-74 | converting a colour to the human-readable form and back through the conversion returns it unchanged |
| Colors.ConversionExamples | src/styles/modern.rs:54-71 | (255,255,255,100) gives (1,1,1,1); (127,0,255,50) gives (127/255,0,1,0.5); RGB (127,0,255) gives alpha 1 |
| Colors.Darken | src/styles/modern.rs:485-498 | RGB multiplied by 0.7, alpha kept; a normalised colour stays normalised and no channel brightens |
| Palette.Lookup | src/styles/modern.rs:397-404 | Dark gives the DARK table and Light the LIGHT table; every entry of either is in the human-readable range |
| Palette.ThemesAreDistinguishable | src/styles/modern.rs:331-394 | the two tables differ in the principal button colour and agree on secondary and label colours |
| Styles.ButtonActive | src/styles/modern.rs:435-468 | every variant has radius 100, border width 0, transparent border and a background; Principal's background is the theme's primary button colour and Secondary's the theme's secondary one; Tag's is the caller's colour at alpha 100; Text's is transparent; only Principal has its own text colour, the others use the theme's label colour |
| Styles.ButtonHovered | src/styles/modern.rs:470-475 | a hovered Secondary button takes the primary background and the principal text colour; every other variant looks as it does at rest; radius, width and border never change |
| Styles.HoverHighlightsSecondary | src/styles/modern.rs:445-475 | hovering a Secondary button changes its background |
| Styles.HoverPromotesSecondaryOnly | src/styles/modern.rs:470-475 | hovered is the active look of the promoted variant: Secondary becomes Principal, every other variant is unchanged |
| Styles.PressedSecondaryIsPressedPrincipal | src/styles/modern.rs:477-481 | pressing a Secondary button looks exactly like pressing a Principal one |
| Styles.ButtonPressed | src/styles/modern.rs:477-501 | pressed is the hovered look with background and text RGB scaled by 0.7, alpha and all other fields kept, shadow offset zero |
| Styles.PressedFollowsHovered | src/styles/modern.rs:477-501 | two variants with the same hovered look have the same pressed look |
| Styles.TagIgnoresTheme | src/styles/modern.rs:453-459 | a tag's background is the same under both themes and equals the RGB conversion of its colour; its text colour is the theme's label colour |
| Styles.ButtonColorsNormalised | src/styles/modern.rs:435-501 | every button colour in the active, hovered and pressed states is normalised when the tag colour is in range |
| Styles.PressedNormalised | src/styles/modern.rs:477-501 | a pressed button's colours are normalised and no RGB channel is brighter than in the hovered look |
| Styles.TextStyle | src/styles/modern.rs:420-429 | Default overrides no colour; Custom(r,g,b) overrides with the opaque conversion of (r,g,b) |
| Styles.ContainerStyle | src/styles/modern.rs:507-532 | Default is exactly the default appearance (no background, radius 0, no border); only Default has no background; Input has radius 100, Historial and Line radius 35; no border; Input and Historial use the input background, Line the placeholder colour |
| Styles.TogglerActive | src/styles/modern.rs:538-545 | the toggler's background and foreground are the theme's toggler colours, it has no borders, and its colours are normalised |
| Styles.TogglerHovered | src/styles/modern.rs:547-554 | the hovered toggler equals the resting one, whichever position it is in |
| Styles.ScrollActive | src/styles/modern.rs:623-636 | at rest the track is the theme's secondary button colour and the thumb its placeholder colour; both have radius 90, width 2 and a transparent border |
| Styles.ScrollHovered | src/styles/modern.rs:623-655 | the hovered track takes the resting thumb colour, the hovered thumb the principal colour; radius 90, width 2 and transparent borders as at rest |
| Styles.ScrollHoverIsNotAFullSwap | src/styles/modern.rs:623-655 | the hovered thumb colour is not the resting track colour, under either theme |
| App.Init | src/main.rs:69-82 | the start state is Dark, toggler off, empty enabled query, empty history, and it is valid |
| App.Update | src/main.rs:88-114 | an accepted message never changes `enabled` and moves the history length by at most one |
| App.UpdateKeepsValid | src/main.rs:88-114 | every accepted message keeps the state valid: stored entries stay non-empty and trimmed, and the theme is Light exactly when the toggler is on |
| App.EntriesAreOwnTrim | src/main.rs:91-93 | in a valid state every history entry equals its own trim and is not blank |
| App.Run | src/main.rs:88-114 | a completed run over a message stream keeps validity and grows history by at most one per message; an aborted run contains a RemoveSearch |
| App.ReachableIsValid | src/main.rs:69-114 | every state reachable from start-up is valid |
| App.PressingStoresTrimmedQuery | src/main.rs:90-94 | a non-blank query is stored trimmed at the front, older entries keep their order, the query text is not cleared |
| App.PressingBlankIsNoOp | src/main.rs:91 | submitting a blank query leaves the whole state unchanged |
| App.PressingTwiceStoresTwice | src/main.rs:91-93 | no de-duplication: submitting twice stores the trimmed query twice |
| App.SubmitATwice | src/main.rs:90-94 | typing "a" and submitting twice yields ["a","a"] |
| App.SubmitHello | src/main.rs:90-94 | submitting "  hello  " on empty history yields ["hello"] and keeps the typed text |
| App.ThemeFollowsToggler | src/main.rs:96-103 | the toggler becomes the flag, the theme is Light exactly when the flag is on, nothing else changes |
| App.ToggleRoundTrip | src/main.rs:96-103 | toggling and toggling back restores a valid state; on-then-off gives the DARK palette |
| App.TextMessagesSetQuery | src/main.rs:104-107 | QueryChange and SetSearch both set the query verbatim and change nothing else; TagSelected changes nothing |
| App.RemoveDeletesOneEntry | src/main.rs:108-111 | removing entry id keeps earlier entries, shifts later ones up, drops the length by one and loses exactly that entry from the multiset; nothing but the history changes |
| App.RemoveFirstExample | src/main.rs:108-111 | removing index 0 of ["a","b"] yields ["b"] |
| App.RemoveUndoesPress | src/main.rs:90-111 | removing index 0 right after a non-blank submission restores the state |
| View.SubmitStyle | src/main.rs:169-173 | the submit button is Secondary exactly when the query is blank, Principal otherwise |
| View.SubmitStyleMatchesEffect | src/main.rs:169-174 | the submit button is Principal exactly when pressing it changes the state |
| View.Rows | src/main.rs:244-249 | one row per entry, row i showing the trimmed entry i and removing index i, in grey with the Text button style |
| View.Panel | src/main.rs:190-194 | the panel is the empty placeholder, with its fixed text and colour, exactly when the history is empty; otherwise it lists one row per entry |
| View.PanelShowsHistory | src/main.rs:190-194 | the empty placeholder shows exactly when history is empty; otherwise one row per entry in order, each showing its entry unchanged in a valid state |
| View.RowMessagesAreAccepted | src/main.rs:227-249 | every remove button emits an index `update` accepts, and pressing row i removes exactly entry i |

## Left out

- `src/components/tags.rs`: `itag` reads an image file and `tag`/`itag` only wrap a button with `ModernButton::Tag(color)`; the Tag style itself is modelled.
- Widget-tree construction and layout (sizes, padding, alignment, fonts, icons, the title block, the tag row), `main` and `App::run`: toolkit calls with no state logic.
- The random placeholder pick in `view`: it uses the thread RNG and is cosmetic.
- The `println!` calls for TagSelected and RemoveSearch: output only.
- `App::title` and `App::theme`: constant and field read.
- The application, text-input and rule appearances: constant records without any variant policy.
- `f32` arithmetic: colours are exact reals, so values such as 0.49803922 appear as 127/255.
- The `color!` macro: `color!(255, 110, 1)` is the constant `Styles.PrincipalTextColor`, read as 8-bit channels over 255 with alpha 1.
- The `ContainerPalette` and `ButtonsPalette.tag` entries are modelled as data only; no style reads them.
- `usize` width of `RemoveSearch`'s index: modelled as an unbounded `nat`, since only its comparison with the history length matters.
