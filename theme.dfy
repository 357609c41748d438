/**
 * Theme palettes and colour roles of lib/src/config/v2/tui/theme.rs:
 * `ColorTermusic` (which palette slot a UI role uses), the palettes
 * themselves (`ThemeColors`), `get_color_from_theme`, the defaults and the
 * conversion from a YAML theme.
 */
module Theme {
  import opened Wrappers
  import opened ThemeHex

  /** tuirealm's `Color`, reduced to the two forms this file produces. */
  datatype Color = Reset | Rgb(r: u8, g: u8, b: u8)

  /** `From<ThemeColor> for Color`. */
  function ToColor(c: ThemeColor): Color {
    Rgb(c.r, c.g, c.b)
  }

  // ---------------------------------------------------------------------------
  // ColorTermusic
  // ---------------------------------------------------------------------------

  datatype ColorTermusic =
    | Reset | Foreground | Background
    | Black | Red | Green | Yellow | Blue | Magenta | Cyan | White
    | LightBlack | LightRed | LightGreen | LightYellow | LightBlue | LightMagenta | LightCyan | LightWhite

  /** `ColorTermusic::as_usize`: the declared discriminant. */
  function AsUsize(c: ColorTermusic): (n: nat)
    ensures n < 19
  {
    match c
    case Reset => 0
    case Foreground => 1
    case Background => 2
    case Black => 3
    case Red => 4
    case Green => 5
    case Yellow => 6
    case Blue => 7
    case Magenta => 8
    case Cyan => 9
    case White => 10
    case LightBlack => 11
    case LightRed => 12
    case LightGreen => 13
    case LightYellow => 14
    case LightBlue => 15
    case LightMagenta => 16
    case LightCyan => 17
    case LightWhite => 18
  }

  /** The variant with discriminant `n`; the inverse of `AsUsize`. */
  function FromUsize(n: nat): (c: ColorTermusic)
    requires n < 19
    ensures AsUsize(c) == n
  {
    [ColorTermusic.Reset, Foreground, Background, Black, Red, Green, Yellow, Blue, Magenta, Cyan, White,
     LightBlack, LightRed, LightGreen, LightYellow, LightBlue, LightMagenta, LightCyan, LightWhite][n]
  }

  /** Discriminants identify variants: `as_usize` is a bijection onto 0..18. */
  lemma AsUsizeBijective(c: ColorTermusic, n: nat)
    requires n < 19
    ensures FromUsize(AsUsize(c)) == c
    ensures AsUsize(FromUsize(n)) == n
  {
  }

  /** `AsRef<str> for ColorTermusic`. */
  function AsRef(c: ColorTermusic): (s: string)
    ensures |s| > 0
  {
    match c
    case Reset => "reset"
    case Foreground => "foreground"
    case Background => "background"
    case Black => "black"
    case Red => "red"
    case Green => "green"
    case Yellow => "yellow"
    case Blue => "blue"
    case Magenta => "magenta"
    case Cyan => "cyan"
    case White => "white"
    case LightBlack => "bright_black"
    case LightRed => "bright_red"
    case LightGreen => "bright_green"
    case LightYellow => "bright_yellow"
    case LightBlue => "bright_blue"
    case LightMagenta => "bright_magenta"
    case LightCyan => "bright_cyan"
    case LightWhite => "bright_white"
  }

  /** Each `Light*` variant is named `bright_` plus the name of the base colour eight discriminants below. */
  lemma AsRefBright(n: nat)
    requires 11 <= n < 19
    ensures AsRef(FromUsize(n)) == "bright_" + AsRef(FromUsize(n - 8))
  {
  }

  /** No two variants share a name. */
  lemma AsRefInjective(c: ColorTermusic, d: ColorTermusic)
    requires c != d
    ensures AsRef(c) != AsRef(d)
  {
  }

  // ---------------------------------------------------------------------------
  // Palettes
  // ---------------------------------------------------------------------------

  datatype ThemePrimary = ThemePrimary(background: ThemeColor, foreground: ThemeColor)
  datatype ThemeCursor = ThemeCursor(text: ThemeColor, cursor: ThemeColor)
  datatype ThemeNormal = ThemeNormal(
    black: ThemeColor, red: ThemeColor, green: ThemeColor, yellow: ThemeColor,
    blue: ThemeColor, magenta: ThemeColor, cyan: ThemeColor, white: ThemeColor)
  datatype ThemeBright = ThemeBright(
    black: ThemeColor, red: ThemeColor, green: ThemeColor, yellow: ThemeColor,
    blue: ThemeColor, magenta: ThemeColor, cyan: ThemeColor, white: ThemeColor)
  datatype ThemeColors = ThemeColors(
    name: string, author: string,
    primary: ThemePrimary, cursor: ThemeCursor, normal: ThemeNormal, bright: ThemeBright)

  /** The normal palette in the order black, red, green, yellow, blue, magenta, cyan, white. */
  function NormalPalette(n: ThemeNormal): (p: seq<ThemeColor>)
    ensures |p| == 8
  {
    [n.black, n.red, n.green, n.yellow, n.blue, n.magenta, n.cyan, n.white]
  }

  /** The bright palette in the same order. */
  function BrightPalette(b: ThemeBright): (p: seq<ThemeColor>)
    ensures |p| == 8
  {
    [b.black, b.red, b.green, b.yellow, b.blue, b.magenta, b.cyan, b.white]
  }

  /** All twenty colours of a theme, in the order the YAML conversion reads them. */
  function ThemePalette(t: ThemeColors): (p: seq<ThemeColor>)
    ensures |p| == 20
  {
    [t.primary.background, t.primary.foreground, t.cursor.text, t.cursor.cursor]
    + NormalPalette(t.normal) + BrightPalette(t.bright)
  }

  // ---------------------------------------------------------------------------
  // Colour roles
  // ---------------------------------------------------------------------------

  /** The UI roles of `Colors`, one per field. */
  datatype ColorRole =
    | LibraryForeground | LibraryBackground | LibraryBorder | LibraryHighlight
    | PlaylistForeground | PlaylistBackground | PlaylistBorder | PlaylistHighlight
    | LyricForeground | LyricBackground | LyricBorder
    | ProgressForeground | ProgressBackground | ProgressBorder
    | ImportantPopupForeground | ImportantPopupBackground | ImportantPopupBorder
    | FallbackForeground | FallbackBackground | FallbackBorder | FallbackHighlight

  datatype Colors = Colors(
    library_foreground: ColorTermusic, library_background: ColorTermusic,
    library_border: ColorTermusic, library_highlight: ColorTermusic,
    playlist_foreground: ColorTermusic, playlist_background: ColorTermusic,
    playlist_border: ColorTermusic, playlist_highlight: ColorTermusic,
    lyric_foreground: ColorTermusic, lyric_background: ColorTermusic, lyric_border: ColorTermusic,
    progress_foreground: ColorTermusic, progress_background: ColorTermusic, progress_border: ColorTermusic,
    important_popup_foreground: ColorTermusic, important_popup_background: ColorTermusic,
    important_popup_border: ColorTermusic,
    fallback_foreground: ColorTermusic, fallback_background: ColorTermusic,
    fallback_border: ColorTermusic, fallback_highlight: ColorTermusic)
  {
    /** The field of this `Colors` that holds `role`. */
    function Get(role: ColorRole): ColorTermusic {
      match role
      case LibraryForeground => library_foreground
      case LibraryBackground => library_background
      case LibraryBorder => library_border
      case LibraryHighlight => library_highlight
      case PlaylistForeground => playlist_foreground
      case PlaylistBackground => playlist_background
      case PlaylistBorder => playlist_border
      case PlaylistHighlight => playlist_highlight
      case LyricForeground => lyric_foreground
      case LyricBackground => lyric_background
      case LyricBorder => lyric_border
      case ProgressForeground => progress_foreground
      case ProgressBackground => progress_background
      case ProgressBorder => progress_border
      case ImportantPopupForeground => important_popup_foreground
      case ImportantPopupBackground => important_popup_background
      case ImportantPopupBorder => important_popup_border
      case FallbackForeground => fallback_foreground
      case FallbackBackground => fallback_background
      case FallbackBorder => fallback_border
      case FallbackHighlight => fallback_highlight
    }
  }

  datatype ThemeColorWrap = ThemeColorWrap(colors: Colors, theme: ThemeColors) {

    /** `get_color_from_theme`: the palette slot a `ColorTermusic` names. */
    function GetColorFromTheme(c: ColorTermusic): Color {
      match c
      case Reset => Color.Reset
      case Foreground => ToColor(theme.primary.foreground)
      case Background => ToColor(theme.primary.background)
      case Black => ToColor(theme.normal.black)
      case Red => ToColor(theme.normal.red)
      case Green => ToColor(theme.normal.green)
      case Yellow => ToColor(theme.normal.yellow)
      case Blue => ToColor(theme.normal.blue)
      case Magenta => ToColor(theme.normal.magenta)
      case Cyan => ToColor(theme.normal.cyan)
      case White => ToColor(theme.normal.white)
      case LightBlack => ToColor(theme.bright.black)
      case LightRed => ToColor(theme.bright.red)
      case LightGreen => ToColor(theme.bright.green)
      case LightYellow => ToColor(theme.bright.yellow)
      case LightBlue => ToColor(theme.bright.blue)
      case LightMagenta => ToColor(theme.bright.magenta)
      case LightCyan => ToColor(theme.bright.cyan)
      case LightWhite => ToColor(theme.bright.white)
    }

    /**
     * The accessors `library_foreground()` ... `fallback_border()`: the
     * colour of a role is its `Colors` field resolved through the theme.
     */
    function Resolve(role: ColorRole): (r: Color)
      ensures r == Color.Reset <==> colors.Get(role) == ColorTermusic.Reset
      ensures var k := AsUsize(colors.Get(role));
        r == if k == 0 then Color.Reset
             else if k == 1 then ToColor(theme.primary.foreground)
             else if k == 2 then ToColor(theme.primary.background)
             else if k <= 10 then ToColor(NormalPalette(theme.normal)[k - 3])
             else ToColor(BrightPalette(theme.bright)[k - 11])
    {
      GetColorFromTheme(colors.Get(role))
    }
  }

  /**
   * `get_color_from_theme` by discriminant: 0 is the terminal default, 1 and 2
   * the primary palette, 3..10 the normal palette and 11..18 the bright
   * palette, each in black..white order.
   */
  lemma GetColorFromThemeSlots(w: ThemeColorWrap, c: ColorTermusic)
    ensures var k := AsUsize(c);
      w.GetColorFromTheme(c) ==
        if k == 0 then Color.Reset
        else if k == 1 then ToColor(w.theme.primary.foreground)
        else if k == 2 then ToColor(w.theme.primary.background)
        else if k <= 10 then ToColor(NormalPalette(w.theme.normal)[k - 3])
        else ToColor(BrightPalette(w.theme.bright)[k - 11])
  {
  }

  /** Only `Reset` yields the terminal default; every other variant yields an rgb colour. */
  lemma GetColorFromThemeReset(w: ThemeColorWrap, c: ColorTermusic)
    ensures w.GetColorFromTheme(c) == Color.Reset <==> c == ColorTermusic.Reset
  {
  }

  // ---------------------------------------------------------------------------
  // Defaults
  // ---------------------------------------------------------------------------

  // The source builds every default colour by `from_hex(<literal>).unwrap()`.
  // The model writes each default as the colour itself, and one lemma per
  // literal proves that parsing the literal yields exactly that colour, so
  // none of the `unwrap`s can panic.

  /** `default_000`, the colour of the literal `#000000`. */
  function Default000(): ThemeColor {
    ThemeColor(0, 0, 0)
  }

  /** `default_000` parses its literal without error. */
  lemma Default000Parses()
    ensures FromHex(Ascii("#000000")) == Ok(Default000())
  {
    FromHexHashed(Ascii("#000000"));
  }

  /** `default_fff`, the colour of the upper-case literal `#FFFFFF`. */
  function DefaultFff(): ThemeColor {
    ThemeColor(255, 255, 255)
  }

  /** `default_fff` parses its upper-case literal, and prints back in lower case. */
  lemma DefaultFffParses()
    ensures FromHex(Ascii("#FFFFFF")) == Ok(DefaultFff())
    ensures ToHex(DefaultFff()) == Ascii("#ffffff")
  {
    FromHexHashed(Ascii("#FFFFFF"));
  }

  function DefaultName(): string { "empty name" }

  function DefaultAuthor(): string { "empty author" }

  /** `Default for ThemePrimary`: black background, white foreground. */
  function DefaultPrimary(): ThemePrimary {
    ThemePrimary(Default000(), DefaultFff())
  }

  /** `Default for ThemeCursor`: white text and cursor. */
  function DefaultCursor(): ThemeCursor {
    ThemeCursor(DefaultFff(), DefaultFff())
  }

  /** `Default for ThemeNormal`: the eight pure terminal colours. */
  function DefaultNormal(): ThemeNormal {
    ThemeNormal(Default000(), ThemeColor(255, 0, 0), ThemeColor(0, 255, 0), ThemeColor(255, 255, 0),
                ThemeColor(0, 0, 255), ThemeColor(255, 0, 255), ThemeColor(0, 255, 255), DefaultFff())
  }

  /** The red slot of `Default for ThemeNormal` is what its literal parses to. */
  lemma DefaultNormalRedParses()
    ensures FromHex(Ascii("#ff0000")) == Ok(DefaultNormal().red)
  {
    FromHexHashed(Ascii("#ff0000"));
  }

  /** The green slot of `Default for ThemeNormal` is what its literal parses to. */
  lemma DefaultNormalGreenParses()
    ensures FromHex(Ascii("#00ff00")) == Ok(DefaultNormal().green)
  {
    FromHexHashed(Ascii("#00ff00"));
  }

  /** The yellow slot of `Default for ThemeNormal` is what its literal parses to. */
  lemma DefaultNormalYellowParses()
    ensures FromHex(Ascii("#ffff00")) == Ok(DefaultNormal().yellow)
  {
    FromHexHashed(Ascii("#ffff00"));
  }

  /** The blue slot of `Default for ThemeNormal` is what its literal parses to. */
  lemma DefaultNormalBlueParses()
    ensures FromHex(Ascii("#0000ff")) == Ok(DefaultNormal().blue)
  {
    FromHexHashed(Ascii("#0000ff"));
  }

  /** The magenta slot of `Default for ThemeNormal` is what its literal parses to. */
  lemma DefaultNormalMagentaParses()
    ensures FromHex(Ascii("#ff00ff")) == Ok(DefaultNormal().magenta)
  {
    FromHexHashed(Ascii("#ff00ff"));
  }

  /** The cyan slot of `Default for ThemeNormal` is what its literal parses to. */
  lemma DefaultNormalCyanParses()
    ensures FromHex(Ascii("#00ffff")) == Ok(DefaultNormal().cyan)
  {
    FromHexHashed(Ascii("#00ffff"));
  }

  /** `Default for ThemeBright`: grey black, every other slot black. */
  function DefaultBright(): ThemeBright {
    ThemeBright(ThemeColor(0x77, 0x77, 0x77), Default000(), Default000(), Default000(),
                Default000(), Default000(), Default000(), Default000())
  }

  /** The black slot of `Default for ThemeBright` is what its literal parses to. */
  lemma DefaultBrightBlackParses()
    ensures FromHex(Ascii("#777777")) == Ok(DefaultBright().black)
  {
    FromHexHashed(Ascii("#777777"));
  }

  /** `Default for ThemeColors`. */
  function DefaultThemeColors(): ThemeColors {
    ThemeColors(DefaultName(), DefaultAuthor(), DefaultPrimary(), DefaultCursor(),
                DefaultNormal(), DefaultBright())
  }

  /** `Default for Colors`. */
  function DefaultColors(): Colors {
    Colors(
      library_foreground := Foreground, library_background := ColorTermusic.Reset,
      library_border := Blue, library_highlight := LightYellow,
      playlist_foreground := Foreground, playlist_background := ColorTermusic.Reset,
      playlist_border := Blue, playlist_highlight := LightYellow,
      lyric_foreground := Foreground, lyric_background := ColorTermusic.Reset, lyric_border := Blue,
      progress_foreground := LightBlack, progress_background := ColorTermusic.Reset, progress_border := Blue,
      important_popup_foreground := Red, important_popup_background := ColorTermusic.Reset,
      important_popup_border := Red,
      fallback_foreground := Foreground, fallback_background := ColorTermusic.Reset,
      fallback_border := Blue, fallback_highlight := LightYellow)
  }

  /** `ThemeColorWrap::default()`. */
  function DefaultWrap(): ThemeColorWrap {
    ThemeColorWrap(DefaultColors(), DefaultThemeColors())
  }

  /**
   * What the accessors return under the default configuration: text white,
   * backgrounds the terminal default, borders blue, highlights and the
   * progress bar from the bright palette (black), popups red.
   */
  lemma DefaultWrapRoles(role: ColorRole)
    ensures var r := DefaultWrap().Resolve(role);
      match role
      case LibraryForeground | PlaylistForeground | LyricForeground | FallbackForeground =>
        r == Rgb(255, 255, 255)
      case LibraryBackground | PlaylistBackground | LyricBackground | ProgressBackground
         | ImportantPopupBackground | FallbackBackground =>
        r == Color.Reset
      case LibraryBorder | PlaylistBorder | LyricBorder | ProgressBorder | FallbackBorder =>
        r == Rgb(0, 0, 255)
      case LibraryHighlight | PlaylistHighlight | FallbackHighlight =>
        r == Rgb(0, 0, 0)
      case ProgressForeground =>
        r == Rgb(0x77, 0x77, 0x77)
      case ImportantPopupForeground | ImportantPopupBorder =>
        r == Rgb(255, 0, 0)
  {
  }

  // ---------------------------------------------------------------------------
  // Conversion from a YAML theme
  // ---------------------------------------------------------------------------

  /** The YAML theme file types: every colour is a string still to be parsed. */
  datatype YamlThemePrimary = YamlThemePrimary(background: Str, foreground: Str)
  datatype YamlThemeCursor = YamlThemeCursor(text: Str, cursor: Str)
  datatype YamlThemeNormal = YamlThemeNormal(
    black: Str, red: Str, green: Str, yellow: Str, blue: Str, magenta: Str, cyan: Str, white: Str)
  datatype YamlThemeBright = YamlThemeBright(
    black: Str, red: Str, green: Str, yellow: Str, blue: Str, magenta: Str, cyan: Str, white: Str)
  datatype YamlThemeColors = YamlThemeColors(
    name: string, author: string, primary: YamlThemePrimary, cursor: YamlThemeCursor,
    normal: YamlThemeNormal, bright: YamlThemeBright)
  datatype YamlTheme = YamlTheme(colors: YamlThemeColors)

  datatype ThemeColorsParseError = ThemeColorError(cause: ThemeColorParseError)

  /** `value.try_into()?` on one colour string: `from_hex`, its error wrapped by `From`. */
  function ParseColor(s: Str): Result<ThemeColor, ThemeColorsParseError> {
    match FromHex(s)
    case Ok(c) => Ok(c)
    case Err(e) => Err(ThemeColorError(e))
  }

  /** The parse results of each section's colour strings, in declaration order. */
  function PrimaryResults(p: YamlThemePrimary): seq<Result<ThemeColor, ThemeColorsParseError>> {
    [ParseColor(p.background), ParseColor(p.foreground)]
  }

  function CursorResults(c: YamlThemeCursor): seq<Result<ThemeColor, ThemeColorsParseError>> {
    [ParseColor(c.text), ParseColor(c.cursor)]
  }

  function NormalResults(n: YamlThemeNormal): seq<Result<ThemeColor, ThemeColorsParseError>> {
    [ParseColor(n.black), ParseColor(n.red), ParseColor(n.green), ParseColor(n.yellow),
     ParseColor(n.blue), ParseColor(n.magenta), ParseColor(n.cyan), ParseColor(n.white)]
  }

  function BrightResults(b: YamlThemeBright): seq<Result<ThemeColor, ThemeColorsParseError>> {
    [ParseColor(b.black), ParseColor(b.red), ParseColor(b.green), ParseColor(b.yellow),
     ParseColor(b.blue), ParseColor(b.magenta), ParseColor(b.cyan), ParseColor(b.white)]
  }

  /** `TryFrom<YAMLThemePrimary>`. */
  function PrimaryFromYaml(y: YamlThemePrimary): Result<ThemePrimary, ThemeColorsParseError> {
    var background :- ParseColor(y.background);
    var foreground :- ParseColor(y.foreground);
    Ok(ThemePrimary(background, foreground))
  }

  /** `TryFrom<YAMLThemeCursor>`. */
  function CursorFromYaml(y: YamlThemeCursor): Result<ThemeCursor, ThemeColorsParseError> {
    var text :- ParseColor(y.text);
    var cursor :- ParseColor(y.cursor);
    Ok(ThemeCursor(text, cursor))
  }

  /** `TryFrom<YAMLThemeNormal>`. */
  function NormalFromYaml(y: YamlThemeNormal): Result<ThemeNormal, ThemeColorsParseError> {
    var black :- ParseColor(y.black);
    var red :- ParseColor(y.red);
    var green :- ParseColor(y.green);
    var yellow :- ParseColor(y.yellow);
    var blue :- ParseColor(y.blue);
    var magenta :- ParseColor(y.magenta);
    var cyan :- ParseColor(y.cyan);
    var white :- ParseColor(y.white);
    Ok(ThemeNormal(black, red, green, yellow, blue, magenta, cyan, white))
  }

  /** `TryFrom<YAMLThemeBright>`. */
  function BrightFromYaml(y: YamlThemeBright): Result<ThemeBright, ThemeColorsParseError> {
    var black :- ParseColor(y.black);
    var red :- ParseColor(y.red);
    var green :- ParseColor(y.green);
    var yellow :- ParseColor(y.yellow);
    var blue :- ParseColor(y.blue);
    var magenta :- ParseColor(y.magenta);
    var cyan :- ParseColor(y.cyan);
    var white :- ParseColor(y.white);
    Ok(ThemeBright(black, red, green, yellow, blue, magenta, cyan, white))
  }

  /** `TryFrom<YAMLTheme> for ThemeColors`. */
  function ThemeColorsFromYaml(y: YamlTheme): Result<ThemeColors, ThemeColorsParseError> {
    var colors := y.colors;
    var primary :- PrimaryFromYaml(colors.primary);
    var cursor :- CursorFromYaml(colors.cursor);
    var normal :- NormalFromYaml(colors.normal);
    var bright :- BrightFromYaml(colors.bright);
    Ok(ThemeColors(colors.name, colors.author, primary, cursor, normal, bright))
  }

  /** The parse results of all twenty colour strings, in the order of `ThemePalette`. */
  function YamlResults(y: YamlTheme): (rs: seq<Result<ThemeColor, ThemeColorsParseError>>)
    ensures |rs| == 20
  {
    var c := y.colors;
    PrimaryResults(c.primary) + CursorResults(c.cursor) + NormalResults(c.normal) + BrightResults(c.bright)
  }

  /** Index of the first error in `rs`, or `|rs|` when there is none. */
  function FirstErr<T, E>(rs: seq<Result<T, E>>): (k: nat)
    ensures k <= |rs|
    ensures forall j | 0 <= j < k :: rs[j].Ok?
    ensures k < |rs| ==> rs[k].Err?
  {
    if rs == [] then 0
    else if rs[0].Err? then 0
    else 1 + FirstErr(rs[1..])
  }

  /**
   * Reference semantics of a run of `?`s over results computed in order:
   * all the values, or the first error.
   */
  function Collect<T, E>(rs: seq<Result<T, E>>): (r: Result<seq<T>, E>)
    ensures r.Ok? ==> |r.value| == |rs|
  {
    if rs == [] then Ok([])
    else match rs[0]
      case Err(e) => Err(e)
      case Ok(c) => (match Collect(rs[1..]) case Err(e) => Err(e) case Ok(cs) => Ok([c] + cs))
  }

  /** `Collect` succeeds exactly when no result is an error, and then keeps every value in place; otherwise it returns the first error. */
  lemma {:induction false} CollectSpec<T, E>(rs: seq<Result<T, E>>)
    ensures Collect(rs).Ok? <==> FirstErr(rs) == |rs|
    ensures Collect(rs).Ok? ==>
      |Collect(rs).value| == |rs| && forall i | 0 <= i < |rs| :: rs[i] == Ok(Collect(rs).value[i])
    ensures Collect(rs).Err? ==> FirstErr(rs) < |rs| && Collect(rs).error == rs[FirstErr(rs)].error
  {
    if rs != [] && rs[0].Ok? {
      CollectSpec(rs[1..]);
      if Collect(rs).Ok? {
        var cs := Collect(rs[1..]).value;
        forall i | 0 <= i < |rs| ensures rs[i] == Ok(Collect(rs).value[i]) {
          if i > 0 { assert rs[i] == rs[1..][i - 1]; }
        }
      }
    }
  }

  lemma {:induction false} CollectAppend<T, E>(a: seq<Result<T, E>>, b: seq<Result<T, E>>)
    ensures Collect(a + b) ==
      match Collect(a)
      case Err(e) => Err(e)
      case Ok(ca) => (match Collect(b) case Err(e) => Err(e) case Ok(cb) => Ok(ca + cb))
  {
    if a == [] {
      assert a + b == b;
      match Collect(b)
      case Err(e) =>
      case Ok(cb) => assert [] + cb == cb;
    } else {
      assert (a + b)[0] == a[0] && (a + b)[1..] == a[1..] + b;
      CollectAppend(a[1..], b);
      match (a[0], Collect(a[1..]), Collect(b))
      case (Ok(c), Ok(ca), Ok(cb)) => assert [c] + (ca + cb) == ([c] + ca) + cb;
      case _ =>
    }
  }


  /** One `?` in front of a run of `?`s. */
  lemma CollectCons<T, E>(r: Result<T, E>, rs: seq<Result<T, E>>)
    ensures Collect([r] + rs) ==
      match r
      case Err(e) => Err(e)
      case Ok(c) => (match Collect(rs) case Err(e) => Err(e) case Ok(cs) => Ok([c] + cs))
  {
    assert ([r] + rs)[1..] == rs;
  }

  /** Two `?`s building a primary palette are `Collect` over the two results. */
  lemma PrimaryChain<E>(r0: Result<ThemeColor, E>, r1: Result<ThemeColor, E>)
    ensures (var background :- r0; var foreground :- r1; Ok(ThemePrimary(background, foreground))) ==
      match Collect([r0, r1]) case Err(e) => Err(e) case Ok(cs) => Ok(ThemePrimary(cs[0], cs[1]))
  {
    CollectCons(r1, []);
    CollectCons(r0, [r1]);
  }

  /** Two `?`s building a cursor palette are `Collect` over the two results. */
  lemma CursorChain<E>(r0: Result<ThemeColor, E>, r1: Result<ThemeColor, E>)
    ensures (var text :- r0; var cursor :- r1; Ok(ThemeCursor(text, cursor))) ==
      match Collect([r0, r1]) case Err(e) => Err(e) case Ok(cs) => Ok(ThemeCursor(cs[0], cs[1]))
  {
    CollectCons(r1, []);
    CollectCons(r0, [r1]);
  }

  /** Collect over eight results, unfolded one `?` at a time. */
  lemma CollectEightSteps<E>(r0: Result<ThemeColor, E>, r1: Result<ThemeColor, E>, r2: Result<ThemeColor, E>,
                             r3: Result<ThemeColor, E>, r4: Result<ThemeColor, E>, r5: Result<ThemeColor, E>,
                             r6: Result<ThemeColor, E>, r7: Result<ThemeColor, E>)
    ensures Collect([r7]) == match r7 case Err(e) => Err(e) case Ok(c) => Ok([c])
    ensures Collect([r6, r7]) == match r6 case Err(e) => Err(e)
      case Ok(c) => (match Collect([r7]) case Err(e) => Err(e) case Ok(cs) => Ok([c] + cs))
    ensures Collect([r5, r6, r7]) == match r5 case Err(e) => Err(e)
      case Ok(c) => (match Collect([r6, r7]) case Err(e) => Err(e) case Ok(cs) => Ok([c] + cs))
    ensures Collect([r4, r5, r6, r7]) == match r4 case Err(e) => Err(e)
      case Ok(c) => (match Collect([r5, r6, r7]) case Err(e) => Err(e) case Ok(cs) => Ok([c] + cs))
    ensures Collect([r3, r4, r5, r6, r7]) == match r3 case Err(e) => Err(e)
      case Ok(c) => (match Collect([r4, r5, r6, r7]) case Err(e) => Err(e) case Ok(cs) => Ok([c] + cs))
    ensures Collect([r2, r3, r4, r5, r6, r7]) == match r2 case Err(e) => Err(e)
      case Ok(c) => (match Collect([r3, r4, r5, r6, r7]) case Err(e) => Err(e) case Ok(cs) => Ok([c] + cs))
    ensures Collect([r1, r2, r3, r4, r5, r6, r7]) == match r1 case Err(e) => Err(e)
      case Ok(c) => (match Collect([r2, r3, r4, r5, r6, r7]) case Err(e) => Err(e) case Ok(cs) => Ok([c] + cs))
    ensures Collect([r0, r1, r2, r3, r4, r5, r6, r7]) == match r0 case Err(e) => Err(e)
      case Ok(c) => (match Collect([r1, r2, r3, r4, r5, r6, r7]) case Err(e) => Err(e) case Ok(cs) => Ok([c] + cs))
  {
    CollectCons(r7, []);
    assert [r7] + [] == [r7];
    if r7.Ok? {
      assert [r7.value] + [] == [r7.value];
    }
    CollectCons(r6, [r7]);
    CollectCons(r5, [r6, r7]);
    CollectCons(r4, [r5, r6, r7]);
    CollectCons(r3, [r4, r5, r6, r7]);
    CollectCons(r2, [r3, r4, r5, r6, r7]);
    CollectCons(r1, [r2, r3, r4, r5, r6, r7]);
    CollectCons(r0, [r1, r2, r3, r4, r5, r6, r7]);
  }

  /** Eight `?`s building a normal palette are `Collect` over the eight results. */
  lemma NormalChain<E>(r0: Result<ThemeColor, E>, r1: Result<ThemeColor, E>, r2: Result<ThemeColor, E>,
                       r3: Result<ThemeColor, E>, r4: Result<ThemeColor, E>, r5: Result<ThemeColor, E>,
                       r6: Result<ThemeColor, E>, r7: Result<ThemeColor, E>)
    ensures (var black :- r0; var red :- r1; var green :- r2; var yellow :- r3;
             var blue :- r4; var magenta :- r5; var cyan :- r6; var white :- r7;
             Ok(ThemeNormal(black, red, green, yellow, blue, magenta, cyan, white))) ==
      match Collect([r0, r1, r2, r3, r4, r5, r6, r7]) case Err(e) => Err(e)
      case Ok(cs) => Ok(ThemeNormal(cs[0], cs[1], cs[2], cs[3], cs[4], cs[5], cs[6], cs[7]))
  {
    CollectEightSteps(r0, r1, r2, r3, r4, r5, r6, r7);
  }

  /** Eight `?`s building a bright palette are `Collect` over the eight results. */
  lemma BrightChain<E>(r0: Result<ThemeColor, E>, r1: Result<ThemeColor, E>, r2: Result<ThemeColor, E>,
                       r3: Result<ThemeColor, E>, r4: Result<ThemeColor, E>, r5: Result<ThemeColor, E>,
                       r6: Result<ThemeColor, E>, r7: Result<ThemeColor, E>)
    ensures (var black :- r0; var red :- r1; var green :- r2; var yellow :- r3;
             var blue :- r4; var magenta :- r5; var cyan :- r6; var white :- r7;
             Ok(ThemeBright(black, red, green, yellow, blue, magenta, cyan, white))) ==
      match Collect([r0, r1, r2, r3, r4, r5, r6, r7]) case Err(e) => Err(e)
      case Ok(cs) => Ok(ThemeBright(cs[0], cs[1], cs[2], cs[3], cs[4], cs[5], cs[6], cs[7]))
  {
    CollectEightSteps(r0, r1, r2, r3, r4, r5, r6, r7);
  }

  /** `Collect` over four runs in a row is four `?`s in a row. */
  lemma CollectFour<T, E>(a: seq<Result<T, E>>, b: seq<Result<T, E>>, c: seq<Result<T, E>>, d: seq<Result<T, E>>)
    ensures Collect(a + b + c + d) ==
      var ca :- Collect(a);
      var cb :- Collect(b);
      var cc :- Collect(c);
      var cd :- Collect(d);
      Ok(ca + cb + cc + cd)
  {
    CollectAppend(a + b + c, d);
    CollectAppend(a + b, c);
    CollectAppend(a, b);
  }

  /**
   * The four `?`s of `TryFrom<YAMLTheme>` over sections that each behave as
   * `Collect` of their own results.
   */
  lemma SectionChain<E>(name: string, author: string,
                        pr: Result<ThemePrimary, E>, cr: Result<ThemeCursor, E>,
                        nr: Result<ThemeNormal, E>, br: Result<ThemeBright, E>,
                        a: seq<Result<ThemeColor, E>>, b: seq<Result<ThemeColor, E>>,
                        c: seq<Result<ThemeColor, E>>, d: seq<Result<ThemeColor, E>>)
    requires |a| == 2 && |b| == 2 && |c| == 8 && |d| == 8
    requires pr == match Collect(a) case Err(e) => Err(e) case Ok(cs) => Ok(ThemePrimary(cs[0], cs[1]))
    requires cr == match Collect(b) case Err(e) => Err(e) case Ok(cs) => Ok(ThemeCursor(cs[0], cs[1]))
    requires nr == match Collect(c) case Err(e) => Err(e)
                   case Ok(cs) => Ok(ThemeNormal(cs[0], cs[1], cs[2], cs[3], cs[4], cs[5], cs[6], cs[7]))
    requires br == match Collect(d) case Err(e) => Err(e)
                   case Ok(cs) => Ok(ThemeBright(cs[0], cs[1], cs[2], cs[3], cs[4], cs[5], cs[6], cs[7]))
    ensures var r, p := (var primary :- pr; var cursor :- cr; var normal :- nr; var bright :- br;
                         Ok(ThemeColors(name, author, primary, cursor, normal, bright))),
                        Collect(a + b + c + d);
      && r.Ok? == p.Ok?
      && (r.Err? ==> r.error == p.error)
      && (r.Ok? ==> r.value.name == name && r.value.author == author && ThemePalette(r.value) == p.value)
  {
    CollectFour(a, b, c, d);
    if pr.Ok? && cr.Ok? && nr.Ok? && br.Ok? {
      var ca, cb, cc, cd := Collect(a).value, Collect(b).value, Collect(c).value, Collect(d).value;
      assert NormalPalette(nr.value) == cc;
      assert BrightPalette(br.value) == cd;
      assert [pr.value.background, pr.value.foreground, cr.value.text, cr.value.cursor] == ca + cb;
    }
  }

  /** The YAML conversion is `Collect` over the twenty parse results, each value landing in its palette slot. */
  lemma ThemeColorsFromYamlCollect(y: YamlTheme)
    ensures var r, p := ThemeColorsFromYaml(y), Collect(YamlResults(y));
      && r.Ok? == p.Ok?
      && (r.Err? ==> r.error == p.error)
      && (r.Ok? ==> r.value.name == y.colors.name && r.value.author == y.colors.author
                    && ThemePalette(r.value) == p.value)
  {
    var c := y.colors;
    PrimaryChain(ParseColor(c.primary.background), ParseColor(c.primary.foreground));
    CursorChain(ParseColor(c.cursor.text), ParseColor(c.cursor.cursor));
    var n, b := c.normal, c.bright;
    NormalChain(ParseColor(n.black), ParseColor(n.red), ParseColor(n.green), ParseColor(n.yellow),
                ParseColor(n.blue), ParseColor(n.magenta), ParseColor(n.cyan), ParseColor(n.white));
    BrightChain(ParseColor(b.black), ParseColor(b.red), ParseColor(b.green), ParseColor(b.yellow),
                ParseColor(b.blue), ParseColor(b.magenta), ParseColor(b.cyan), ParseColor(b.white));
    SectionChain(c.name, c.author, PrimaryFromYaml(c.primary), CursorFromYaml(c.cursor),
                 NormalFromYaml(c.normal), BrightFromYaml(c.bright),
                 PrimaryResults(c.primary), CursorResults(c.cursor), NormalResults(c.normal), BrightResults(c.bright));
  }

  /**
   * The YAML conversion succeeds exactly when all twenty colour strings parse,
   * fails with the error of the first one (in declaration order) that does
   * not, and on success keeps the name and author and puts every parsed
   * colour in its own slot.
   */
  lemma ThemeColorsFromYamlSpec(y: YamlTheme)
    ensures var r, rs := ThemeColorsFromYaml(y), YamlResults(y);
      && (r.Ok? <==> forall i | 0 <= i < 20 :: rs[i].Ok?)
      && (r.Err? ==> r.error == rs[FirstErr(rs)].error)
      && (r.Ok? ==> r.value.name == y.colors.name && r.value.author == y.colors.author
                    && forall i | 0 <= i < 20 :: rs[i] == Ok(ThemePalette(r.value)[i]))
  {
    ThemeColorsFromYamlCollect(y);
    CollectSpec(YamlResults(y));
  }
}
