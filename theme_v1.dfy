/**
 * The `v1_interop` conversions of lib/src/config/v2/tui/theme.rs: a v1
 * configuration's colour choices and Alacritty theme turned into the v2
 * `Colors`, `ThemeColors` and `ThemeColorWrap`. The v1 types are declared
 * here with the fields the conversions read.
 */
module ThemeV1Interop {
  import opened Wrappers
  import opened ThemeHex
  import T = Theme

  /** v1's `ColorTermusic`: the same nineteen variants as v2's. */
  datatype V1ColorTermusic =
    | Reset | Foreground | Background
    | Black | Red | Green | Yellow | Blue | Magenta | Cyan | White
    | LightBlack | LightRed | LightGreen | LightYellow | LightBlue | LightMagenta | LightCyan | LightWhite

  /** `From<v1::ColorTermusic> for ColorTermusic`: each variant to its namesake. */
  function FromV1Color(c: V1ColorTermusic): (r: T.ColorTermusic)
    ensures r == T.ColorTermusic.Reset <==> c == Reset
  {
    match c
    case Reset => T.ColorTermusic.Reset
    case Foreground => T.Foreground
    case Background => T.Background
    case Black => T.Black
    case Red => T.Red
    case Green => T.Green
    case Yellow => T.Yellow
    case Blue => T.Blue
    case Magenta => T.Magenta
    case Cyan => T.Cyan
    case White => T.White
    case LightBlack => T.LightBlack
    case LightRed => T.LightRed
    case LightGreen => T.LightGreen
    case LightYellow => T.LightYellow
    case LightBlue => T.LightBlue
    case LightMagenta => T.LightMagenta
    case LightCyan => T.LightCyan
    case LightWhite => T.LightWhite
  }

  /** The v1 variant of the same name, the inverse of `FromV1Color`. */
  function ToV1Color(c: T.ColorTermusic): V1ColorTermusic {
    match c
    case Reset => Reset
    case Foreground => Foreground
    case Background => Background
    case Black => Black
    case Red => Red
    case Green => Green
    case Yellow => Yellow
    case Blue => Blue
    case Magenta => Magenta
    case Cyan => Cyan
    case White => White
    case LightBlack => LightBlack
    case LightRed => LightRed
    case LightGreen => LightGreen
    case LightYellow => LightYellow
    case LightBlue => LightBlue
    case LightMagenta => LightMagenta
    case LightCyan => LightCyan
    case LightWhite => LightWhite
  }

  /** The conversion is a bijection: no two v1 variants meet, and every v2 variant is reached. */
  lemma FromV1ColorBijective(c: V1ColorTermusic, d: T.ColorTermusic)
    ensures ToV1Color(FromV1Color(c)) == c
    ensures FromV1Color(ToV1Color(d)) == d
  {
  }

  /** v1's `AlacrittyColor`: three bytes. */
  datatype AlacrittyColor = AlacrittyColor(r: u8, g: u8, b: u8)

  /** `From<AlacrittyColor> for ThemeColor`: channel for channel. */
  function FromAlacritty(a: AlacrittyColor): ThemeColor {
    ThemeColor(a.r, a.g, a.b)
  }

  /** v1's `Alacritty` theme. */
  datatype V1Alacritty = V1Alacritty(
    name: string, author: string,
    background: AlacrittyColor, foreground: AlacrittyColor,
    text: AlacrittyColor, cursor: AlacrittyColor,
    black: AlacrittyColor, red: AlacrittyColor, green: AlacrittyColor, yellow: AlacrittyColor,
    blue: AlacrittyColor, magenta: AlacrittyColor, cyan: AlacrittyColor, white: AlacrittyColor,
    light_black: AlacrittyColor, light_red: AlacrittyColor, light_green: AlacrittyColor,
    light_yellow: AlacrittyColor, light_blue: AlacrittyColor, light_magenta: AlacrittyColor,
    light_cyan: AlacrittyColor, light_white: AlacrittyColor)

  /** The twenty colours of a v1 theme, in the order of `ThemePalette`. */
  function AlacrittyPalette(a: V1Alacritty): (p: seq<AlacrittyColor>)
    ensures |p| == 20
  {
    [a.background, a.foreground, a.text, a.cursor,
     a.black, a.red, a.green, a.yellow, a.blue, a.magenta, a.cyan, a.white,
     a.light_black, a.light_red, a.light_green, a.light_yellow,
     a.light_blue, a.light_magenta, a.light_cyan, a.light_white]
  }

  /** `From<v1::Alacritty> for ThemeColors`. */
  function ThemeColorsFromV1(a: V1Alacritty): T.ThemeColors {
    T.ThemeColors(
      a.name, a.author,
      T.ThemePrimary(FromAlacritty(a.background), FromAlacritty(a.foreground)),
      T.ThemeCursor(FromAlacritty(a.text), FromAlacritty(a.cursor)),
      T.ThemeNormal(FromAlacritty(a.black), FromAlacritty(a.red), FromAlacritty(a.green),
                    FromAlacritty(a.yellow), FromAlacritty(a.blue), FromAlacritty(a.magenta),
                    FromAlacritty(a.cyan), FromAlacritty(a.white)),
      T.ThemeBright(FromAlacritty(a.light_black), FromAlacritty(a.light_red), FromAlacritty(a.light_green),
                    FromAlacritty(a.light_yellow), FromAlacritty(a.light_blue),
                    FromAlacritty(a.light_magenta), FromAlacritty(a.light_cyan),
                    FromAlacritty(a.light_white)))
  }

  /**
   * Field for field: name and author are kept, and every palette slot holds
   * the v1 colour of the same slot (the `light_*` colours fill the bright
   * palette).
   */
  lemma ThemeColorsFromV1Slots(a: V1Alacritty)
    ensures var t := ThemeColorsFromV1(a);
      && t.name == a.name && t.author == a.author
      && forall i | 0 <= i < 20 :: T.ThemePalette(t)[i] == FromAlacritty(AlacrittyPalette(a)[i])
  {
  }

  /** v1's `StyleColorSymbol`: a colour choice per UI role, plus the theme. */
  datatype V1StyleColorSymbol = V1StyleColorSymbol(
    library_foreground: V1ColorTermusic, library_background: V1ColorTermusic,
    library_border: V1ColorTermusic, library_highlight: V1ColorTermusic,
    playlist_foreground: V1ColorTermusic, playlist_background: V1ColorTermusic,
    playlist_border: V1ColorTermusic, playlist_highlight: V1ColorTermusic,
    lyric_foreground: V1ColorTermusic, lyric_background: V1ColorTermusic, lyric_border: V1ColorTermusic,
    progress_foreground: V1ColorTermusic, progress_background: V1ColorTermusic,
    progress_border: V1ColorTermusic,
    important_popup_foreground: V1ColorTermusic, important_popup_background: V1ColorTermusic,
    important_popup_border: V1ColorTermusic,
    fallback_foreground: V1ColorTermusic, fallback_background: V1ColorTermusic,
    fallback_border: V1ColorTermusic, fallback_highlight: V1ColorTermusic,
    alacritty_theme: V1Alacritty)
  {
    /** The field of this symbol table that holds `role`. */
    function Get(role: T.ColorRole): V1ColorTermusic {
      match role
      case LibraryForeground => library_foreground
      case LibraryBackground => library_background
      case LibraryBorder => library_border
      case LibraryHighlight => library_highlight
      case PlaylistForeground => playlist_foreground
      case PlaylistBackground => playlist_background
      case PlaylistBorder => playlist_border
      case PlaylistHighlight => playlist_highlight
      case LyricForeground => lyric_foreground
      case LyricBackground => lyric_background
      case LyricBorder => lyric_border
      case ProgressForeground => progress_foreground
      case ProgressBackground => progress_background
      case ProgressBorder => progress_border
      case ImportantPopupForeground => important_popup_foreground
      case ImportantPopupBackground => important_popup_background
      case ImportantPopupBorder => important_popup_border
      case FallbackForeground => fallback_foreground
      case FallbackBackground => fallback_background
      case FallbackBorder => fallback_border
      case FallbackHighlight => fallback_highlight
    }
  }

  /** `From<v1::StyleColorSymbol> for Colors`. */
  function ColorsFromV1(v: V1StyleColorSymbol): T.Colors {
    T.Colors(
      FromV1Color(v.library_foreground), FromV1Color(v.library_background),
      FromV1Color(v.library_border), FromV1Color(v.library_highlight),
      FromV1Color(v.playlist_foreground), FromV1Color(v.playlist_background),
      FromV1Color(v.playlist_border), FromV1Color(v.playlist_highlight),
      FromV1Color(v.lyric_foreground), FromV1Color(v.lyric_background), FromV1Color(v.lyric_border),
      FromV1Color(v.progress_foreground), FromV1Color(v.progress_background),
      FromV1Color(v.progress_border),
      FromV1Color(v.important_popup_foreground), FromV1Color(v.important_popup_background),
      FromV1Color(v.important_popup_border),
      FromV1Color(v.fallback_foreground), FromV1Color(v.fallback_background),
      FromV1Color(v.fallback_border), FromV1Color(v.fallback_highlight))
  }

  /** Field for field: every role keeps its v1 colour choice. */
  lemma ColorsFromV1Roles(v: V1StyleColorSymbol, role: T.ColorRole)
    ensures ColorsFromV1(v).Get(role) == FromV1Color(v.Get(role))
  {
  }

  /** `From<v1::StyleColorSymbol> for ThemeColorWrap`. */
  function WrapFromV1(v: V1StyleColorSymbol): T.ThemeColorWrap {
    T.ThemeColorWrap(ColorsFromV1(v), ThemeColorsFromV1(v.alacritty_theme))
  }

  /**
   * The colour a v1 choice names in a v1 theme: `None` for the terminal
   * default, otherwise the theme field of the same name (`Light*` naming the
   * `light_*` fields).
   */
  function V1Slot(a: V1Alacritty, c: V1ColorTermusic): Option<AlacrittyColor> {
    match c
    case Reset => None
    case Foreground => Some(a.foreground)
    case Background => Some(a.background)
    case Black => Some(a.black)
    case Red => Some(a.red)
    case Green => Some(a.green)
    case Yellow => Some(a.yellow)
    case Blue => Some(a.blue)
    case Magenta => Some(a.magenta)
    case Cyan => Some(a.cyan)
    case White => Some(a.white)
    case LightBlack => Some(a.light_black)
    case LightRed => Some(a.light_red)
    case LightGreen => Some(a.light_green)
    case LightYellow => Some(a.light_yellow)
    case LightBlue => Some(a.light_blue)
    case LightMagenta => Some(a.light_magenta)
    case LightCyan => Some(a.light_cyan)
    case LightWhite => Some(a.light_white)
  }

  /**
   * After conversion every accessor draws what the v1 configuration named:
   * the terminal default for `Reset`, otherwise the rgb value of the v1
   * theme field its v1 choice names.
   */
  lemma WrapFromV1Resolve(v: V1StyleColorSymbol, role: T.ColorRole)
    ensures WrapFromV1(v).Resolve(role) ==
      match V1Slot(v.alacritty_theme, v.Get(role))
      case None => T.Color.Reset
      case Some(ac) => T.Rgb(ac.r, ac.g, ac.b)
  {
    ColorsFromV1Roles(v, role);
  }
}
