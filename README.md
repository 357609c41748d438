# termusic core: a verified Dafny model

This project models three pieces of the termusic terminal music player and
proves properties of them. Each piece is modelled in its own form.

- **The GStreamer playback backend** (`src/player/gstreamer_backend.rs`). The
  `GStreamer` player keeps `paused`, `volume` and `gapless` flags. It steps
  and clamps the volume, pauses and resumes, turns the native player's
  position and duration into a progress percentage, and seeks relative to
  the current position. It is modelled as the class
  `GStreamerBackend.GStreamer`. The native `gst_player::Player` is modelled
  as abstract state: the URI it was given, its position and duration in
  nanoseconds (`None` while unknown), and the log of commands the backend
  sent it. The outbound `Sender<PlayerMsg>` is modelled as the log of
  messages sent on it.
- **Theme colours** (`lib/src/config/v2/tui/theme.rs`), as datatypes and
  functions:
  - `ThemeColor::from_hex` and `to_hex`, in module `ThemeHex`;
  - the `ColorTermusic` enum with its names and discriminants;
  - palette lookup through `get_color_from_theme` and the 21 role accessors;
  - the defaults;
  - the conversion from a YAML theme, in module `Theme`;
  - the conversions from a version-1 configuration, in module
    `ThemeV1Interop`.
- **Key-conflict bookkeeping** (`lib/src/config/v2/tui/keys/conflict.rs`).
  - `KeyPath` is a class over a `seq<string>`. Its `Push` and `Pop` change
    the stack in place.
  - `join_with_field` is a function that reads the path.
  - The message of `KeyConflictError` is a pure rendering, together with a
    parser that reads the message back.

A Rust `&str` that `from_hex` slices by byte is modelled by its UTF-8 bytes
(`ThemeHex.Str`). So `len()` is a byte count, and a slice that does not end
on a character boundary is a panic. Machine integers are unbounded in the
model. Where the source could overflow, the bound is stated explicitly:
`volume` is an `i32`, clock readings are `u64` nanoseconds, and `seek`'s
argument is an `i64`.

`get_progress` does not report 0 percent for a zero duration: `checked_div`
turns the zero divisor into the "divide error", which `seek` then ignores
(`GStreamerBackend.GStreamer.GetProgress`, `GStreamerBackend.GStreamer.Seek`).

## Model

| member | source | states |
|---|---|---|
| GStreamerBackend.GStreamer.constructor | src/player/gstreamer_backend.rs:47-81 | The configured volume, not paused, gapless, nothing loaded; the native player has been told the configured volume. |
| GStreamerBackend.GStreamer.SkipOne | src/player/gstreamer_backend.rs:82-84 | Exactly one `Eos` is appended to the outbound messages; every other part of the state is unchanged. |
| GStreamerBackend.GStreamer.EnqueueNext | src/player/gstreamer_backend.rs:85-88 | The native URI becomes exactly `file:///` followed by the track; nothing else changes. |
| GStreamerBackend.GStreamer.Play | src/player/gstreamer_backend.rs:89-92 | The native player is stopped and then started; the backend's flags are unchanged. |
| GStreamerBackend.GStreamer.AddAndPlay | src/player/gstreamer_backend.rs:96-101 | The URI is `file:///` plus the path and `paused` is false; the native player gets load, stop, start in that order; the volume is unchanged. |
| GStreamerBackend.GStreamer.VolumeUp | src/player/gstreamer_backend.rs:103-106 | The volume becomes `min(volume + 5, 100)` and is passed on to the native player; the native player keeps holding the backend's volume. |
| GStreamerBackend.GStreamer.VolumeDown | src/player/gstreamer_backend.rs:108-111 | The volume becomes `max(volume - 5, 0)` and is passed on to the native player. |
| GStreamerBackend.VolumeStepUp | src/player/gstreamer_backend.rs:104 | The new volume is at most 100; it is `v + 5` exactly when that does not pass 100, and otherwise 100; it is non-negative from a non-negative volume. |
| GStreamerBackend.VolumeStepDown | src/player/gstreamer_backend.rs:109 | The new volume is never negative; it is `v - 5` exactly when that is not below 0, and otherwise 0; it stays at most 100 from at most 100. |
| GStreamerBackend.VolumeUpTimesIs | src/player/gstreamer_backend.rs:103-106 | Any n >= 1 presses of volume-up give `min(v + 5n, 100)`: from 98 the volume reaches 100 and never 103. |
| GStreamerBackend.VolumeDownTimesIs | src/player/gstreamer_backend.rs:108-111 | Any n >= 1 presses of volume-down give `max(v - 5n, 0)`. |
| GStreamerBackend.ClampVolume | src/player/gstreamer_backend.rs:117-122 | The result lies in [0, 100]; an in-range argument is kept; above 100 gives 100 and below 0 gives 0. |
| GStreamerBackend.GStreamer.SetVolume | src/player/gstreamer_backend.rs:117-125 | `volume()` afterwards returns the argument clamped into [0, 100], and the same value is passed to the native player. |
| GStreamerBackend.VolumeStaysInRange | src/player/gstreamer_backend.rs:103-125 | From a volume in [0, 100], the volume-up step and the volume-down step stay in [0, 100], and the `set_volume` clamp lands in [0, 100] from any argument. `VolumeUp`, `VolumeDown` and `SetVolume` store exactly these values. |
| GStreamerBackend.GStreamer.Pause | src/player/gstreamer_backend.rs:127-130 | `is_paused()` is true afterwards and the native player is paused; the volume is unchanged. |
| GStreamerBackend.GStreamer.Resume | src/player/gstreamer_backend.rs:132-135 | `is_paused()` is false afterwards and the native player plays. |
| GStreamerBackend.PauseResumeIdempotent | src/player/gstreamer_backend.rs:127-139 | `is_paused()` read after each of pause, pause, resume, resume gives true, true, false, false: a second pause or resume changes no flag. Volume, gapless, URI, clock and messages are unchanged; only the command log grows. |
| GStreamerBackend.GStreamer.Volume | src/player/gstreamer_backend.rs:113-115 | `volume()` returns the stored volume; its results after each operation are stated by `SetVolume`, `VolumeUp` and `VolumeDown`. |
| GStreamerBackend.GStreamer.IsPaused | src/player/gstreamer_backend.rs:137-139 | `is_paused()` returns the flag; its results are stated by `Pause`, `Resume` and `PauseResumeIdempotent`. |
| GStreamerBackend.GStreamer.Stop | src/player/gstreamer_backend.rs:200-202 | Only the native player is stopped; `paused` is left as it was. |
| GStreamerBackend.ClockSeconds | src/player/gstreamer_backend.rs:160 | A `u64` nanosecond reading gives its whole seconds, which always fit an `i64`, so the `unwrap_or(0)` fallback is never taken. |
| GStreamerBackend.GStreamer.PositionSecs | src/player/gstreamer_backend.rs:159-162 | A known position reads as its whole seconds, `ClockTime::seconds(t)` = `t / 10^9`; an unknown position reads as 0; every reading is between 0 and the largest whole-second `ClockTime`. |
| GStreamerBackend.GStreamer.DurationSecs | src/player/gstreamer_backend.rs:163-166 | A known duration reads as its whole seconds, `t / 10^9`; an unknown duration reads as 0; the same bounds hold. |
| GStreamerBackend.PercentBounds | src/player/gstreamer_backend.rs:167-169 | `(pos * 100) / dur` is the floor of the exact ratio, and it is at least 100 exactly when the position has reached the duration. |
| GStreamerBackend.GStreamer.GetProgress | src/player/gstreamer_backend.rs:158-174 | Fails with "divide error" exactly when the duration reads as 0. Otherwise it returns position and duration in seconds and a percent in [0, 100]. The percent is 100 exactly when the position has reached the duration, and below that it is the floor of `pos * 100 / dur`. |
| GStreamerBackend.GStreamer.Seek | src/player/gstreamer_backend.rs:142-155 | With a zero duration it issues no seek and reports success. Otherwise the target is `max(pos + secs, 0)`. A target past the duration gives "exceed max length" and issues no seek. A target up to and including the duration is sought, and its nanoseconds fit a `u64`. No flag or volume changes. |
| GStreamerBackend.FileUri | src/player/gstreamer_backend.rs:87 | The URI is `file:///` followed by exactly the path. |
| GStreamerBackend.FileUriInjective | src/player/gstreamer_backend.rs:85-98 | Two paths give the same URI only when they are equal. |
| GStreamerBackend.LastVolumeAppend | src/player/gstreamer_backend.rs:86-92 | Commands other than a volume change leave the native player's last volume where it was. |
| ThemeHex.HexDigitValue | lib/src/config/v2/tui/theme.rs:343-348 | A byte is a base-16 digit exactly when it is 0-9, A-F or a-f, and then its value is below 16. |
| ThemeHex.ParseHexPair | lib/src/config/v2/tui/theme.rs:343-348 | `u8::from_str_radix(pair, 16)` succeeds exactly when the second byte is a hex digit and the first is a hex digit or `+`. It then gives `16*hi + lo`, or the single digit after `+`. Every failure is `InvalidDigit`. |
| ThemeHex.HexPair | lib/src/config/v2/tui/theme.rs:356 | `{:02x}` gives exactly two lowercase hex digits, which parse back to the channel. |
| ThemeHex.LowerHexDigit | lib/src/config/v2/tui/theme.rs:356 | The digit printed for a value below 16 is a lowercase hex digit of that value. |
| ThemeHex.TrimHashes | lib/src/config/v2/tui/theme.rs:336 | `trim_start_matches('#')`; its contract is in `TrimHashesSpec`. |
| ThemeHex.TrimHashesSpec | lib/src/config/v2/tui/theme.rs:336 | `trim_start_matches('#')` drops every leading `#`, not just one: the rest is a suffix of the input, everything cut off is `#`, and the rest does not start with `#`. |
| ThemeHex.FromHex | lib/src/config/v2/tui/theme.rs:335-351 | The corrected `from_hex`; its contract is in `FromHexSpec`, `FromHexToHex`, `ToHexFromHex` and `FromHexCaseInsensitive`. |
| ThemeHex.Channel | lib/src/config/v2/tui/theme.rs:343-348 | One pair parsed and its error wrapped by `ThemeColorParseError::ParseIntError`; its contract is `ParseHexPair`'s. |
| ThemeHex.FromHexAsWritten | lib/src/config/v2/tui/theme.rs:335-351 | `from_hex` as written, a panic being `None`; its contract is in `FromHexAsWrittenAgrees`, `FromHexAsWrittenAscii` and `FromHexAsWrittenPanics`. |
| ThemeHex.FromHexSpec | lib/src/config/v2/tui/theme.rs:335-351 | `from_hex` fails with `IncorrectLength` of the trimmed length exactly when that length is not 6. It succeeds exactly when all three pairs parse, with the colour of those pairs; at trimmed length 6 every failure is exactly `Err(ParseIntError(InvalidDigit))`. |
| ThemeHex.FromHexIgnoresLeadingHash | lib/src/config/v2/tui/theme.rs:336 | One more leading `#` gives the same result. |
| ThemeHex.FromHexIgnoresLeadingHashes | lib/src/config/v2/tui/theme.rs:336 | Any number `k` of extra leading `#` give the same result, by induction on `k`. |
| ThemeHex.FromHexHashed | lib/src/config/v2/tui/theme.rs:335-351 | On `#` and six non-`#` bytes, the colour is read from the pairs at positions 1, 3 and 5, failing at the first pair that does not parse. |
| ThemeHex.ToHex | lib/src/config/v2/tui/theme.rs:355-357 | `to_hex` is `#` followed by exactly six lowercase hex digits. |
| ThemeHex.FromHexToHex | lib/src/config/v2/tui/theme.rs:335-357 | Round trip: parsing what `to_hex` prints gives the same colour, for every r, g and b. |
| ThemeHex.ToHexFromHex | lib/src/config/v2/tui/theme.rs:335-357 | Converse round trip: a `#` and six lowercase hex digits parse, and print back to the same string. |
| ThemeHex.FromHexCaseInsensitive | lib/src/config/v2/tui/theme.rs:343-348 | Lowering the ASCII case of the input never changes the result. |
| ThemeHex.FromHexAsWrittenAgrees | lib/src/config/v2/tui/theme.rs:335-351 | Wherever the code as written does not panic, it returns what `FromHex` returns; where it panics, `FromHex` reports an invalid digit. |
| ThemeHex.FromHexAsWrittenAsciiTotal | lib/src/config/v2/tui/theme.rs:339-348 | On ASCII input the code as written never panics. |
| ThemeHex.FromHexAsWrittenAscii | lib/src/config/v2/tui/theme.rs:335-351 | On ASCII input the code as written returns exactly what the corrected parser returns. |
| ThemeHex.FromHexAsWrittenPanics | lib/src/config/v2/tui/theme.rs:343-344 | The six bytes of "aébcd" make the first slice panic, where an invalid-digit error was intended. |
| Theme.AsUsize | lib/src/config/v2/tui/theme.rs:204-208 | `as_usize` gives the declared discriminant, which is below 19. |
| Theme.FromUsize | lib/src/config/v2/tui/theme.rs:155-176 | The variant declared with discriminant n, for each n below 19. |
| Theme.AsUsizeBijective | lib/src/config/v2/tui/theme.rs:155-208 | `as_usize` is a bijection between the 19 variants and 0..18. |
| Theme.AsRef | lib/src/config/v2/tui/theme.rs:178-202 | Every variant has a non-empty name. |
| Theme.AsRefBright | lib/src/config/v2/tui/theme.rs:192-199 | Each `Light*` variant is named `bright_` followed by the name of its base colour. |
| Theme.AsRefInjective | lib/src/config/v2/tui/theme.rs:178-202 | Distinct variants have distinct names. |
| Theme.ToColor | lib/src/config/v2/tui/theme.rs:392-396 | `From<ThemeColor> for Color` gives the rgb colour of the same channels; used by `GetColorFromThemeSlots`. |
| Theme.ThemeColorWrap.GetColorFromTheme | lib/src/config/v2/tui/theme.rs:23-45 | `get_color_from_theme`; its contract is in `GetColorFromThemeSlots` and `GetColorFromThemeReset`. |
| Theme.GetColorFromThemeSlots | lib/src/config/v2/tui/theme.rs:23-45 | `get_color_from_theme` by discriminant: 0 is the terminal default; 1 and 2 are the primary foreground and background; 3-10 are the normal palette and 11-18 the bright palette, each in black-to-white order. |
| Theme.GetColorFromThemeReset | lib/src/config/v2/tui/theme.rs:23-45 | Only `Reset` yields the terminal default; every other variant yields an rgb colour. |
| Theme.ThemeColorWrap.Resolve | lib/src/config/v2/tui/theme.rs:47-150 | Each accessor gives the terminal default exactly when its `Colors` field is `Reset`; otherwise the palette slot of that field's discriminant: 1 and 2 the primary foreground and background, 3..10 the normal palette, 11..18 the bright palette. |
| Theme.Default000 | lib/src/config/v2/tui/theme.rs:622-625 | `default_000()`; its contract is in `Default000Parses`. |
| Theme.DefaultFff | lib/src/config/v2/tui/theme.rs:627-630 | `default_fff()`; its contract is in `DefaultFffParses`. |
| Theme.DefaultName | lib/src/config/v2/tui/theme.rs:612-615 | `default_name()`, the text "empty name". |
| Theme.DefaultAuthor | lib/src/config/v2/tui/theme.rs:617-620 | `default_author()`, the text "empty author". |
| Theme.DefaultPrimary | lib/src/config/v2/tui/theme.rs:475-482 | Black background, white foreground; colours pinned by `Default000Parses` and `DefaultFffParses`, roles by `DefaultWrapRoles`. |
| Theme.DefaultCursor | lib/src/config/v2/tui/theme.rs:502-509 | White text and cursor; colour pinned by `DefaultFffParses`. |
| Theme.DefaultNormal | lib/src/config/v2/tui/theme.rs:535-548 | The eight default normal colours; each literal is pinned by its `DefaultNormal*Parses` lemma. |
| Theme.DefaultBright | lib/src/config/v2/tui/theme.rs:580-593 | Grey bright black, all other bright slots black; pinned by `DefaultBrightBlackParses` and `Default000Parses`. |
| Theme.DefaultThemeColors | lib/src/config/v2/tui/theme.rs:409-420 | `ThemeColors::default()`; its effect on every accessor is stated by `DefaultWrapRoles`. |
| Theme.DefaultColors | lib/src/config/v2/tui/theme.rs:263-294 | `Colors::default()`; its effect on every accessor is stated by `DefaultWrapRoles`. |
| Theme.DefaultWrap | lib/src/config/v2/tui/theme.rs:15-20 | `ThemeColorWrap::default()`, the default colours over the default theme; its contract is in `DefaultWrapRoles`. |
| Theme.Default000Parses | lib/src/config/v2/tui/theme.rs:622-625 | `#000000` parses, without a panic in `unwrap`, to (0, 0, 0). |
| Theme.DefaultFffParses | lib/src/config/v2/tui/theme.rs:627-630 | The upper-case `#FFFFFF` parses to (255, 255, 255), and `to_hex` prints that colour as `#ffffff`. |
| Theme.DefaultNormalRedParses | lib/src/config/v2/tui/theme.rs:539 | `#ff0000` parses to the default normal red, so that `unwrap` cannot panic. |
| Theme.DefaultNormalGreenParses | lib/src/config/v2/tui/theme.rs:540 | `#00ff00` parses to the default normal green. |
| Theme.DefaultNormalYellowParses | lib/src/config/v2/tui/theme.rs:541 | `#ffff00` parses to the default normal yellow. |
| Theme.DefaultNormalBlueParses | lib/src/config/v2/tui/theme.rs:542 | `#0000ff` parses to the default normal blue. |
| Theme.DefaultNormalMagentaParses | lib/src/config/v2/tui/theme.rs:543 | `#ff00ff` parses to the default normal magenta. |
| Theme.DefaultNormalCyanParses | lib/src/config/v2/tui/theme.rs:544 | `#00ffff` parses to the default normal cyan. |
| Theme.DefaultBrightBlackParses | lib/src/config/v2/tui/theme.rs:583 | `#777777` parses to the default bright black. |
| Theme.DefaultWrapRoles | lib/src/config/v2/tui/theme.rs:263-294 | The colour every accessor returns under the defaults: text white; backgrounds the terminal default; borders blue; highlights and the progress bar from the bright palette; popups red. |
| Theme.ParseColor | lib/src/config/v2/tui/theme.rs:447-451 | One colour's `try_into()?`: `from_hex` with its error wrapped by `From`; its results are stated by `ThemeColorsFromYamlSpec`. |
| Theme.PrimaryFromYaml | lib/src/config/v2/tui/theme.rs:484-493 | `TryFrom<YAMLThemePrimary>`; its contract is in `PrimaryChain`. |
| Theme.CursorFromYaml | lib/src/config/v2/tui/theme.rs:511-520 | `TryFrom<YAMLThemeCursor>`; its contract is in `CursorChain`. |
| Theme.NormalFromYaml | lib/src/config/v2/tui/theme.rs:550-565 | `TryFrom<YAMLThemeNormal>`; its contract is in `NormalChain`. |
| Theme.BrightFromYaml | lib/src/config/v2/tui/theme.rs:595-610 | `TryFrom<YAMLThemeBright>`; its contract is in `BrightChain`. |
| Theme.ThemeColorsFromYaml | lib/src/config/v2/tui/theme.rs:453-466 | `TryFrom<YAMLTheme> for ThemeColors`; its contract is in `ThemeColorsFromYamlCollect` and `ThemeColorsFromYamlSpec`. |
| Theme.FirstErr | lib/src/config/v2/tui/theme.rs:456-465 | The index of the first failing result, or the length when none fails: everything before it succeeded. |
| Theme.CollectSpec | lib/src/config/v2/tui/theme.rs:456-465 | A run of `?` over results succeeds exactly when none fails. It then keeps every value in place; otherwise it returns the first error. |
| Theme.CollectFour | lib/src/config/v2/tui/theme.rs:458-465 | Four runs of `?` in a row behave as one run over the concatenated results. |
| Theme.PrimaryChain | lib/src/config/v2/tui/theme.rs:484-493 | The two `?` of `TryFrom<YAMLThemePrimary>` are one run over its two parse results. |
| Theme.CursorChain | lib/src/config/v2/tui/theme.rs:511-520 | The two `?` of `TryFrom<YAMLThemeCursor>` are one run over its two parse results. |
| Theme.NormalChain | lib/src/config/v2/tui/theme.rs:550-565 | The eight `?` of `TryFrom<YAMLThemeNormal>` are one run over its eight parse results. |
| Theme.BrightChain | lib/src/config/v2/tui/theme.rs:595-610 | The eight `?` of `TryFrom<YAMLThemeBright>` are one run over its eight parse results. |
| Theme.ThemeColorsFromYamlCollect | lib/src/config/v2/tui/theme.rs:453-466 | The YAML theme conversion is one run over all twenty colour strings, with name and author copied. |
| Theme.ThemeColorsFromYamlSpec | lib/src/config/v2/tui/theme.rs:453-466 | The YAML theme converts exactly when all twenty colours parse, and fails with the error of the first colour in declaration order that does not. On success, name and author are kept and each colour lands in its own palette slot. |
| ThemeV1Interop.FromAlacritty | lib/src/config/v2/tui/theme.rs:376-384 | `From<AlacrittyColor> for ThemeColor`, channel for channel; used by `ThemeColorsFromV1Slots` and `WrapFromV1Resolve`. |
| ThemeV1Interop.ColorsFromV1 | lib/src/config/v2/tui/theme.rs:665-696 | `From<v1::StyleColorSymbol> for Colors`; its contract is in `ColorsFromV1Roles`. |
| ThemeV1Interop.ThemeColorsFromV1 | lib/src/config/v2/tui/theme.rs:698-733 | `From<v1::Alacritty> for ThemeColors`; its contract is in `ThemeColorsFromV1Slots`. |
| ThemeV1Interop.WrapFromV1 | lib/src/config/v2/tui/theme.rs:735-742 | `From<v1::StyleColorSymbol> for ThemeColorWrap`; its contract is in `WrapFromV1Resolve`. |
| ThemeV1Interop.FromV1Color | lib/src/config/v2/tui/theme.rs:639-663 | A v1 colour choice maps to `Reset` only when it is `Reset`. |
| ThemeV1Interop.FromV1ColorBijective | lib/src/config/v2/tui/theme.rs:639-663 | The conversion is variant for variant, a bijection with the v1 variant of the same name as its inverse. |
| ThemeV1Interop.ColorsFromV1Roles | lib/src/config/v2/tui/theme.rs:665-696 | Field for field: every UI role keeps its v1 colour choice. |
| ThemeV1Interop.ThemeColorsFromV1Slots | lib/src/config/v2/tui/theme.rs:698-733 | Name and author are kept, and each of the twenty palette slots holds the v1 colour of the same slot, with `light_*` filling the bright palette. |
| ThemeV1Interop.WrapFromV1Resolve | lib/src/config/v2/tui/theme.rs:735-742 | After conversion each accessor returns what the v1 configuration named: the terminal default for `Reset`, otherwise the rgb value of the v1 theme field its choice names. |
| KeyConflict.KeyPath.constructor | lib/src/config/v2/tui/keys/conflict.rs:12-14 | `new()` is the empty path. |
| KeyConflict.KeyPath.NewWithTopLevel | lib/src/config/v2/tui/keys/conflict.rs:16-21 | `new_with_toplevel(v)` is a fresh path holding exactly `[v]`. |
| KeyConflict.KeyPath.Push | lib/src/config/v2/tui/keys/conflict.rs:24-26 | `v` goes on the end and the earlier fields are unchanged. |
| KeyConflict.KeyPath.Pop | lib/src/config/v2/tui/keys/conflict.rs:29-31 | On an empty path it gives `None` and the path stays empty. Otherwise it gives the last field and leaves the fields before it. |
| KeyConflict.PushPopRestores | lib/src/config/v2/tui/keys/conflict.rs:24-31 | `pop` after `push(v)` returns `Some(v)` and restores the previous path (last in, first out). |
| KeyConflict.KeyPath.JoinWithField | lib/src/config/v2/tui/keys/conflict.rs:34-41 | An empty path gives `.` + field. Otherwise the result is the fields followed by `field`, joined by `.`. The path is only read. |
| KeyConflict.Join | lib/src/config/v2/tui/keys/conflict.rs:35 | `[&str]::join(".")`; its contract is in `JoinSnoc` and `SplitJoin`. |
| KeyConflict.JoinSnoc | lib/src/config/v2/tui/keys/conflict.rs:35-38 | Joining one more element adds one separator and the element at the end. |
| KeyConflict.SplitDots | lib/src/config/v2/tui/keys/conflict.rs:35-38 | Splitting at dots yields at least one piece, none containing a dot. |
| KeyConflict.SplitJoin | lib/src/config/v2/tui/keys/conflict.rs:35 | A non-empty list of dot-free names is recovered by splitting its dotted join. |
| KeyConflict.JoinWithFieldSplits | lib/src/config/v2/tui/keys/conflict.rs:34-41 | With dot-free names, splitting the rendered path at the dots returns the fields and then `field` (an empty first piece for an empty path). |
| KeyConflict.Display | lib/src/config/v2/tui/keys/conflict.rs:54-62 | The message starts `Key Conflict: '` and ends with a quote, and its length is the fixed text plus the three parts. |
| KeyConflict.SplitAtQuote | lib/src/config/v2/tui/keys/conflict.rs:58 | Splits a string into its quote-free prefix and the rest, which is empty or starts at a quote. |
| KeyConflict.ParseDisplay | lib/src/config/v2/tui/keys/conflict.rs:54-62 | When no part contains a quote, the message reads back as the same three parts: `Key Conflict: '<first>' and '<second>', key: '<key>'`. |
| KeyConflict.DisplayInjective | lib/src/config/v2/tui/keys/conflict.rs:54-62 | Conflicts with quote-free parts have the same message only when they are equal. |

## Left out

- Speed (`speed`, `set_speed`, `speed_up`, `speed_down`, src/player/gstreamer_backend.rs:176-199) uses `f32` arithmetic, so it is not modelled. The `speed` field is left out of the class.
- The `f64` volume scaling passed to the native player (`volume / 100.0`) is not modelled; the command log records the integer percentage it is computed from.
- GStreamer and glib set-up in `new` is foreign, cross-thread plumbing: initialisation, the signal dispatcher, the `MainContext` channel, the `Fragile` wrapper and the end-of-stream callback. Outside of `skip_one`, the model sends no `Eos`.
- GStreamerBackend.GStreamer.SkipOne: always appends the `Eos`. The source's `send(..).unwrap()` panics once the receiving end of the channel has been dropped; the channel's receiver is not modelled.
- The native player's own behaviour is not modelled. Its position and duration are inputs, and `seek` leaves them as they were; only the command log records the seek.
- GStreamerBackend.GStreamer.VolumeUp: requires `volume + 5` to fit an `i32`. Beyond that, the source's `self.volume + 5` panics in a debug build. In a release build it wraps to a negative `i32`, which `cmp::min(.., 100)` keeps, so the player would hold a negative volume.
- GStreamerBackend.GStreamer.VolumeDown: requires `volume - 5` to fit an `i32`. Beyond that, the source's `self.volume - 5` panics in a debug build. In a release build it wraps to a large positive `i32`, which `cmp::max(.., 0)` keeps, so the player would hold a volume above 100.
- GStreamerBackend.GStreamer.Seek: requires `pos + secs` to fit an `i64` when the duration is known, since the source's addition could overflow there.
- GStreamerBackend.GStreamer.GetProgress: returns the percent as an integer; the source converts it to `f64`, which is exact for values in [0, 100].
- Theme.ThemeColorsFromYamlSpec: states the first-error semantics of the corrected parser. On a colour string with a multi-byte character across byte 2 or 4, the source's `try_into()?` panics inside `from_hex` (see Findings), where the model returns `Err(ThemeColorError(ParseIntError(InvalidDigit)))`. On ASCII input the two agree (`ThemeHex.FromHexAsWrittenAscii`, from `FromHexAsWrittenAsciiTotal` and `FromHexAsWrittenAgrees`).
- Theme.ThemeColorsFromYamlCollect: proved over the corrected parser, with the same gap on non-ASCII colour strings as `Theme.ThemeColorsFromYamlSpec`.
- The `Display` of `ThemeColorParseError` and `ThemeColorsParseError` is not modelled, and nor are the messages of the wrapped `ParseIntError`. The error keeps only its `IntErrorKind`.
- Serde attributes and `#[serde(default)]` filling are deserialisation behaviour and are not modelled. So are the `TryFrom<String>`/`TryFrom<&str>`/`From<ThemeColor> for String` wrappers, which only forward to `from_hex` and `to_hex`.
- The tuirealm `Color` is reduced to the two forms theme.rs produces (`Reset` and `Rgb`).
- The version-1 configuration module is not part of this model; its types are declared with the fields the conversions read. The v1 `Default` impls belong to that module, so the default-conversion test table (lib/src/config/v2/tui/theme.rs:748-815) is not restated. The conversion lemmas cover every v1 input instead.
- KeyConflict.Display: the key is kept as its rendered text, since the `Display` of `KeyBinding` is not part of this model.
- The `CheckConflict` trait has no implementation in conflict.rs. Its `once_chain!` macro and the `HashMap` aliases are not logic, so they are not modelled.
- Rust's `Vec<&'static str>` in `KeyPath` is a `seq<string>`; lifetimes have no counterpart.

## Findings

| source | as written | input that shows it | evidently intended | confidence | as-written member | corrected member |
|---|---|---|---|---|---|---|
| lib/src/config/v2/tui/theme.rs:339-348 | The length check counts bytes, then the code slices `&without_prefix[0..=1]`, `[2..=3]` and `[4..=5]` by byte. A multi-byte character across byte 2 or 4 makes the slice panic. | "aébcd", whose UTF-8 bytes are 61 C3 A9 62 63 64: six bytes, and byte 2 lies inside "é" | `from_hex` never panics; six bytes that are not three hex pairs give `Err(ParseIntError(..))` (proved of the corrected parser by ThemeHex.FromHexSpec and ThemeHex.FromHexAsWrittenAgrees) | not executed | ThemeHex.FromHexAsWrittenPanics | ThemeHex.FromHex |
