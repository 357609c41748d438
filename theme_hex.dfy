/**
 * The rgb colour of a theme (`ThemeColor` in lib/src/config/v2/tui/theme.rs):
 * parsing from a `#rrggbb` string (`from_hex`) and printing back (`to_hex`).
 *
 * A Rust `&str` is modelled by its UTF-8 bytes: `len()` is a byte count and
 * `&s[i..=j]` panics unless `i` and `j + 1` fall on character boundaries.
 */
module ThemeHex {
  import opened Wrappers

  /** One byte of a UTF-8 encoded string. */
  type byte = x: int | 0 <= x < 256
  /** A colour channel (Rust `u8`): another name for a byte. */
  type u8 = byte
  /** The UTF-8 bytes of a Rust string. */
  type Str = seq<byte>

  const HASH: byte := 0x23
  const PLUS: byte := 0x2B

  datatype ThemeColor = ThemeColor(r: u8, g: u8, b: u8)

  /** The `kind()` of Rust's `ParseIntError`. */
  datatype IntErrorKind = Empty | InvalidDigit | PosOverflow | NegOverflow | Zero

  datatype ThemeColorParseError =
    | ParseIntError(kind: IntErrorKind)
    | IncorrectLength(length: nat)

  /** The bytes of an ASCII string literal. */
  function Ascii(s: string): Str
    requires forall i | 0 <= i < |s| :: s[i] < 128 as char
  {
    seq(|s|, i requires 0 <= i < |s| => s[i] as int)
  }

  // ---------------------------------------------------------------------------
  // Digits
  // ---------------------------------------------------------------------------

  /** `char::to_digit(16)` of the character a byte stands for. */
  function HexDigitValue(c: byte): (d: Option<nat>)
    ensures d.Some? ==> d.value < 16
    ensures d.Some? <==> (0x30 <= c <= 0x39 || 0x41 <= c <= 0x46 || 0x61 <= c <= 0x66)
  {
    if 0x30 <= c <= 0x39 then Some(c - 0x30)
    else if 0x61 <= c <= 0x7A then (if c - 0x61 + 10 < 16 then Some(c - 0x61 + 10) else None)
    else if 0x41 <= c <= 0x5A then (if c - 0x41 + 10 < 16 then Some(c - 0x41 + 10) else None)
    else None
  }

  predicate IsHexDigit(c: byte) {
    HexDigitValue(c).Some?
  }

  predicate IsLowerHexDigit(c: byte) {
    0x30 <= c <= 0x39 || 0x61 <= c <= 0x66
  }

  /** The digit `{:x}` prints for `d`: 0-9 then lowercase a-f. */
  function LowerHexDigit(d: nat): (c: byte)
    requires d < 16
    ensures IsLowerHexDigit(c) && HexDigitValue(c) == Some(d)
  {
    if d < 10 then 0x30 + d else 0x61 + (d - 10)
  }

  lemma LowerHexDigitOfValue(c: byte)
    requires IsLowerHexDigit(c)
    ensures LowerHexDigit(HexDigitValue(c).value) == c
  {
  }

  /**
   * `u8::from_str_radix(p, 16)` on the two-byte slices that `from_hex` passes.
   * A leading `+` is accepted and a `-` is an ordinary (invalid) digit, since
   * `u8` is unsigned. Two digits cannot overflow and the slice is never
   * empty, so `InvalidDigit` is the only error.
   */
  function ParseHexPair(p: Str): (r: Result<u8, IntErrorKind>)
    requires |p| == 2
    ensures r.Err? ==> r.error == InvalidDigit
    ensures r.Ok? <==> IsHexDigit(p[1]) && (p[0] == PLUS || IsHexDigit(p[0]))
    ensures r.Ok? && p[0] != PLUS ==>
              r.value == 16 * HexDigitValue(p[0]).value + HexDigitValue(p[1]).value
    ensures r.Ok? && p[0] == PLUS ==> r.value == HexDigitValue(p[1]).value
  {
    var digits := if p[0] == PLUS then p[1..] else p;
    if |digits| == 1 then
      match HexDigitValue(digits[0])
      case None => Err(InvalidDigit)
      case Some(d) => Ok(d)
    else
      match (HexDigitValue(digits[0]), HexDigitValue(digits[1]))
      case (Some(hi), Some(lo)) => Ok(16 * hi + lo)
      case _ => Err(InvalidDigit)
  }

  /** `{:02x}`: a channel as exactly two lowercase hex digits. */
  function HexPair(v: u8): (p: Str)
    ensures |p| == 2 && IsLowerHexDigit(p[0]) && IsLowerHexDigit(p[1])
    ensures ParseHexPair(p) == Ok(v)
  {
    [LowerHexDigit(v / 16), LowerHexDigit(v % 16)]
  }

  // ---------------------------------------------------------------------------
  // from_hex
  // ---------------------------------------------------------------------------

  /** `trim_start_matches('#')`: every leading `#` goes, not just one. */
  function TrimHashes(s: Str): Str {
    if |s| > 0 && s[0] == HASH then TrimHashes(s[1..]) else s
  }

  /** What is left is a suffix that does not start with `#`, and everything cut off was `#`. */
  lemma {:induction false} TrimHashesSpec(s: Str)
    ensures var w := TrimHashes(s);
      && |w| <= |s| && w == s[|s| - |w|..]
      && (forall i | 0 <= i < |s| - |w| :: s[i] == HASH)
      && (w == [] || w[0] != HASH)
    decreases |s|
  {
    if |s| > 0 && s[0] == HASH {
      TrimHashesSpec(s[1..]);
      var w := TrimHashes(s);
      assert s[1..][|s| - 1 - |w|..] == s[|s| - |w|..];
      forall i | 0 <= i < |s| - |w| ensures s[i] == HASH {
        if i > 0 { assert s[i] == s[1..][i - 1]; }
      }
    }
  }

  /** Rust's `str::is_char_boundary` on the UTF-8 bytes of the string. */
  predicate IsCharBoundary(s: Str, i: nat) {
    i == 0 || i == |s| || (i < |s| && !(0x80 <= s[i] < 0xC0))
  }

  /**
   * `ThemeColor::from_hex` exactly as written, with a panic as `None`:
   * `&without_prefix[0..=1]` and its two siblings panic when a slice end is
   * not a character boundary, which a multi-byte character can cause.
   */
  function FromHexAsWritten(val: Str): Option<Result<ThemeColor, ThemeColorParseError>> {
    var w := TrimHashes(val);
    if |w| != 6 then Some(Err(IncorrectLength(|w|)))
    else if !IsCharBoundary(w, 2) then None
    else match ParseHexPair(w[0..2])
      case Err(e) => Some(Err(ParseIntError(e)))
      case Ok(r) =>
        if !IsCharBoundary(w, 4) then None
        else match ParseHexPair(w[2..4])
          case Err(e) => Some(Err(ParseIntError(e)))
          case Ok(g) =>
            match ParseHexPair(w[4..6])
            case Err(e) => Some(Err(ParseIntError(e)))
            case Ok(b) => Some(Ok(ThemeColor(r, g, b)))
  }

  /**
   * `ThemeColor::from_hex` as intended: the same checks in the same order,
   * with the pairs read as bytes so that no input panics. This is the parser
   * the rest of the model uses.
   */
  function FromHex(val: Str): Result<ThemeColor, ThemeColorParseError> {
    var w := TrimHashes(val);
    if |w| != 6 then Err(IncorrectLength(|w|))
    else
      var r :- Channel(w[0..2]);
      var g :- Channel(w[2..4]);
      var b :- Channel(w[4..6]);
      Ok(ThemeColor(r, g, b))
  }

  /** `.map_err(ThemeColorParseError::ParseIntError)` on one pair. */
  function Channel(p: Str): Result<u8, ThemeColorParseError>
    requires |p| == 2
  {
    match ParseHexPair(p)
    case Ok(v) => Ok(v)
    case Err(e) => Err(ParseIntError(e))
  }

  /**
   * The outcomes of `from_hex`: a wrong length after the `#`s are gone is
   * `IncorrectLength` with that length, and only then; success needs all
   * three pairs to parse; every other failure is an invalid digit.
   */
  lemma FromHexSpec(val: Str)
    ensures var r, w := FromHex(val), TrimHashes(val);
      && (r == Err(IncorrectLength(|w|)) <==> |w| != 6)
      && (r.Ok? <==> |w| == 6 && ParseHexPair(w[0..2]).Ok? && ParseHexPair(w[2..4]).Ok?
                              && ParseHexPair(w[4..6]).Ok?)
      && (r.Err? && r.error.ParseIntError? ==> r.error.kind == InvalidDigit)
      && (r.Err? && |w| == 6 ==> r.error == ParseIntError(InvalidDigit))
      && (r.Ok? ==> r.value == ThemeColor(ParseHexPair(w[0..2]).value, ParseHexPair(w[2..4]).value,
                                          ParseHexPair(w[4..6]).value))
  {
  }

  /** `ThemeColor::to_hex`: `#` then `{:02x}` for r, g and b. */
  function ToHex(c: ThemeColor): (s: Str)
    ensures |s| == 7 && s[0] == HASH
    ensures forall i | 1 <= i < 7 :: IsLowerHexDigit(s[i])
  {
    [HASH] + HexPair(c.r) + HexPair(c.g) + HexPair(c.b)
  }

  // ---------------------------------------------------------------------------
  // Properties
  // ---------------------------------------------------------------------------

  /** Parsing what `to_hex` prints gives the colour back. */
  lemma FromHexToHex(c: ThemeColor)
    ensures FromHex(ToHex(c)) == Ok(c)
  {
    var s := ToHex(c);
    assert TrimHashes(s) == s[1..];
    assert s[1..][0..2] == HexPair(c.r);
    assert s[1..][2..4] == HexPair(c.g);
    assert s[1..][4..6] == HexPair(c.b);
  }

  /** Two lowercase hex digits are what `{:02x}` prints for the value they denote. */
  lemma HexPairOfParse(p: Str)
    requires |p| == 2 && IsLowerHexDigit(p[0]) && IsLowerHexDigit(p[1])
    ensures ParseHexPair(p).Ok? && HexPair(ParseHexPair(p).value) == p
  {
    var hi, lo := HexDigitValue(p[0]).value, HexDigitValue(p[1]).value;
    var v := ParseHexPair(p).value;
    assert v == 16 * hi + lo;
    assert v / 16 == hi && v % 16 == lo;
    LowerHexDigitOfValue(p[0]);
    LowerHexDigitOfValue(p[1]);
  }

  /** A canonical `#rrggbb` string (lowercase) is exactly what `to_hex` prints for its colour. */
  lemma ToHexFromHex(s: Str)
    requires |s| == 7 && s[0] == HASH
    requires forall i | 1 <= i < 7 :: IsLowerHexDigit(s[i])
    ensures FromHex(s).Ok? && ToHex(FromHex(s).value) == s
  {
    assert IsLowerHexDigit(s[1]);
    assert s[1..][0] == s[1] && s[1] != HASH;
    assert TrimHashes(s[1..]) == s[1..];
    var w := TrimHashes(s);
    assert w == s[1..];
    var pr, pg, pb := w[0..2], w[2..4], w[4..6];
    assert pr == [s[1], s[2]] && pg == [s[3], s[4]] && pb == [s[5], s[6]];
    HexPairOfParse(pr);
    HexPairOfParse(pg);
    HexPairOfParse(pb);
    var c := FromHex(s).value;
    assert c == ThemeColor(ParseHexPair(pr).value, ParseHexPair(pg).value, ParseHexPair(pb).value);
    assert s == [HASH] + pr + pg + pb;
  }

  /** On `#` and six bytes, `from_hex` reads the pairs at 1, 3 and 5. */
  lemma FromHexHashed(s: Str)
    requires |s| == 7 && s[0] == HASH && s[1] != HASH
    ensures FromHex(s) ==
      var r :- Channel([s[1], s[2]]);
      var g :- Channel([s[3], s[4]]);
      var b :- Channel([s[5], s[6]]);
      Ok(ThemeColor(r, g, b))
  {
    assert s[1..][0] == s[1];
    assert TrimHashes(s) == s[1..];
    assert s[1..][0..2] == [s[1], s[2]] && s[1..][2..4] == [s[3], s[4]] && s[1..][4..6] == [s[5], s[6]];
  }

  /** One more leading `#` changes nothing. */
  lemma FromHexIgnoresLeadingHash(s: Str)
    ensures FromHex([HASH] + s) == FromHex(s)
  {
    assert ([HASH] + s)[1..] == s;
  }

  /** Any number of extra leading `#`s change nothing. */
  lemma {:induction false} FromHexIgnoresLeadingHashes(k: nat, s: Str)
    ensures FromHex(seq(k, _ => HASH) + s) == FromHex(s)
    decreases k
  {
    if k > 0 {
      var rest := seq(k - 1, _ => HASH) + s;
      assert seq(k, _ => HASH) + s == [HASH] + rest;
      FromHexIgnoresLeadingHash(rest);
      FromHexIgnoresLeadingHashes(k - 1, s);
    } else {
      assert seq(k, _ => HASH) + s == s;
    }
  }

  /** ASCII upper case mapped to lower case, bytewise. */
  function AsciiLower(s: Str): (t: Str)
    ensures |t| == |s|
  {
    seq(|s|, i requires 0 <= i < |s| => if 0x41 <= s[i] <= 0x5A then s[i] + 0x20 else s[i])
  }

  lemma {:induction false} TrimHashesLower(s: Str)
    ensures TrimHashes(AsciiLower(s)) == AsciiLower(TrimHashes(s))
    decreases |s|
  {
    if |s| > 0 && s[0] == HASH {
      assert AsciiLower(s)[1..] == AsciiLower(s[1..]);
      TrimHashesLower(s[1..]);
    }
  }

  lemma ParseHexPairLower(p: Str)
    requires |p| == 2
    ensures ParseHexPair(AsciiLower(p)) == ParseHexPair(p)
  {
  }

  /** `FromHex` looks only at the bytes left after the `#`s, pair by pair. */
  lemma FromHexByPairs(a: Str, b: Str)
    requires |TrimHashes(a)| == |TrimHashes(b)|
    requires |TrimHashes(a)| == 6 ==>
      && Channel(TrimHashes(a)[0..2]) == Channel(TrimHashes(b)[0..2])
      && Channel(TrimHashes(a)[2..4]) == Channel(TrimHashes(b)[2..4])
      && Channel(TrimHashes(a)[4..6]) == Channel(TrimHashes(b)[4..6])
    ensures FromHex(a) == FromHex(b)
  {
    var wa, wb := TrimHashes(a), TrimHashes(b);
    if |wa| == 6 {
      var r, g, b' := Channel(wa[0..2]), Channel(wa[2..4]), Channel(wa[4..6]);
      assert FromHex(a) == (var r :- r; var g :- g; var b :- b'; Ok(ThemeColor(r, g, b)));
      assert FromHex(b) == (var r :- r; var g :- g; var b :- b'; Ok(ThemeColor(r, g, b)));
    }
  }

  /** Lowering the case keeps the `#`-free part's length and every pair's parse. */
  lemma LowerPairs(s: Str)
    ensures |TrimHashes(AsciiLower(s))| == |TrimHashes(s)|
    ensures |TrimHashes(s)| == 6 ==>
      && Channel(TrimHashes(AsciiLower(s))[0..2]) == Channel(TrimHashes(s)[0..2])
      && Channel(TrimHashes(AsciiLower(s))[2..4]) == Channel(TrimHashes(s)[2..4])
      && Channel(TrimHashes(AsciiLower(s))[4..6]) == Channel(TrimHashes(s)[4..6])
  {
    TrimHashesLower(s);
    var w := TrimHashes(s);
    if |w| == 6 {
      var lw := AsciiLower(w);
      assert lw[0..2] == AsciiLower(w[0..2]);
      assert lw[2..4] == AsciiLower(w[2..4]);
      assert lw[4..6] == AsciiLower(w[4..6]);
      ParseHexPairLower(w[0..2]);
      ParseHexPairLower(w[2..4]);
      ParseHexPairLower(w[4..6]);
    }
  }

  /** Hex digits may be written in either case. */
  lemma FromHexCaseInsensitive(s: Str)
    ensures FromHex(AsciiLower(s)) == FromHex(s)
  {
    LowerPairs(s);
    FromHexByPairs(AsciiLower(s), s);
  }

  /** Where the code as written does not panic it computes `FromHex`. */
  lemma FromHexAsWrittenAgrees(val: Str)
    ensures FromHexAsWritten(val).Some? ==> FromHexAsWritten(val).value == FromHex(val)
    ensures FromHexAsWritten(val).None? ==> FromHex(val) == Err(ParseIntError(InvalidDigit))
  {
    var w := TrimHashes(val);
    if |w| == 6 {
      var r, g, b := w[0..2], w[2..4], w[4..6];
      assert g[0] == w[2] && b[0] == w[4];
      if !IsCharBoundary(w, 2) {
        assert ParseHexPair(g).Err?;
      } else if ParseHexPair(r).Ok? && !IsCharBoundary(w, 4) {
        assert ParseHexPair(b).Err?;
      }
    }
  }

  /** On ASCII input the code as written never panics. */
  lemma FromHexAsWrittenAsciiTotal(val: Str)
    requires forall i | 0 <= i < |val| :: val[i] < 0x80
    ensures FromHexAsWritten(val).Some?
  {
    TrimHashesSpec(val);
    var w := TrimHashes(val);
    if |w| == 6 {
      assert w[2] == val[|val| - 6 + 2] && w[4] == val[|val| - 6 + 4];
    }
  }

  /** On ASCII input the code as written returns exactly what `FromHex` returns. */
  lemma FromHexAsWrittenAscii(val: Str)
    requires forall i | 0 <= i < |val| :: val[i] < 0x80
    ensures FromHexAsWritten(val) == Some(FromHex(val))
  {
    FromHexAsWrittenAsciiTotal(val);
    FromHexAsWrittenAgrees(val);
  }

  /**
   * The panic: "aébcd" is six bytes (61 C3 A9 62 63 64), and byte 2 lies
   * inside "é", so `&without_prefix[0..=1]` panics instead of reporting an error.
   */
  lemma FromHexAsWrittenPanics()
    ensures FromHexAsWritten([0x61, 0xC3, 0xA9, 0x62, 0x63, 0x64]) == None
    ensures FromHex([0x61, 0xC3, 0xA9, 0x62, 0x63, 0x64]) == Err(ParseIntError(InvalidDigit))
  {
  }
}
