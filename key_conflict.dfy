/**
 * The key-path stack and the conflict error of
 * lib/src/config/v2/tui/keys/conflict.rs. While the key configuration is
 * checked for conflicts, `KeyPath` records the chain of field names leading
 * to the current key; `join_with_field` renders it as a dotted path, and
 * `KeyConflictError` names the two paths that bind the same key.
 */
module KeyConflict {
  import opened Wrappers

  // ---------------------------------------------------------------------------
  // Dotted paths
  // ---------------------------------------------------------------------------

  const DOT: char := '.'

  /** Rust's `[&str]::join(sep)`: the elements with `sep` between neighbours. */
  function Join(xs: seq<string>, sep: string): string {
    if |xs| == 0 then ""
    else if |xs| == 1 then xs[0]
    else xs[0] + sep + Join(xs[1..], sep)
  }

  /** Joining one more element puts one more separator before it. */
  lemma {:induction false} JoinSnoc(xs: seq<string>, x: string, sep: string)
    requires |xs| > 0
    ensures Join(xs + [x], sep) == Join(xs, sep) + sep + x
    decreases |xs|
  {
    if |xs| == 1 {
      assert xs + [x] == [xs[0], x];
      assert [xs[0], x][1..] == [x];
    } else {
      assert (xs + [x])[1..] == xs[1..] + [x];
      JoinSnoc(xs[1..], x, sep);
    }
  }

  predicate NoDot(s: string) {
    forall i | 0 <= i < |s| :: s[i] != DOT
  }

  /** Rust's `str::split('.')`: the pieces between dots, always at least one. */
  function SplitDots(s: string): (ps: seq<string>)
    ensures |ps| >= 1
    ensures forall i | 0 <= i < |ps| :: NoDot(ps[i])
  {
    if |s| == 0 then [""]
    else if s[0] == DOT then [""] + SplitDots(s[1..])
    else
      var rest := SplitDots(s[1..]);
      [[s[0]] + rest[0]] + rest[1..]
  }

  /** A dot-free piece is one piece, and a dot after it starts the next. */
  lemma {:induction false} SplitDotsPiece(w: string, tail: Option<string>)
    requires NoDot(w)
    ensures tail.None? ==> SplitDots(w) == [w]
    ensures tail.Some? ==> SplitDots(w + [DOT] + tail.value) == [w] + SplitDots(tail.value)
    decreases |w|
  {
    if |w| > 0 {
      assert w[0] != DOT && [w[0]] + w[1..] == w;
      SplitDotsPiece(w[1..], tail);
      if tail.Some? {
        var s := w + [DOT] + tail.value;
        assert s[0] == w[0] && s[1..] == w[1..] + [DOT] + tail.value;
        assert SplitDots(s) == [[w[0]] + w[1..]] + SplitDots(tail.value);
      } else {
        assert SplitDots(w) == [[w[0]] + w[1..]];
      }
    } else if tail.Some? {
      assert w + [DOT] + tail.value == [DOT] + tail.value;
      assert ([DOT] + tail.value)[1..] == tail.value;
    }
  }

  /** A non-empty list of dot-free names is recovered from its dotted rendering. */
  lemma {:induction false} SplitJoin(xs: seq<string>)
    requires |xs| > 0 && forall i | 0 <= i < |xs| :: NoDot(xs[i])
    ensures SplitDots(Join(xs, [DOT])) == xs
    decreases |xs|
  {
    if |xs| == 1 {
      SplitDotsPiece(xs[0], None);
    } else {
      SplitJoin(xs[1..]);
      SplitDotsPiece(xs[0], Some(Join(xs[1..], [DOT])));
      assert [xs[0]] + xs[1..] == xs;
    }
  }

  // ---------------------------------------------------------------------------
  // KeyPath
  // ---------------------------------------------------------------------------

  /** `KeyPath`: a stack of field names, outermost first. */
  class KeyPath {
    var fields: seq<string>

    /** `KeyPath::new`: the empty path. */
    constructor ()
      ensures fields == []
    {
      fields := [];
    }

    /** `KeyPath::new_with_toplevel`: a fresh path holding only `value`. */
    static method NewWithTopLevel(value: string) returns (p: KeyPath)
      ensures fresh(p)
      ensures p.fields == [value]
    {
      p := new KeyPath();
      p.Push(value);
    }

    /** `push`: `value` goes on top; the fields below are untouched. */
    method Push(value: string)
      modifies this
      ensures fields == old(fields) + [value]
    {
      fields := fields + [value];
    }

    /** `pop`: the top field, or `None` (and no change) on an empty path. */
    method Pop() returns (r: Option<string>)
      modifies this
      ensures old(fields) == [] ==> r == None && fields == []
      ensures old(fields) != [] ==>
        && r == Some(old(fields)[|old(fields)| - 1])
        && fields == old(fields)[..|old(fields)| - 1]
      ensures old(fields) == fields + (if r.Some? then [r.value] else [])
    {
      if |fields| == 0 {
        r := None;
      } else {
        r := Some(fields[|fields| - 1]);
        fields := fields[..|fields| - 1];
      }
    }

    /**
     * `join_with_field`: the path joined by dots, then a dot and `field`.
     * It reads the path and changes nothing; an empty path renders as
     * `.field`.
     */
    function JoinWithField(field: string): (s: string)
      reads this
      ensures |fields| == 0 ==> s == [DOT] + field
      ensures |fields| > 0 ==> s == Join(fields + [field], [DOT])
    {
      if |fields| > 0 then JoinSnoc(fields, field, [DOT]); Join(fields, [DOT]) + [DOT] + field
      else Join(fields, [DOT]) + [DOT] + field
    }
  }

  /** `pop` undoes `push`: the stack is last in, first out. */
  method PushPopRestores(p: KeyPath, v: string) returns (r: Option<string>)
    modifies p
    ensures r == Some(v)
    ensures p.fields == old(p.fields)
  {
    p.Push(v);
    r := p.Pop();
  }

  /**
   * The rendered path names every field and then `field`: with dot-free
   * names, splitting it at the dots gives them back (an empty path gives an
   * empty first piece).
   */
  lemma JoinWithFieldSplits(p: KeyPath, field: string)
    requires NoDot(field) && forall i | 0 <= i < |p.fields| :: NoDot(p.fields[i])
    ensures |p.fields| > 0 ==> SplitDots(p.JoinWithField(field)) == p.fields + [field]
    ensures |p.fields| == 0 ==> SplitDots(p.JoinWithField(field)) == ["", field]
  {
    if |p.fields| > 0 {
      SplitJoin(p.fields + [field]);
    } else {
      SplitDotsPiece("", Some(field));
      SplitDotsPiece(field, None);
      assert "" + [DOT] + field == [DOT] + field;
    }
  }

  // ---------------------------------------------------------------------------
  // KeyConflictError
  // ---------------------------------------------------------------------------

  /**
   * `KeyConflictError`. The key is kept as its rendered text, since the
   * `Display` of `KeyBinding` is not part of this model.
   */
  datatype KeyConflictError = KeyConflictError(key_path_first: string, key_path_second: string, key: string)

  const QUOTE: char := '\''
  const PREFIX: string := "Key Conflict: '"
  const MIDDLE: string := "' and '"
  const KEY_INFIX: string := "', key: '"

  /** `Display for KeyConflictError`. */
  function Display(e: KeyConflictError): (s: string)
    ensures |s| == |PREFIX| + |e.key_path_first| + |MIDDLE| + |e.key_path_second| + |KEY_INFIX| + |e.key| + 1
    ensures s[..|PREFIX|] == PREFIX && s[|s| - 1] == QUOTE
  {
    PREFIX + e.key_path_first + MIDDLE + e.key_path_second + KEY_INFIX + e.key + [QUOTE]
  }

  predicate NoQuote(s: string) {
    forall i | 0 <= i < |s| :: s[i] != QUOTE
  }

  /** The longest quote-free prefix of `s`, and what follows it. */
  function SplitAtQuote(s: string): (r: (string, string))
    ensures r.0 + r.1 == s && NoQuote(r.0)
    ensures r.1 == [] || r.1[0] == QUOTE
  {
    if |s| == 0 || s[0] == QUOTE then ("", s)
    else
      var (w, rest) := SplitAtQuote(s[1..]);
      ([s[0]] + w, rest)
  }

  lemma {:induction false} SplitAtQuoteOf(w: string, rest: string)
    requires NoQuote(w) && |rest| > 0 && rest[0] == QUOTE
    ensures SplitAtQuote(w + rest) == (w, rest)
    decreases |w|
  {
    if |w| > 0 {
      assert (w + rest)[1..] == w[1..] + rest;
      SplitAtQuoteOf(w[1..], rest);
      assert [w[0]] + w[1..] == w;
    } else {
      assert w + rest == rest;
    }
  }

  /** `t` with the literal `lit` removed from its front, if it is there. */
  function StripPrefix(t: string, lit: string): Option<string> {
    if |lit| <= |t| && t[..|lit|] == lit then Some(t[|lit|..]) else None
  }

  /**
   * Reads a rendered conflict message back: the inverse of `Display` on
   * quote-free parts. `None` when `s` does not have the message's shape.
   */
  function ParseConflict(s: string): Option<KeyConflictError> {
    match StripPrefix(s, PREFIX)
    case None => None
    case Some(s1) =>
      var (first, s2) := SplitAtQuote(s1);
      match StripPrefix(s2, MIDDLE)
      case None => None
      case Some(s3) =>
        var (second, s4) := SplitAtQuote(s3);
        match StripPrefix(s4, KEY_INFIX)
        case None => None
        case Some(s5) =>
          var (key, s6) := SplitAtQuote(s5);
          if s6 == [QUOTE] then Some(KeyConflictError(first, second, key)) else None
  }

  lemma StripPrefixOf(lit: string, rest: string)
    ensures StripPrefix(lit + rest, lit) == Some(rest)
  {
    assert (lit + rest)[..|lit|] == lit;
    assert (lit + rest)[|lit|..] == rest;
  }

  /** The message names its three parts recoverably when none of them contains a quote. */
  lemma ParseDisplay(e: KeyConflictError)
    requires NoQuote(e.key_path_first) && NoQuote(e.key_path_second) && NoQuote(e.key)
    ensures ParseConflict(Display(e)) == Some(e)
  {
    var a, b, k := e.key_path_first, e.key_path_second, e.key;
    var t3 := k + [QUOTE];
    var t2 := b + (KEY_INFIX + t3);
    var t1 := a + (MIDDLE + t2);
    assert Display(e) == PREFIX + t1;
    StripPrefixOf(PREFIX, t1);
    assert (MIDDLE + t2)[0] == QUOTE;
    SplitAtQuoteOf(a, MIDDLE + t2);
    StripPrefixOf(MIDDLE, t2);
    assert (KEY_INFIX + t3)[0] == QUOTE;
    SplitAtQuoteOf(b, KEY_INFIX + t3);
    StripPrefixOf(KEY_INFIX, t3);
    SplitAtQuoteOf(k, [QUOTE]);
  }

  /** Distinct conflicts with quote-free parts render as distinct messages. */
  lemma DisplayInjective(e: KeyConflictError, f: KeyConflictError)
    requires NoQuote(e.key_path_first) && NoQuote(e.key_path_second) && NoQuote(e.key)
    requires NoQuote(f.key_path_first) && NoQuote(f.key_path_second) && NoQuote(f.key)
    ensures Display(e) == Display(f) <==> e == f
  {
    ParseDisplay(e);
    ParseDisplay(f);
  }
}
