/**
 * The GStreamer playback backend of src/player/gstreamer_backend.rs: the
 * `paused`, `volume` and `gapless` state the backend keeps, its volume
 * stepping and clamping, pause and resume, the progress arithmetic of
 * `get_progress` and the seek arithmetic of `seek`.
 *
 * The native `gst_player::Player` is abstract state: the URI it was given,
 * its position and duration (nanoseconds, `None` when unknown) and the log of
 * commands the backend sent it. The outbound `Sender<PlayerMsg>` is the log
 * of messages sent on it.
 */
module GStreamerBackend {
  import opened Wrappers

  // ---------------------------------------------------------------------------
  // Machine integers and clock units
  // ---------------------------------------------------------------------------

  const I32_MIN: int := -0x8000_0000
  const I32_MAX: int := 0x7fff_ffff
  const I64_MIN: int := -0x8000_0000_0000_0000
  const I64_MAX: int := 0x7fff_ffff_ffff_ffff
  /** `ClockTime` is a `u64` count of nanoseconds. */
  const U64_LIMIT: int := 0x1_0000_0000_0000_0000
  const NANOS_PER_SEC: nat := 1_000_000_000

  predicate IsI32(x: int) { I32_MIN <= x <= I32_MAX }

  predicate IsI64(x: int) { I64_MIN <= x <= I64_MAX }

  /**
   * `ClockTime::seconds(t).try_into().unwrap_or(0)`: whole seconds as an
   * `i64`, or 0 when they do not fit.
   */
  function ClockSeconds(t: nat): (s: int)
    requires t < U64_LIMIT
    ensures s == t / NANOS_PER_SEC
    ensures 0 <= s <= MAX_CLOCK_SECS
  {
    var secs := t / NANOS_PER_SEC;
    assert secs * NANOS_PER_SEC <= t;
    if secs <= I64_MAX then secs else 0
  }

  /** The largest whole number of seconds a `ClockTime` holds; it fits an `i64` with room to spare. */
  const MAX_CLOCK_SECS: int := 18_446_744_073

  // ---------------------------------------------------------------------------
  // Progress arithmetic
  // ---------------------------------------------------------------------------

  lemma MulLe(a: int, b: int, d: int)
    requires a <= b && 0 < d
    ensures a * d <= b * d
  {
  }

  /** Facts about `(pos * 100) / dur` that `get_progress` relies on. */
  lemma PercentBounds(pos: int, dur: int)
    requires 0 <= pos && 0 < dur
    ensures var q := (pos * 100) / dur;
      && 0 <= q
      && q * dur <= pos * 100 < (q + 1) * dur
      && (q >= 100 <==> pos >= dur)
  {
    var n := pos * 100;
    var q, m := n / dur, n % dur;
    assert n == q * dur + m && 0 <= m < dur;
    assert (q + 1) * dur == q * dur + dur;
    if q >= 100 {
      MulLe(100, q, dur);
    } else {
      MulLe(q + 1, 100, dur);
    }
  }

  // ---------------------------------------------------------------------------
  // Messages and native commands
  // ---------------------------------------------------------------------------

  /** The `PlayerMsg` this backend sends. */
  datatype PlayerMsg = Eos

  /** A command sent to the native player; `SetNativeVolume` carries the percentage the `f64` is scaled from. */
  datatype NativeCall =
    | LoadUri(uri: string)
    | StartPlaying
    | PausePlaying
    | StopPlaying
    | SeekTo(seconds: nat)
    | SetNativeVolume(percent: int)

  /** The volume the native player was last told, if it was told one. */
  function LastVolume(calls: seq<NativeCall>): Option<int> {
    if |calls| == 0 then None
    else if calls[|calls| - 1].SetNativeVolume? then Some(calls[|calls| - 1].percent)
    else LastVolume(calls[..|calls| - 1])
  }

  /** Commands other than `SetNativeVolume` leave the native volume where it was. */
  lemma {:induction false} LastVolumeAppend(calls: seq<NativeCall>, more: seq<NativeCall>)
    requires forall i | 0 <= i < |more| :: !more[i].SetNativeVolume?
    ensures LastVolume(calls + more) == LastVolume(calls)
    decreases |more|
  {
    if |more| > 0 {
      var all := calls + more;
      assert all[..|all| - 1] == calls + more[..|more| - 1];
      LastVolumeAppend(calls, more[..|more| - 1]);
    } else {
      assert calls + more == calls;
    }
  }

  /** `format!("file:///{}", p)`. */
  function FileUri(p: string): (u: string)
    ensures |u| == |p| + 8 && u[..8] == "file:///" && u[8..] == p
  {
    "file:///" + p
  }

  /** Two tracks get the same URI only when they are the same path. */
  lemma FileUriInjective(p: string, q: string)
    ensures FileUri(p) == FileUri(q) <==> p == q
  {
    if FileUri(p) == FileUri(q) {
      assert p == FileUri(p)[8..];
    }
  }

  // ---------------------------------------------------------------------------
  // Volume arithmetic
  // ---------------------------------------------------------------------------

  /** `volume_up`'s new volume: five more, capped at 100. */
  function VolumeStepUp(v: int): (w: int)
    ensures w <= 100 && (w == 100 || w == v + 5)
    ensures v + 5 <= 100 <==> w == v + 5
    ensures 0 <= v ==> 0 <= w
  {
    if v + 5 < 100 then v + 5 else 100
  }

  /** `volume_down`'s new volume: five less, floored at 0. */
  function VolumeStepDown(v: int): (w: int)
    ensures 0 <= w && (w == 0 || w == v - 5)
    ensures v - 5 >= 0 <==> w == v - 5
    ensures v <= 100 ==> w <= 100
  {
    if v - 5 > 0 then v - 5 else 0
  }

  /** `set_volume`'s clamp into [0, 100]. */
  function ClampVolume(v: int): (w: int)
    ensures 0 <= w <= 100
    ensures 0 <= v <= 100 ==> w == v
    ensures v > 100 ==> w == 100
    ensures v < 0 ==> w == 0
  {
    if v > 100 then 100 else if v < 0 then 0 else v
  }

  function VolumeUpTimes(v: int, n: nat): int
    decreases n
  {
    if n == 0 then v else VolumeUpTimes(VolumeStepUp(v), n - 1)
  }

  function VolumeDownTimes(v: int, n: nat): int
    decreases n
  {
    if n == 0 then v else VolumeDownTimes(VolumeStepDown(v), n - 1)
  }

  /** `n >= 1` presses of volume-up give `min(v + 5n, 100)`: from 98 one press reaches 100, never 103. */
  lemma {:induction false} VolumeUpTimesIs(v: int, n: nat)
    requires n >= 1
    ensures VolumeUpTimes(v, n) == if v + 5 * n < 100 then v + 5 * n else 100
    decreases n
  {
    if n > 1 {
      VolumeUpTimesIs(VolumeStepUp(v), n - 1);
    }
  }

  /** `n >= 1` presses of volume-down give `max(v - 5n, 0)`; never negative. */
  lemma {:induction false} VolumeDownTimesIs(v: int, n: nat)
    requires n >= 1
    ensures VolumeDownTimes(v, n) == if v - 5 * n > 0 then v - 5 * n else 0
    decreases n
  {
    if n > 1 {
      VolumeDownTimesIs(VolumeStepDown(v), n - 1);
    }
  }

  // ---------------------------------------------------------------------------
  // The backend
  // ---------------------------------------------------------------------------

  /** What `get_progress` returns on success: percent, position and duration in seconds. */
  datatype Progress = Progress(percent: int, position: int, duration: int)

  class GStreamer {
    var paused: bool
    var volume: int
    var gapless: bool
    /** The native player's state, as far as the backend can see it. */
    var uri: Option<string>
    var position: Option<nat>
    var duration: Option<nat>
    /** The commands sent to the native player, oldest first. */
    var calls: seq<NativeCall>
    /** The messages sent on the outbound channel, oldest first. */
    var sent: seq<PlayerMsg>

    /**
     * The volume is an `i32`, the clock readings are `u64` nanoseconds, and
     * the native player always holds the backend's volume.
     */
    predicate Valid()
      reads this
    {
      && IsI32(volume)
      && (position.Some? ==> position.value < U64_LIMIT)
      && (duration.Some? ==> duration.value < U64_LIMIT)
      && LastVolume(calls) == Some(volume)
    }

    /** `GStreamer::new`: the configured volume, not paused, gapless. */
    constructor (configVolume: int)
      requires IsI32(configVolume)
      ensures Valid()
      ensures volume == configVolume && !paused && gapless
      ensures uri == None && position == None && duration == None
      ensures calls == [SetNativeVolume(configVolume)] && sent == []
    {
      paused := false;
      volume := configVolume;
      gapless := true;
      uri := None;
      position := None;
      duration := None;
      calls := [SetNativeVolume(configVolume)];
      sent := [];
    }

    /** `volume()`. */
    function Volume(): int
      reads this
    {
      volume
    }

    /** `is_paused()`. */
    function IsPaused(): bool
      reads this
    {
      paused
    }

    /** The position in whole seconds as `get_progress` reads it; unknown reads as 0. */
    function PositionSecs(): (s: int)
      requires Valid()
      reads this
      ensures 0 <= s <= MAX_CLOCK_SECS
      ensures position.None? ==> s == 0
      ensures position.Some? ==> s == position.value / NANOS_PER_SEC
    {
      match position
      case None => 0
      case Some(t) => ClockSeconds(t)
    }

    /** The duration in whole seconds as `get_progress` reads it; unknown reads as 0. */
    function DurationSecs(): (s: int)
      requires Valid()
      reads this
      ensures 0 <= s <= MAX_CLOCK_SECS
      ensures duration.None? ==> s == 0
      ensures duration.Some? ==> s == duration.value / NANOS_PER_SEC
    {
      match duration
      case None => 0
      case Some(t) => ClockSeconds(t)
    }

    /** `skip_one`: exactly one `Eos` goes out; nothing else changes. */
    method SkipOne()
      requires Valid()
      modifies this
      ensures Valid()
      ensures sent == old(sent) + [Eos]
      ensures paused == old(paused) && volume == old(volume) && gapless == old(gapless)
      ensures uri == old(uri) && position == old(position) && duration == old(duration)
      ensures calls == old(calls)
    {
      sent := sent + [Eos];
    }

    /** `enqueue_next`: the native player gets the track's `file:///` URI; nothing else changes. */
    method EnqueueNext(nextTrack: string)
      requires Valid()
      modifies this
      ensures Valid()
      ensures uri == Some(FileUri(nextTrack))
      ensures calls == old(calls) + [LoadUri(FileUri(nextTrack))]
      ensures paused == old(paused) && volume == old(volume) && gapless == old(gapless)
      ensures position == old(position) && duration == old(duration) && sent == old(sent)
    {
      LastVolumeAppend(calls, [LoadUri(FileUri(nextTrack))]);
      uri := Some(FileUri(nextTrack));
      calls := calls + [LoadUri(FileUri(nextTrack))];
    }

    /** `play`: stop the native player, then start it. */
    method Play()
      requires Valid()
      modifies this
      ensures Valid()
      ensures calls == old(calls) + [StopPlaying, StartPlaying]
      ensures paused == old(paused) && volume == old(volume) && gapless == old(gapless)
      ensures uri == old(uri) && position == old(position) && duration == old(duration)
      ensures sent == old(sent)
    {
      LastVolumeAppend(calls, [StopPlaying, StartPlaying]);
      calls := calls + [StopPlaying, StartPlaying];
    }

    /** `add_and_play`: load the track's `file:///` URI, clear `paused`, then `play`. */
    method AddAndPlay(songStr: string)
      requires Valid()
      modifies this
      ensures Valid()
      ensures uri == Some(FileUri(songStr)) && !paused
      ensures calls == old(calls) + [LoadUri(FileUri(songStr)), StopPlaying, StartPlaying]
      ensures volume == old(volume) && gapless == old(gapless)
      ensures position == old(position) && duration == old(duration) && sent == old(sent)
    {
      LastVolumeAppend(calls, [LoadUri(FileUri(songStr))]);
      uri := Some(FileUri(songStr));
      calls := calls + [LoadUri(FileUri(songStr))];
      paused := false;
      Play();
    }

    /** `volume_up`: five more, capped at 100, and passed on to the native player. */
    method VolumeUp()
      requires Valid()
      requires volume + 5 <= I32_MAX
      modifies this
      ensures Valid()
      ensures volume == VolumeStepUp(old(volume))
      ensures calls == old(calls) + [SetNativeVolume(volume)]
      ensures paused == old(paused) && gapless == old(gapless) && uri == old(uri)
      ensures position == old(position) && duration == old(duration) && sent == old(sent)
    {
      volume := if volume + 5 < 100 then volume + 5 else 100;
      calls := calls + [SetNativeVolume(volume)];
    }

    /** `volume_down`: five less, floored at 0, and passed on to the native player. */
    method VolumeDown()
      requires Valid()
      requires volume - 5 >= I32_MIN
      modifies this
      ensures Valid()
      ensures volume == VolumeStepDown(old(volume))
      ensures calls == old(calls) + [SetNativeVolume(volume)]
      ensures paused == old(paused) && gapless == old(gapless) && uri == old(uri)
      ensures position == old(position) && duration == old(duration) && sent == old(sent)
    {
      volume := if volume - 5 > 0 then volume - 5 else 0;
      calls := calls + [SetNativeVolume(volume)];
    }

    /** `set_volume`: the argument clamped into [0, 100], stored and passed on. */
    method SetVolume(v: int)
      requires Valid()
      requires IsI32(v)
      modifies this
      ensures Valid()
      ensures Volume() == ClampVolume(v)
      ensures calls == old(calls) + [SetNativeVolume(ClampVolume(v))]
      ensures paused == old(paused) && gapless == old(gapless) && uri == old(uri)
      ensures position == old(position) && duration == old(duration) && sent == old(sent)
    {
      var w := v;
      if w > 100 {
        w := 100;
      } else if w < 0 {
        w := 0;
      }
      volume := w;
      calls := calls + [SetNativeVolume(w)];
    }

    /** `pause`: `paused` is set and the native player paused. */
    method Pause()
      requires Valid()
      modifies this
      ensures Valid()
      ensures IsPaused()
      ensures calls == old(calls) + [PausePlaying]
      ensures volume == old(volume) && gapless == old(gapless) && uri == old(uri)
      ensures position == old(position) && duration == old(duration) && sent == old(sent)
    {
      LastVolumeAppend(calls, [PausePlaying]);
      paused := true;
      calls := calls + [PausePlaying];
    }

    /** `resume`: `paused` is cleared and the native player plays. */
    method Resume()
      requires Valid()
      modifies this
      ensures Valid()
      ensures !IsPaused()
      ensures calls == old(calls) + [StartPlaying]
      ensures volume == old(volume) && gapless == old(gapless) && uri == old(uri)
      ensures position == old(position) && duration == old(duration) && sent == old(sent)
    {
      LastVolumeAppend(calls, [StartPlaying]);
      paused := false;
      calls := calls + [StartPlaying];
    }

    /** `stop`: forwarded to the native player; `paused` is left as it was. */
    method Stop()
      requires Valid()
      modifies this
      ensures Valid()
      ensures calls == old(calls) + [StopPlaying]
      ensures paused == old(paused) && volume == old(volume) && gapless == old(gapless)
      ensures uri == old(uri) && position == old(position) && duration == old(duration)
      ensures sent == old(sent)
    {
      LastVolumeAppend(calls, [StopPlaying]);
      calls := calls + [StopPlaying];
    }

    /**
     * `get_progress`: the position as a percentage of the duration, rounded
     * down and capped at 100, with the position and duration in seconds. A
     * zero (or unknown) duration is the "divide error".
     */
    method GetProgress() returns (r: Result<Progress, string>)
      requires Valid()
      ensures r.Err? <==> DurationSecs() == 0
      ensures r.Err? ==> r.error == "divide error"
      ensures r.Ok? ==>
        && r.value.position == PositionSecs() && r.value.duration == DurationSecs()
        && 0 <= r.value.percent <= 100
        && (r.value.percent == 100 <==> PositionSecs() >= DurationSecs())
        && (r.value.percent < 100 ==>
              r.value.percent * DurationSecs() <= PositionSecs() * 100
                < (r.value.percent + 1) * DurationSecs())
    {
      var timePos := PositionSecs();
      var dur := DurationSecs();
      // Both operands are non-negative and far inside `i64`, so Rust's
      // truncating `checked_div` agrees with Dafny's `/`.
      if dur == 0 {
        return Err("divide error");
      }
      PercentBounds(timePos, dur);
      var percent := (timePos * 100) / dur;
      if percent > 100 {
        percent := 100;
      }
      r := Ok(Progress(percent, timePos, dur));
    }

    /**
     * `seek(secs)`: with a known duration, the target `max(pos + secs, 0)`
     * is sought when it does not pass the end, and is "exceed max length"
     * (with no seek) when it does. With a zero duration `get_progress` fails
     * and `seek` does nothing and reports success.
     */
    method Seek(secs: int) returns (r: Result<(), string>)
      requires Valid()
      requires IsI64(secs)
      requires DurationSecs() != 0 ==> PositionSecs() + secs <= I64_MAX
      modifies this
      ensures Valid()
      ensures old(DurationSecs()) == 0 ==> r == Ok(()) && calls == old(calls)
      ensures old(DurationSecs()) != 0 ==>
        var target := if old(PositionSecs()) + secs < 0 then 0 else old(PositionSecs()) + secs;
        && (r.Err? <==> target > old(DurationSecs()))
        && (r.Err? ==> r.error == "exceed max length" && calls == old(calls))
        && (r.Ok? ==> calls == old(calls) + [SeekTo(target)] && target * NANOS_PER_SEC < U64_LIMIT)
      ensures paused == old(paused) && volume == old(volume) && gapless == old(gapless)
      ensures uri == old(uri) && position == old(position) && duration == old(duration)
      ensures sent == old(sent)
    {
      var progress := GetProgress();
      if progress.Ok? {
        var seekPos := progress.value.position + secs;
        if seekPos < 0 {
          seekPos := 0;
        }
        if seekPos > progress.value.duration {
          return Err("exceed max length");
        }
        assert seekPos * NANOS_PER_SEC <= duration.value;
        LastVolumeAppend(calls, [SeekTo(seekPos)]);
        calls := calls + [SeekTo(seekPos)];
      }
      r := Ok(());
    }
  }

  /**
   * Pausing twice leaves the player paused, as pausing once does, and
   * resuming twice leaves it playing: `is_paused()` read after each of the
   * four calls. Only the command log and `paused` change.
   */
  method PauseResumeIdempotent(g: GStreamer) returns (p1: bool, p2: bool, r1: bool, r2: bool)
    requires g.Valid()
    modifies g
    ensures p1 && p2 && !r1 && !r2
    ensures g.Valid() && !g.IsPaused()
    ensures g.calls == old(g.calls) + [PausePlaying, PausePlaying, StartPlaying, StartPlaying]
    ensures g.volume == old(g.volume) && g.gapless == old(g.gapless) && g.uri == old(g.uri)
    ensures g.position == old(g.position) && g.duration == old(g.duration) && g.sent == old(g.sent)
  {
    g.Pause();
    p1 := g.IsPaused();
    g.Pause();
    p2 := g.IsPaused();
    g.Resume();
    r1 := g.IsPaused();
    g.Resume();
    r2 := g.IsPaused();
  }

  /** From a volume in [0, 100], volume-up and volume-down stay in [0, 100], and `set_volume` always lands there. */
  lemma VolumeStaysInRange(v: int, x: int)
    requires 0 <= v <= 100
    ensures 0 <= VolumeStepUp(v) <= 100
    ensures 0 <= VolumeStepDown(v) <= 100
    ensures 0 <= ClampVolume(x) <= 100
  {
  }
}
