/**
 * The simulated playback engine of Services/MockPlaybackService.swift as a
 * value: its four private fields gathered in `Engine`, and one function per
 * command giving the engine after that command. The class in module
 * MockPlayback is proved against these functions; the lemmas here state what
 * the commands promise.
 */
module PlaybackModel {
  import opened Wrappers
  import opened Tracks
  import opened PlaybackTypes
  import opened Arithmetic

  /** `Constants` of the engine. */
  const AdvanceUpOne: int := 1
  const AdvanceDownOne: int := -1
  /** Seconds into a track after which "previous" restarts it instead. */
  const MaxDurationSkipPrev: real := 3.0
  /** Seconds added by one timer firing. */
  const RefreshRate: real := 1.0 / 30.0

  /**
   * `queue`, `queueIndex`, `timer` (scheduled or not) and `state`.
   */
  datatype Engine = Engine(queue: seq<Track>, queueIndex: int, timerRunning: bool, state: PlaybackState)

  /**
   * What every command keeps: the index is a position of a loaded queue, a
   * current track is the track at that position and supplies the duration,
   * and without a current track the engine is stopped at time 0 with
   * duration 0. Time never goes below 0.
   */
  predicate WellFormed(e: Engine)
  {
    && 0 <= e.queueIndex
    && (|e.queue| > 0 ==> e.queueIndex < |e.queue|)
    && 0.0 <= e.state.currentTime
    && (e.state.currentTrack.Some? ==>
          && |e.queue| > 0
          && e.state.currentTrack.value == e.queue[e.queueIndex]
          && e.state.duration == e.state.currentTrack.value.duration)
    && (e.state.currentTrack.None? ==>
          && !e.state.isPlaying
          && e.state.currentTime == 0.0
          && e.state.duration == 0.0)
  }

  /** The playhead does not lie beyond the end of the track. */
  predicate Bounded(e: Engine)
  {
    e.state.currentTime <= e.state.duration
  }

  /** Every track of `q` has a duration of at least 0. */
  predicate NonNegativeDurations(q: seq<Track>)
  {
    forall i :: 0 <= i < |q| ==> q[i].duration >= 0.0
  }

  /** The engine as constructed: nothing loaded, stopped, repeat off. */
  function Initial(): (e: Engine)
    ensures WellFormed(e) && Bounded(e)
    ensures e.queue == [] && e.state.currentTrack == None && !e.state.isPlaying && !e.timerRunning
    ensures e.state.repeatMode == Off
  {
    Engine([], 0, false, PlaybackState(None, false, 0.0, 0.0, Off))
  }

  // ---------------------------------------------------------------------
  // The three ways a navigation step can end

  /** `restartTrack()`: only the playhead moves, back to 0. */
  function Restarted(e: Engine): (r: Engine)
  {
    e.(state := e.state.(currentTime := 0.0))
  }

  /** Switching to the start of track `k`, keeping play/pause and repeat mode. */
  function MoveTo(e: Engine, k: int): (r: Engine)
    requires 0 <= k < |e.queue|
    ensures WellFormed(r)
  {
    e.(queueIndex := k,
       state := PlaybackState(Some(e.queue[k]), e.state.isPlaying, 0.0, e.queue[k].duration, e.state.repeatMode))
  }

  /** The exhausted terminal state: no track, stopped, repeat reset to off; the index is left as it was. */
  function Exhausted(e: Engine): (r: Engine)
  {
    e.(state := PlaybackState(None, false, 0.0, 0.0, Off))
  }

  /** `restartTrack` touches `currentTime` and nothing else. */
  lemma RestartTouchesOnlyTime(e: Engine)
    ensures var r := Restarted(e);
      && r.queue == e.queue && r.queueIndex == e.queueIndex && r.timerRunning == e.timerRunning
      && r.state.currentTrack == e.state.currentTrack && r.state.isPlaying == e.state.isPlaying
      && r.state.duration == e.state.duration && r.state.repeatMode == e.state.repeatMode
      && r.state.currentTime == 0.0
  {
  }

  // ---------------------------------------------------------------------
  // Commands

  /** `load(queue:)`: rejects an empty queue; otherwise stands stopped at the start of its first track. */
  function Load(e: Engine, q: seq<Track>): (r: Result<Engine, PlaybackError>)
    ensures r.Failure? <==> q == []
    ensures r.Failure? ==> r.error == EmptyQueue
    ensures r.Success? ==> WellFormed(r.value) && r.value.queue == q
  {
    if |q| == 0 then Failure(EmptyQueue)
    else Success(Engine(q, 0, e.timerRunning,
                        PlaybackState(Some(q[0]), false, 0.0, q[0].duration, e.state.repeatMode)))
  }

  /** `play()`: a no-op on an empty queue; from the exhausted state it starts over at the first track. */
  function Play(e: Engine): (r: Engine)
    requires WellFormed(e)
    ensures WellFormed(r)
  {
    if |e.queue| == 0 then e
    else
      var from :=
        if e.state.currentTrack.None?
        then e.(queueIndex := 0,
                state := PlaybackState(Some(e.queue[0]), true, 0.0, e.queue[0].duration, e.state.repeatMode))
        else e;
      from.(state := from.state.(isPlaying := true), timerRunning := true)
  }

  /** `pause()` */
  function Pause(e: Engine): (r: Engine)
    requires WellFormed(e)
    ensures WellFormed(r)
  {
    e.(state := e.state.(isPlaying := false), timerRunning := false)
  }

  /** `toggle()` */
  function Toggle(e: Engine): (r: Engine)
    requires WellFormed(e)
    ensures WellFormed(r)
  {
    if e.state.isPlaying then Pause(e) else Play(e)
  }

  /** `max(0, min(seconds, duration))` */
  function Clamp(seconds: real, duration: real): (r: real)
    ensures 0.0 <= r
    ensures 0.0 <= duration ==> r <= duration
    ensures 0.0 <= seconds <= duration ==> r == seconds
    ensures seconds < 0.0 ==> r == 0.0
    ensures 0.0 <= duration < seconds ==> r == duration
  {
    Max(0.0, Min(seconds, duration))
  }

  /** `seek(to:)` */
  function Seek(e: Engine, seconds: real): (r: Engine)
    requires WellFormed(e)
    ensures WellFormed(r)
  {
    e.(state := e.state.(currentTime := Clamp(seconds, e.state.duration)))
  }

  /** The repeat-mode cycle of `toggleRepeatMode()`. */
  function NextRepeatMode(m: RepeatMode): (r: RepeatMode)
    ensures r != m
  {
    match m
    case Off => All
    case All => One
    case One => Off
  }

  /** `toggleRepeatMode()` */
  function ToggleRepeatMode(e: Engine): (r: Engine)
    requires WellFormed(e)
    ensures WellFormed(r)
  {
    e.(state := e.state.(repeatMode := NextRepeatMode(e.state.repeatMode)))
  }

  /**
   * `advance(by:)`, shared by `skipNext` (+1), `skipPrevious` (-1) and track
   * completion (+1). Its callers only ever pass one of the two constants.
   */
  function Advance(e: Engine, delta: int): (r: Engine)
    requires WellFormed(e)
    requires delta == AdvanceUpOne || delta == AdvanceDownOne
    ensures WellFormed(r)
    ensures r.queue == e.queue && r.timerRunning == e.timerRunning
    ensures r.state.isPlaying ==> e.state.isPlaying
  {
    if |e.queue| == 0 then e
    else if delta == AdvanceDownOne && e.state.currentTime > MaxDurationSkipPrev then Restarted(e)
    else
      match e.state.repeatMode
      case One => Restarted(e)
      // Both operands are non-negative here, so Dafny's % agrees with Swift's.
      case All => MoveTo(e, (e.queueIndex + delta + |e.queue|) % |e.queue|)
      case Off =>
        var newIndex := e.queueIndex + delta;
        if newIndex == -1 then Restarted(e)
        else if newIndex == |e.queue| then Exhausted(e)
        else MoveTo(e, newIndex)
  }

  function SkipNext(e: Engine): (r: Engine)
    requires WellFormed(e)
    ensures WellFormed(r)
  {
    Advance(e, AdvanceUpOne)
  }

  function SkipPrevious(e: Engine): (r: Engine)
    requires WellFormed(e)
    ensures WellFormed(r)
  {
    Advance(e, AdvanceDownOne)
  }

  /**
   * One firing of the engine's timer. Without a scheduled timer there is no
   * firing; while paused the closure returns at once. Otherwise the playhead
   * moves by `RefreshRate`, and reaching the duration counts as a skip forward.
   */
  function Tick(e: Engine): (r: Engine)
    requires WellFormed(e)
    ensures WellFormed(r)
    ensures r.queue == e.queue && r.timerRunning == e.timerRunning
  {
    if !e.timerRunning || !e.state.isPlaying then e
    else
      var moved := e.(state := e.state.(currentTime := e.state.currentTime + RefreshRate));
      if moved.state.currentTime >= moved.state.duration then Advance(moved, AdvanceUpOne)
      else moved
  }

  // ---------------------------------------------------------------------
  // load

  /** A rejected load leaves the engine as it was; the only error raised is `emptyQueue`, never `loadFailed`. */
  lemma LoadEmptyRejected(e: Engine)
    ensures Load(e, []) == Failure(EmptyQueue)
    ensures forall q :: Load(e, q).Failure? ==> Load(e, q).error != LoadFailed
  {
  }

  /**
   * A successful load stands stopped at time 0 on the first track, with
   * that track's duration and the old repeat mode. A scheduled timer is not
   * cancelled; its later firings do nothing until `play`.
   */
  lemma LoadStartsAtFirstTrack(e: Engine, q: seq<Track>)
    requires q != []
    ensures Load(e, q).Success?
    ensures var r := Load(e, q).value;
      && r.queueIndex == 0 && r.state.currentTrack == Some(q[0])
      && !r.state.isPlaying && r.state.currentTime == 0.0 && r.state.duration == q[0].duration
      && r.state.repeatMode == e.state.repeatMode
      && r.timerRunning == e.timerRunning && r.queue == q
  {
  }

  // ---------------------------------------------------------------------
  // play, pause, toggle

  /**
   * `play` does nothing on an empty queue; otherwise it ends playing with the
   * timer scheduled, at the same track and time if there was one, else at
   * the start of the first track.
   */
  lemma PlayStarts(e: Engine)
    requires WellFormed(e)
    ensures |e.queue| == 0 ==> Play(e) == e
    ensures |e.queue| > 0 ==> Play(e).state.isPlaying && Play(e).timerRunning
    ensures |e.queue| > 0 && e.state.currentTrack.Some? ==>
      Play(e) == e.(state := e.state.(isPlaying := true), timerRunning := true)
    ensures |e.queue| > 0 && e.state.currentTrack.None? ==>
      Play(e) == MoveTo(e, 0).(state := MoveTo(e, 0).state.(isPlaying := true), timerRunning := true)
  {
  }

  /** `pause` stops playback and drops the timer and changes nothing else. */
  lemma PauseStops(e: Engine)
    requires WellFormed(e)
    ensures !Pause(e).state.isPlaying && !Pause(e).timerRunning
    ensures Pause(e).queue == e.queue && Pause(e).queueIndex == e.queueIndex
    ensures Pause(e).state.currentTrack == e.state.currentTrack
    ensures Pause(e).state.currentTime == e.state.currentTime
    ensures Pause(e) == e.(state := e.state.(isPlaying := false), timerRunning := false)
  {
  }

  /** Toggling twice while playing (timer scheduled) or paused on a track (no timer) restores the engine. */
  lemma ToggleTwiceRestores(e: Engine)
    requires WellFormed(e)
    requires e.state.isPlaying == e.timerRunning
    requires e.state.currentTrack.Some?
    ensures Toggle(Toggle(e)) == e
  {
  }

  // ---------------------------------------------------------------------
  // seek

  /** `seek` moves only the playhead, into [0, duration], and seeking twice to the same place is seeking once. */
  lemma SeekClamps(e: Engine, seconds: real)
    requires WellFormed(e)
    ensures var r := Seek(e, seconds);
      && r.queue == e.queue && r.queueIndex == e.queueIndex && r.timerRunning == e.timerRunning
      && r.state.currentTrack == e.state.currentTrack && r.state.isPlaying == e.state.isPlaying
      && r.state.duration == e.state.duration && r.state.repeatMode == e.state.repeatMode
      && r.state.currentTime == Clamp(seconds, e.state.duration)
    ensures e.state.duration >= 0.0 ==> Bounded(Seek(e, seconds))
    ensures Seek(Seek(e, seconds), seconds) == Seek(e, seconds)
  {
  }

  // ---------------------------------------------------------------------
  // repeat mode

  /** off -> all -> one -> off: three toggles come back, and only the repeat mode changes. */
  lemma {:induction false} RepeatModeCycle(e: Engine)
    requires WellFormed(e)
    ensures NextRepeatMode(Off) == All && NextRepeatMode(All) == One && NextRepeatMode(One) == Off
    ensures ToggleRepeatMode(ToggleRepeatMode(ToggleRepeatMode(e))) == e
    ensures ToggleRepeatMode(e).queue == e.queue && ToggleRepeatMode(e).queueIndex == e.queueIndex
    ensures ToggleRepeatMode(e).state == e.state.(repeatMode := NextRepeatMode(e.state.repeatMode))
    ensures ToggleRepeatMode(e) == e.(state := e.state.(repeatMode := NextRepeatMode(e.state.repeatMode)))
  {
  }

  // ---------------------------------------------------------------------
  // advance

  /** "Previous" more than 3 seconds into a track restarts it, whatever the repeat mode. */
  lemma BackSkipRestarts(e: Engine)
    requires WellFormed(e) && |e.queue| > 0
    requires e.state.currentTime > MaxDurationSkipPrev
    ensures SkipPrevious(e) == Restarted(e)
  {
  }

  /** Under repeat-one every navigation, either way, restarts the current track. */
  lemma RepeatOneRestarts(e: Engine, delta: int)
    requires WellFormed(e) && |e.queue| > 0
    requires delta == AdvanceUpOne || delta == AdvanceDownOne
    requires e.state.repeatMode == One
    ensures Advance(e, delta) == Restarted(e)
  {
  }

  /** Under repeat-all navigation wraps around the queue in both directions and keeps play/pause. */
  lemma RepeatAllWraps(e: Engine, delta: int)
    requires WellFormed(e) && |e.queue| > 0
    requires delta == AdvanceUpOne || delta == AdvanceDownOne
    requires e.state.repeatMode == All
    requires !(delta == AdvanceDownOne && e.state.currentTime > MaxDurationSkipPrev)
    ensures var n := |e.queue|; var k := (e.queueIndex + delta + n) % n; var r := Advance(e, delta);
      && 0 <= k < n
      && r == MoveTo(e, k)
      && r.state.isPlaying == e.state.isPlaying
      && r.state.currentTime == 0.0
      && r.state.duration == e.queue[k].duration
      && (e.queueIndex == n - 1 && delta == AdvanceUpOne ==> r.queueIndex == 0)
      && (e.queueIndex == 0 && delta == AdvanceDownOne ==> r.queueIndex == n - 1)
  {
    var n := |e.queue|;
    var a := e.queueIndex + delta + n;
    if a == 2 * n {
      ModUnique(a, n, 2);
    } else if a >= n {
      ModUnique(a, n, 1);
    } else {
      ModUnique(a, n, 0);
    }
    assert Advance(e, delta) == MoveTo(e, a % n);
  }

  /** Under repeat-off: "previous" at the first track restarts it. */
  lemma RepeatOffClampsAtStart(e: Engine)
    requires WellFormed(e) && |e.queue| > 0
    requires e.state.repeatMode == Off && e.queueIndex == 0
    ensures SkipPrevious(e) == Restarted(e)
  {
  }

  /** Under repeat-off: "next" at the last track exhausts the queue and leaves the index where it was. */
  lemma RepeatOffExhausts(e: Engine)
    requires WellFormed(e) && |e.queue| > 0
    requires e.state.repeatMode == Off && e.queueIndex == |e.queue| - 1
    ensures var r := SkipNext(e);
      && r.state == PlaybackState(None, false, 0.0, 0.0, Off)
      && r.queueIndex == e.queueIndex && r.queue == e.queue
  {
  }

  /** Under repeat-off: a step that stays inside the queue moves there and keeps play/pause. */
  lemma RepeatOffMoves(e: Engine, delta: int)
    requires WellFormed(e)
    requires delta == AdvanceUpOne || delta == AdvanceDownOne
    requires e.state.repeatMode == Off
    requires 0 <= e.queueIndex + delta < |e.queue|
    requires !(delta == AdvanceDownOne && e.state.currentTime > MaxDurationSkipPrev)
    ensures Advance(e, delta) == MoveTo(e, e.queueIndex + delta)
    ensures var r := Advance(e, delta); var k := e.queueIndex + delta;
      && r.queue == e.queue && r.queueIndex == k && r.timerRunning == e.timerRunning
      && r.state == PlaybackState(Some(e.queue[k]), e.state.isPlaying, 0.0, e.queue[k].duration, e.state.repeatMode)
  {
  }

  /** Stepping forward and then back around a ring of `n` positions returns to the start. */
  lemma WrapRoundTrip(i: int, n: int)
    requires 0 <= i < n
    ensures (((i + 1 + n) % n) - 1 + n) % n == i
  {
    if i + 1 < n {
      ModUnique(i + 1 + n, n, 1);
      ModUnique(i + n, n, 1);
    } else {
      ModUnique(i + 1 + n, n, 2);
      ModUnique(n - 1, n, 0);
    }
  }

  /** Under repeat-all, "next" then "previous" comes back to the start of the track one was on. */
  lemma RepeatAllNextThenPrevious(e: Engine)
    requires WellFormed(e) && |e.queue| > 0
    requires e.state.repeatMode == All
    ensures SkipPrevious(SkipNext(e)) == MoveTo(e, e.queueIndex)
  {
    var n := |e.queue|;
    RepeatAllWraps(e, AdvanceUpOne);
    var x := SkipNext(e);
    RepeatAllWraps(x, AdvanceDownOne);
    WrapRoundTrip(e.queueIndex, n);
  }

  /**
   * "Next" then "previous" comes back to the start of the track one was on
   * under repeat-off away from the last track; under repeat-one both
   * restart the track.
   */
  lemma SkipNextThenPrevious(e: Engine)
    requires WellFormed(e) && |e.queue| > 0
    ensures e.state.repeatMode == All || (e.state.repeatMode == Off && e.queueIndex + 1 < |e.queue|) ==>
      SkipPrevious(SkipNext(e)) == MoveTo(e, e.queueIndex)
    ensures e.state.repeatMode == One ==> SkipPrevious(SkipNext(e)) == Restarted(e)
  {
    if e.state.repeatMode == All {
      RepeatAllNextThenPrevious(e);
    }
  }

  /**
   * Whatever had been playing, once the queue is exhausted under repeat-off
   * the index stays on the last track: "next" stays exhausted, "previous"
   * lands on the second-to-last track (not the last), and `play` starts over
   * at the first track.
   */
  lemma ExhaustedActsFromLastIndex(e: Engine)
    requires WellFormed(e) && |e.queue| >= 2
    requires e.state.repeatMode == Off && e.queueIndex == |e.queue| - 1
    ensures var x := SkipNext(e);
      && SkipNext(x) == x
      && SkipPrevious(x) == MoveTo(x, |e.queue| - 2)
      && Play(x).queueIndex == 0 && Play(x).state.currentTrack == Some(e.queue[0]) && Play(x).state.isPlaying
  {
  }

  // ---------------------------------------------------------------------
  // The clock

  /** A firing without a timer or while paused changes nothing. */
  lemma TickIdle(e: Engine)
    requires WellFormed(e)
    requires !e.timerRunning || !e.state.isPlaying
    ensures Tick(e) == e
  {
  }

  /** Short of the end of the track, a firing only moves the playhead by 1/30 s. */
  lemma TickMovesPlayhead(e: Engine)
    requires WellFormed(e) && e.timerRunning && e.state.isPlaying
    requires e.state.currentTime + RefreshRate < e.state.duration
    ensures Tick(e) == e.(state := e.state.(currentTime := e.state.currentTime + RefreshRate))
  {
  }

  /** Reaching the end of the track is exactly a skip forward from where the engine was. */
  lemma TickCompletionIsSkipNext(e: Engine)
    requires WellFormed(e) && e.timerRunning && e.state.isPlaying
    requires e.state.currentTime + RefreshRate >= e.state.duration
    ensures Tick(e) == SkipNext(e)
  {
  }

  /** `k` firings of the timer in a row. */
  function Ticks(e: Engine, k: nat): (r: Engine)
    requires WellFormed(e)
    ensures WellFormed(r)
    ensures r.queue == e.queue && r.timerRunning == e.timerRunning
  {
    if k == 0 then e else Tick(Ticks(e, k - 1))
  }

  /** While the end is not reached, `k` firings advance the playhead by `k / 30` seconds and change nothing else. */
  lemma {:induction false} TicksAccumulate(e: Engine, k: nat)
    requires WellFormed(e) && e.timerRunning && e.state.isPlaying
    requires e.state.currentTime + (k as real) * RefreshRate < e.state.duration
    ensures Ticks(e, k) == e.(state := e.state.(currentTime := e.state.currentTime + (k as real) * RefreshRate))
  {
    if k > 0 {
      TicksAccumulate(e, k - 1);
      var before := Ticks(e, k - 1);
      assert before.state.currentTime + RefreshRate == e.state.currentTime + (k as real) * RefreshRate;
      TickMovesPlayhead(before);
    }
  }

  // ---------------------------------------------------------------------
  // The time bounds

  /** Navigation keeps the playhead inside the track when durations are non-negative. */
  lemma AdvanceKeepsBounded(e: Engine, delta: int)
    requires WellFormed(e) && NonNegativeDurations(e.queue)
    requires delta == AdvanceUpOne || delta == AdvanceDownOne
    requires Bounded(e) || |e.queue| > 0
    ensures Bounded(Advance(e, delta))
  {
    if e.state.currentTrack.Some? {
      assert e.queue[e.queueIndex].duration >= 0.0;
    }
    if |e.queue| > 0 {
      var n := |e.queue|;
      var k := (e.queueIndex + delta + n) % n;
      assert e.queue[k].duration >= 0.0;
      if 0 <= e.queueIndex + delta < n {
        assert e.queue[e.queueIndex + delta].duration >= 0.0;
      }
    }
  }

  /** A timer firing keeps the playhead inside the track when durations are non-negative. */
  lemma TickKeepsBounded(e: Engine)
    requires WellFormed(e) && NonNegativeDurations(e.queue)
    requires Bounded(e)
    ensures Bounded(Tick(e))
  {
    if e.timerRunning && e.state.isPlaying {
      var moved := e.(state := e.state.(currentTime := e.state.currentTime + RefreshRate));
      if moved.state.currentTime >= moved.state.duration {
        assert e.state.currentTrack.Some?;
        assert e.queue[e.queueIndex].duration >= 0.0;
        AdvanceKeepsBounded(moved, AdvanceUpOne);
      }
    }
  }

  /** Every command the engine accepts, the timer's firing included. */
  datatype Command =
    | LoadQueue(tracks: seq<Track>)
    | PlayCommand
    | PauseCommand
    | ToggleCommand
    | SeekTo(seconds: real)
    | SkipNextCommand
    | SkipPreviousCommand
    | ToggleRepeatCommand
    | TimerFired

  /** The engine after one command; a rejected load leaves it as it was. */
  function Apply(e: Engine, c: Command): (r: Engine)
    requires WellFormed(e)
    ensures WellFormed(r)
  {
    match c
    case LoadQueue(q) => (match Load(e, q) case Success(e') => e' case Failure(_) => e)
    case PlayCommand => Play(e)
    case PauseCommand => Pause(e)
    case ToggleCommand => Toggle(e)
    case SeekTo(s) => Seek(e, s)
    case SkipNextCommand => SkipNext(e)
    case SkipPreviousCommand => SkipPrevious(e)
    case ToggleRepeatCommand => ToggleRepeatMode(e)
    case TimerFired => Tick(e)
  }

  /** The engine after a sequence of commands. */
  function Run(e: Engine, cs: seq<Command>): (r: Engine)
    requires WellFormed(e)
    ensures WellFormed(r)
    decreases |cs|
  {
    if cs == [] then e else Run(Apply(e, cs[0]), cs[1..])
  }

  /** Only tracks of non-negative duration get loaded by `cs`. */
  predicate LoadsNonNegative(cs: seq<Command>)
  {
    forall i :: 0 <= i < |cs| && cs[i].LoadQueue? ==> NonNegativeDurations(cs[i].tracks)
  }

  /** One command keeps 0 <= currentTime <= duration when every track involved has a non-negative duration. */
  lemma ApplyKeepsBounded(e: Engine, c: Command)
    requires WellFormed(e) && Bounded(e) && NonNegativeDurations(e.queue)
    requires c.LoadQueue? ==> NonNegativeDurations(c.tracks)
    ensures Bounded(Apply(e, c)) && NonNegativeDurations(Apply(e, c).queue)
  {
    match c
    case LoadQueue(q) =>
      if q != [] { assert q[0].duration >= 0.0; }
    case PlayCommand =>
      if |e.queue| > 0 { assert e.queue[0].duration >= 0.0; }
    case PauseCommand =>
    case ToggleCommand =>
      if |e.queue| > 0 { assert e.queue[0].duration >= 0.0; }
    case SeekTo(s) =>
      if e.state.currentTrack.Some? { assert e.queue[e.queueIndex].duration >= 0.0; }
    case SkipNextCommand => AdvanceKeepsBounded(e, AdvanceUpOne);
    case SkipPreviousCommand => AdvanceKeepsBounded(e, AdvanceDownOne);
    case ToggleRepeatCommand =>
    case TimerFired => TickKeepsBounded(e);
  }

  /**
   * The time invariant of the engine: starting inside the track, any
   * sequence of commands that only loads tracks of non-negative duration
   * keeps 0 <= currentTime <= duration.
   */
  lemma {:induction false} RunKeepsBounded(e: Engine, cs: seq<Command>)
    requires WellFormed(e) && Bounded(e) && NonNegativeDurations(e.queue)
    requires LoadsNonNegative(cs)
    ensures Bounded(Run(e, cs)) && 0.0 <= Run(e, cs).state.currentTime
    decreases |cs|
  {
    if cs != [] {
      ApplyKeepsBounded(e, cs[0]);
      assert LoadsNonNegative(cs[1..]) by {
        forall i | 0 <= i < |cs[1..]| && cs[1..][i].LoadQueue?
          ensures NonNegativeDurations(cs[1..][i].tracks)
        {
          assert cs[1..][i] == cs[i + 1];
        }
      }
      RunKeepsBounded(Apply(e, cs[0]), cs[1..]);
    }
  }

  // ---------------------------------------------------------------------
  // An end-to-end run

  /**
   * Queue [A (10 s), B (20 s)], repeat off: after `play`, 300 firings
   * (10 s) carry the engine to the start of B, still playing; "next" then
   * exhausts the queue.
   */
  lemma TwoTrackScenario(a: Track, b: Track)
    requires a.duration == 10.0 && b.duration == 20.0
    ensures Load(Initial(), [a, b]).Success?
    ensures var playing := Play(Load(Initial(), [a, b]).value);
      var after := Ticks(playing, 300);
      && after.queueIndex == 1 && after.state.currentTrack == Some(b)
      && after.state.isPlaying && after.state.currentTime == 0.0 && after.state.duration == 20.0
      && SkipNext(after).state.currentTrack == None && !SkipNext(after).state.isPlaying
  {
    var playing := Play(Load(Initial(), [a, b]).value);
    TicksAccumulate(playing, 299);
    var nearEnd := Ticks(playing, 299);
    assert nearEnd.state.currentTime == 299.0 / 30.0;
    TickCompletionIsSkipNext(nearEnd);
    assert Ticks(playing, 300) == Tick(nearEnd);
  }
}
