/**
 * `MockPlaybackService` (Services/MockPlaybackService.swift) as a class over
 * the same four fields. Each method is proved to leave the engine as the
 * matching function of module PlaybackModel says, and to post exactly one
 * snapshot when it gets past its guard. `notify()` is modelled by appending
 * the current `state` to the ghost `snapshots`; delivery on the main queue
 * is not modelled. The scheduled timer is the flag `timerRunning`, and one
 * firing of it is the method `Tick`.
 */
module MockPlayback {
  import opened Wrappers
  import opened Tracks
  import opened PlaybackTypes
  import opened Arithmetic
  import PlaybackModel

  class MockPlaybackService {
    var queue: seq<Track>
    var queueIndex: int
    var timerRunning: bool
    var state: PlaybackState
    /** Every snapshot posted to the delegate, oldest first. */
    ghost var snapshots: seq<PlaybackState>

    /** The engine's fields as one value. */
    function Model(): PlaybackModel.Engine
      reads this
    {
      PlaybackModel.Engine(queue, queueIndex, timerRunning, state)
    }

    ghost predicate Valid()
      reads this
    {
      PlaybackModel.WellFormed(Model())
    }

    constructor ()
      ensures Valid() && Model() == PlaybackModel.Initial() && snapshots == []
    {
      queue := [];
      queueIndex := 0;
      timerRunning := false;
      state := PlaybackState(None, false, 0.0, 0.0, Off);
      snapshots := [];
    }

    /** `notify()` */
    ghost method Notify()
      modifies this`snapshots
      ensures snapshots == old(snapshots) + [state]
    {
      snapshots := snapshots + [state];
    }

    /** `start()`: replaces any scheduled timer by a new one. */
    method Start()
      modifies this`timerRunning
      ensures timerRunning
    {
      Stop();
      timerRunning := true;
    }

    /** `stop()` */
    method Stop()
      modifies this`timerRunning
      ensures !timerRunning
    {
      timerRunning := false;
    }

    /** `load(queue:)`; the thrown error is returned as `Fail`. */
    method Load(q: seq<Track>) returns (outcome: Outcome<PlaybackError>)
      requires Valid()
      modifies this
      ensures Valid()
      ensures match PlaybackModel.Load(old(Model()), q)
        case Failure(err) => outcome == Fail(err) && Model() == old(Model()) && snapshots == old(snapshots)
        case Success(e) => outcome == Pass && Model() == e && snapshots == old(snapshots) + [state]
    {
      if |q| == 0 {
        return Fail(EmptyQueue);
      }
      queue := q;
      queueIndex := 0;
      var currTrack := queue[queueIndex];
      state := PlaybackState(Some(currTrack), false, 0.0, currTrack.duration, state.repeatMode);
      Notify();
      outcome := Pass;
    }

    /** `play()` */
    method Play()
      requires Valid()
      modifies this
      ensures Valid()
      ensures Model() == PlaybackModel.Play(old(Model()))
      ensures snapshots == if |old(queue)| == 0 then old(snapshots) else old(snapshots) + [state]
    {
      if |queue| == 0 {
        return;
      }
      if state.currentTrack.None? {
        queueIndex := 0;
        var newTrack := queue[queueIndex];
        state := PlaybackState(Some(newTrack), true, 0.0, newTrack.duration, state.repeatMode);
      }
      state := state.(isPlaying := true);
      Notify();
      Start();
    }

    /** `pause()` */
    method Pause()
      requires Valid()
      modifies this
      ensures Valid()
      ensures Model() == PlaybackModel.Pause(old(Model()))
      ensures snapshots == old(snapshots) + [state]
    {
      state := state.(isPlaying := false);
      Notify();
      Stop();
    }

    /** `toggle()` */
    method Toggle()
      requires Valid()
      modifies this
      ensures Valid()
      ensures Model() == PlaybackModel.Toggle(old(Model()))
      ensures snapshots == if |old(queue)| == 0 && !old(state.isPlaying) then old(snapshots) else old(snapshots) + [state]
    {
      if state.isPlaying {
        Pause();
      } else {
        Play();
      }
    }

    /** `seek(to:)` */
    method Seek(seconds: real)
      requires Valid()
      modifies this
      ensures Valid()
      ensures Model() == PlaybackModel.Seek(old(Model()), seconds)
      ensures snapshots == old(snapshots) + [state]
    {
      state := state.(currentTime := Max(0.0, Min(seconds, state.duration)));
      Notify();
    }

    /** `skipNext()` */
    method SkipNext()
      requires Valid()
      modifies this
      ensures Valid()
      ensures Model() == PlaybackModel.SkipNext(old(Model()))
      ensures snapshots == if |old(queue)| == 0 then old(snapshots) else old(snapshots) + [state]
    {
      Advance(PlaybackModel.AdvanceUpOne);
    }

    /** `skipPrevious()` */
    method SkipPrevious()
      requires Valid()
      modifies this
      ensures Valid()
      ensures Model() == PlaybackModel.SkipPrevious(old(Model()))
      ensures snapshots == if |old(queue)| == 0 then old(snapshots) else old(snapshots) + [state]
    {
      Advance(PlaybackModel.AdvanceDownOne);
    }

    /** `toggleRepeatMode()` */
    method ToggleRepeatMode()
      requires Valid()
      modifies this
      ensures Valid()
      ensures Model() == PlaybackModel.ToggleRepeatMode(old(Model()))
      ensures snapshots == old(snapshots) + [state]
    {
      match state.repeatMode {
        case Off => state := state.(repeatMode := All);
        case All => state := state.(repeatMode := One);
        case One => state := state.(repeatMode := Off);
      }
      Notify();
    }

    /** `advance(by:)` */
    method Advance(delta: int)
      requires Valid()
      requires delta == PlaybackModel.AdvanceUpOne || delta == PlaybackModel.AdvanceDownOne
      modifies this
      ensures Valid()
      ensures Model() == PlaybackModel.Advance(old(Model()), delta)
      ensures snapshots == if |old(queue)| == 0 then old(snapshots) else old(snapshots) + [state]
    {
      if |queue| == 0 {
        return;
      }
      if delta == PlaybackModel.AdvanceDownOne && state.currentTime > PlaybackModel.MaxDurationSkipPrev {
        RestartTrack();
        return;
      }
      match state.repeatMode
      case One =>
        RestartTrack();
      case All =>
        queueIndex := (queueIndex + delta + |queue|) % |queue|;
        var newTrack := queue[queueIndex];
        state := PlaybackState(Some(newTrack), state.isPlaying, 0.0, newTrack.duration, state.repeatMode);
        Notify();
      case Off =>
        var newIndex := queueIndex + delta;
        if newIndex == -1 {
          RestartTrack();
        } else if newIndex == |queue| {
          state := PlaybackState(None, false, 0.0, 0.0, Off);
          Notify();
        } else {
          queueIndex := newIndex;
          var newTrack := queue[queueIndex];
          state := PlaybackState(Some(newTrack), state.isPlaying, 0.0, newTrack.duration, state.repeatMode);
          Notify();
        }
    }

    /** `restartTrack()` */
    method RestartTrack()
      modifies this
      ensures Model() == PlaybackModel.Restarted(old(Model()))
      ensures snapshots == old(snapshots) + [state]
    {
      state := state.(currentTime := 0.0);
      Notify();
    }

    /**
     * One firing of the timer scheduled by `start()`. A timer that was
     * stopped never fires, so then nothing happens.
     */
    method Tick()
      requires Valid()
      modifies this
      ensures Valid()
      ensures Model() == PlaybackModel.Tick(old(Model()))
      ensures snapshots == if old(timerRunning && state.isPlaying) then old(snapshots) + [state] else old(snapshots)
    {
      if !timerRunning || !state.isPlaying {
        return;
      }
      state := state.(currentTime := state.currentTime + PlaybackModel.RefreshRate);
      if state.currentTime >= state.duration {
        Advance(PlaybackModel.AdvanceUpOne);
      } else {
        Notify();
      }
    }
  }

  /**
   * A client that loads a queue and plays it, as the demo screen does, after
   * first trying an empty queue: the rejected load changes nothing, and the
   * load and `play` leave the first track playing with its timer scheduled,
   * after two snapshots.
   */
  method LoadAndPlay(a: Track, b: Track) returns (service: MockPlaybackService)
    ensures fresh(service) && service.Valid()
    ensures service.state.currentTrack == Some(a) && service.state.isPlaying && service.timerRunning
    ensures service.state.currentTime == 0.0 && service.queueIndex == 0
    ensures |service.snapshots| == 2
  {
    service := new MockPlaybackService();
    var rejected := service.Load([]);
    assert rejected == Fail(EmptyQueue) && service.snapshots == [];
    var loaded := service.Load([a, b]);
    service.Play();
  }
}
