# GDMMusicPlayer playback core in Dafny

This project models the core of GDMMusicPlayer, an iOS mini player. It
covers four parts:

- **The simulated playback engine** (`MockPlaybackService`). It owns a queue
  of tracks, a position in the queue, a repeating timer and a `PlaybackState`
  snapshot. It answers `load`, `play`, `pause`, `toggle`, `seek`, `skipNext`,
  `skipPrevious` and `toggleRepeatMode`. Every 1/30 s while playing, the timer
  moves the playhead forward, and reaching the end of a track counts as
  "next".
- **The value types** the engine uses: `RepeatMode`, `PlaybackError`,
  `PlaybackState`, `Track` and `ArtworkSource`.
- **The marquee label** (`RotatingLabel`), which scrolls an overlong text one
  character per step.
- **The player view's bookkeeping** (`MediumPlayerView`): the `m:ss` time
  format, the elapsed/remaining switch of the duration label, the
  repeat-mode icon and labels, when to animate the like button, and when to
  rewrite the title labels.

Layout, one module per file:

| file | module | contents |
|---|---|---|
| wrappers.dfy | Wrappers | `Option` (Swift's `T?`), `Outcome` (a throwing call that returns nothing), `Result` |
| track.dfy | Tracks | `Track`, `ArtworkSource`, the track initializer |
| playback_types.dfy | PlaybackTypes | `RepeatMode`, `PlaybackError`, `PlaybackState` |
| arithmetic.dfy | Arithmetic | `min` and `max` on times, and facts about `%` used by the wrap-around proofs |
| playback_model.dfy | PlaybackModel | the engine as a value `Engine`, one function per command, the lemmas about them, and `Run` over a command sequence |
| mock_playback_service.dfy | MockPlayback | the class `MockPlaybackService`, each method proved to leave the engine as the matching `PlaybackModel` function says |
| rotating_label.dfy | RotatingText | `Rotate`, the index cycle, and the class `RotatingLabel` |
| time_format.dfy | TimeFormat | Swift rounding, integer division and remainder, decimal text, `%02d`, and `Mmss` |
| medium_player_view.dfy | MediumPlayer | `PlayerViewState`, the icon and label mappings, the duration label, and the class `MediumPlayerView` |

Modelling choices:

- Time (`TimeInterval`) is `real`. Arithmetic on it is exact.
- The engine's `timer` is the flag `timerRunning`. One firing of the
  scheduled closure is the method `Tick`. A stopped timer never fires, so
  `Tick` then does nothing.
- `notify()` appends the current `state` to the ghost sequence `snapshots`.
  Every command that gets past its guard posts exactly one snapshot, and each
  method's contract says so.
- The engine's invariant `WellFormed` says:
  - the index lies inside a loaded queue;
  - a current track is the track at that index and supplies the duration;
  - without a track, the engine is stopped at time 0 with duration 0;
  - time is never negative.
- The further bound `currentTime <= duration` (`Bounded`) is proved for any
  command sequence that only loads tracks of non-negative duration.
  `RunKeepsBounded` proves it, by induction over the sequence.
- `RotatingLabel`'s width measurement is the input `shouldScroll`.
- The view's UIKit controls become fields that hold what each control shows:
  texts, icon names and highlight flags.

Three facts about the code that the model keeps:

- `load(queue:)` does not stop a running timer. Later firings do nothing,
  because the load leaves the engine paused (`LoadStartsAtFirstTrack`).
- When a firing exhausts the queue, the timer stays scheduled and idles,
  because `isPlaying` is then false.
- The engine keeps `0 <= currentTime <= duration` only when track durations
  are non-negative. `Track.init` does not demand that.

## Model

| member | source | states |
|---|---|---|
| `Wrappers.Option.GetOr` | GDMMusicPlayer/GDMMusicPlayer/Views/RotatingLabel.swift:24 | `text ?? ""`: the wrapped value when present, the default otherwise |
| `Tracks.MakeTrack` | GDMMusicPlayer/GDMMusicPlayer/Models/Track.swift:16-24 | the initializer stores title, artist, duration and artwork exactly as passed, with no requirement on the duration |
| `Tracks.MakeTrackDefaultArtwork` | GDMMusicPlayer/GDMMusicPlayer/Models/Track.swift:19 | leaving out the artwork argument gives `nil` artwork |
| `Tracks.ArtworkIsAssetOrUrl` | GDMMusicPlayer/GDMMusicPlayer/Models/ArtworkSource.swift:9-12 | present artwork is exactly one of an asset name or a URL |
| `PlaybackTypes.RepeatModeCases` | GDMMusicPlayer/GDMMusicPlayer/Services/PlaybackTypes.swift:9-13 | the repeat mode is one of three pairwise distinct values |
| `PlaybackTypes.FieldAssignmentIsLocal` | GDMMusicPlayer/GDMMusicPlayer/Services/PlaybackTypes.swift:20-26 | assigning `isPlaying` or `currentTime` of a snapshot leaves its other four fields as they were |
| `PlaybackModel.Initial` | GDMMusicPlayer/GDMMusicPlayer/Services/MockPlaybackService.swift:19-22 | a new engine has an empty queue, no track, is stopped with no timer and repeat off, and meets both invariants |
| `PlaybackModel.MoveTo` | GDMMusicPlayer/GDMMusicPlayer/Services/MockPlaybackService.swift:104-106 | switching to the start of a queue position keeps the engine well formed |
| `PlaybackModel.RestartTouchesOnlyTime` | GDMMusicPlayer/GDMMusicPlayer/Services/MockPlaybackService.swift:113-116 | `restartTrack` sets `currentTime` to 0 and changes no other field |
| `PlaybackModel.Load` | GDMMusicPlayer/GDMMusicPlayer/Services/MockPlaybackService.swift:24-31 | a load fails exactly for the empty queue, always with `emptyQueue`; a successful one is well formed and holds the new queue |
| `PlaybackModel.LoadEmptyRejected` | GDMMusicPlayer/GDMMusicPlayer/Services/MockPlaybackService.swift:24-25 | the empty queue is rejected with `emptyQueue`, and no load ever fails with `loadFailed` |
| `PlaybackModel.LoadStartsAtFirstTrack` | GDMMusicPlayer/GDMMusicPlayer/Services/MockPlaybackService.swift:26-29 | a non-empty load stands paused at time 0 on the first track with its duration, keeps the repeat mode and does not touch the timer |
| `PlaybackModel.Play` | GDMMusicPlayer/GDMMusicPlayer/Services/MockPlaybackService.swift:33-43 | `play` keeps the engine well formed |
| `PlaybackModel.PlayStarts` | GDMMusicPlayer/GDMMusicPlayer/Services/MockPlaybackService.swift:33-43 | no-op on an empty queue; otherwise ends playing with the timer scheduled, at the same track and time, or at the start of the first track when none was current |
| `PlaybackModel.Pause` | GDMMusicPlayer/GDMMusicPlayer/Services/MockPlaybackService.swift:45-49 | `pause` keeps the engine well formed |
| `PlaybackModel.PauseStops` | GDMMusicPlayer/GDMMusicPlayer/Services/MockPlaybackService.swift:45-49 | `pause` ends stopped with no timer, at the same queue position, track and time, and changes nothing else |
| `PlaybackModel.Toggle` | GDMMusicPlayer/GDMMusicPlayer/Services/MockPlaybackService.swift:51-53 | `toggle` keeps the engine well formed |
| `PlaybackModel.ToggleTwiceRestores` | GDMMusicPlayer/GDMMusicPlayer/Services/MockPlaybackService.swift:51-53 | on a track, with the timer scheduled exactly while playing, two toggles restore the engine |
| `PlaybackModel.Clamp` | GDMMusicPlayer/GDMMusicPlayer/Services/MockPlaybackService.swift:56 | `max(0, min(s, d))` is never negative, at most `d` when `d >= 0`, `s` inside the range, 0 below it and `d` above it |
| `PlaybackModel.Seek` | GDMMusicPlayer/GDMMusicPlayer/Services/MockPlaybackService.swift:55-59 | `seek` keeps the engine well formed |
| `PlaybackModel.SeekClamps` | GDMMusicPlayer/GDMMusicPlayer/Services/MockPlaybackService.swift:55-57 | `seek` moves only the playhead, to the clamped time, keeps it inside the track, and seeking twice to one place is seeking once |
| `PlaybackModel.NextRepeatMode` | GDMMusicPlayer/GDMMusicPlayer/Services/MockPlaybackService.swift:70-74 | every step changes the repeat mode |
| `PlaybackModel.ToggleRepeatMode` | GDMMusicPlayer/GDMMusicPlayer/Services/MockPlaybackService.swift:69-76 | `toggleRepeatMode` keeps the engine well formed |
| `PlaybackModel.RepeatModeCycle` | GDMMusicPlayer/GDMMusicPlayer/Services/MockPlaybackService.swift:69-76 | off to all to one to off; three toggles restore the engine, and one toggle changes only the repeat mode (queue, index, timer and the rest of the state kept) |
| `PlaybackModel.Advance` | GDMMusicPlayer/GDMMusicPlayer/Services/MockPlaybackService.swift:79-111 | navigation keeps the engine well formed, keeps the queue and the timer, and never starts playback |
| `PlaybackModel.SkipNext` | GDMMusicPlayer/GDMMusicPlayer/Services/MockPlaybackService.swift:61-63 | "next" keeps the engine well formed |
| `PlaybackModel.SkipPrevious` | GDMMusicPlayer/GDMMusicPlayer/Services/MockPlaybackService.swift:65-67 | "previous" keeps the engine well formed |
| `PlaybackModel.BackSkipRestarts` | GDMMusicPlayer/GDMMusicPlayer/Services/MockPlaybackService.swift:82-86 | "previous" more than 3 s (strictly) into a track restarts it, whatever the repeat mode |
| `PlaybackModel.RepeatOneRestarts` | GDMMusicPlayer/GDMMusicPlayer/Services/MockPlaybackService.swift:88-90 | under repeat-one, navigation either way restarts the current track |
| `PlaybackModel.RepeatAllWraps` | GDMMusicPlayer/GDMMusicPlayer/Services/MockPlaybackService.swift:91-95 | under repeat-all the index becomes `(i + delta + n) % n`, inside the queue; the new track's duration is loaded at time 0, play/pause is kept, and both ends wrap |
| `PlaybackModel.RepeatOffClampsAtStart` | GDMMusicPlayer/GDMMusicPlayer/Services/MockPlaybackService.swift:97-99 | under repeat-off, "previous" on the first track restarts it |
| `PlaybackModel.RepeatOffExhausts` | GDMMusicPlayer/GDMMusicPlayer/Services/MockPlaybackService.swift:100-102 | under repeat-off, "next" on the last track gives no track, stopped, time and duration 0, repeat off, with the index left on the last track |
| `PlaybackModel.RepeatOffMoves` | GDMMusicPlayer/GDMMusicPlayer/Services/MockPlaybackService.swift:103-107 | under repeat-off, a step inside the queue moves the index there and loads that track at time 0 with its duration, keeping play/pause, repeat mode, queue and timer |
| `PlaybackModel.WrapRoundTrip` | GDMMusicPlayer/GDMMusicPlayer/Services/MockPlaybackService.swift:92 | one step forward and one back around the ring of queue positions returns to the start |
| `PlaybackModel.RepeatAllNextThenPrevious` | GDMMusicPlayer/GDMMusicPlayer/Services/MockPlaybackService.swift:61-67 | under repeat-all, "next" then "previous" returns to the start of the track one was on |
| `PlaybackModel.SkipNextThenPrevious` | GDMMusicPlayer/GDMMusicPlayer/Services/MockPlaybackService.swift:79-111 | "next" then "previous" returns to the start of the same track under repeat-all and under repeat-off away from the end; under repeat-one both restart it |
| `PlaybackModel.ExhaustedActsFromLastIndex` | GDMMusicPlayer/GDMMusicPlayer/Services/MockPlaybackService.swift:96-108 | once exhausted, "next" stays exhausted, "previous" lands on the second-to-last track, and `play` starts over at the first |
| `PlaybackModel.Tick` | GDMMusicPlayer/GDMMusicPlayer/Services/MockPlaybackService.swift:127-135 | a firing keeps the engine well formed and keeps the queue and the timer |
| `PlaybackModel.TickIdle` | GDMMusicPlayer/GDMMusicPlayer/Services/MockPlaybackService.swift:128 | a firing without a timer or while paused changes nothing |
| `PlaybackModel.TickMovesPlayhead` | GDMMusicPlayer/GDMMusicPlayer/Services/MockPlaybackService.swift:129-134 | short of the end, a firing only adds 1/30 s to the playhead |
| `PlaybackModel.TickCompletionIsSkipNext` | GDMMusicPlayer/GDMMusicPlayer/Services/MockPlaybackService.swift:130-131 | reaching or passing the duration is exactly `advance(+1)` from where the engine was |
| `PlaybackModel.Ticks` | GDMMusicPlayer/GDMMusicPlayer/Services/MockPlaybackService.swift:127-135 | any number of firings keeps the engine well formed, the queue and the timer |
| `PlaybackModel.TicksAccumulate` | GDMMusicPlayer/GDMMusicPlayer/Services/MockPlaybackService.swift:129 | short of the end, `k` firings add `k/30` s to the playhead and change nothing else |
| `PlaybackModel.AdvanceKeepsBounded` | GDMMusicPlayer/GDMMusicPlayer/Services/MockPlaybackService.swift:79-111 | with non-negative durations, navigation leaves the playhead inside the track |
| `PlaybackModel.TickKeepsBounded` | GDMMusicPlayer/GDMMusicPlayer/Services/MockPlaybackService.swift:127-135 | with non-negative durations, a firing leaves the playhead inside the track |
| `PlaybackModel.Apply` | GDMMusicPlayer/GDMMusicPlayer/Services/MockPlaybackService.swift:24-76 | every command, a rejected load included, keeps the engine well formed |
| `PlaybackModel.Run` | GDMMusicPlayer/GDMMusicPlayer/Services/MockPlaybackService.swift:24-135 | every command sequence keeps the engine well formed |
| `PlaybackModel.ApplyKeepsBounded` | GDMMusicPlayer/GDMMusicPlayer/Services/MockPlaybackService.swift:24-135 | each command keeps `0 <= currentTime <= duration` and non-negative durations in the queue |
| `PlaybackModel.RunKeepsBounded` | GDMMusicPlayer/GDMMusicPlayer/Services/MockPlaybackService.swift:9-144 | any command sequence that only loads tracks of non-negative duration keeps `0 <= currentTime <= duration` |
| `PlaybackModel.TwoTrackScenario` | GDMMusicPlayer/GDMMusicPlayer/Services/MockPlaybackService.swift:24-135 | tracks of 10 s and 20 s under repeat off: after `play`, 300 firings land playing at the start of the second track, and "next" then exhausts the queue |
| `MockPlayback.MockPlaybackService.constructor` | GDMMusicPlayer/GDMMusicPlayer/Services/MockPlaybackService.swift:19-22 | a new service is the initial engine and has posted no snapshot |
| `MockPlayback.MockPlaybackService.Notify` | GDMMusicPlayer/GDMMusicPlayer/Services/MockPlaybackService.swift:118-123 | posts the current state after all earlier snapshots |
| `MockPlayback.MockPlaybackService.Start` | GDMMusicPlayer/GDMMusicPlayer/Services/MockPlaybackService.swift:125-137 | afterwards a timer is scheduled |
| `MockPlayback.MockPlaybackService.Stop` | GDMMusicPlayer/GDMMusicPlayer/Services/MockPlaybackService.swift:139-142 | afterwards no timer is scheduled |
| `MockPlayback.MockPlaybackService.Load` | GDMMusicPlayer/GDMMusicPlayer/Services/MockPlaybackService.swift:24-31 | an empty queue returns `emptyQueue` and changes nothing, with no snapshot; otherwise the engine becomes `PlaybackModel.Load` of it, with one snapshot |
| `MockPlayback.MockPlaybackService.Play` | GDMMusicPlayer/GDMMusicPlayer/Services/MockPlaybackService.swift:33-43 | the engine becomes `PlaybackModel.Play` of it; one snapshot unless the queue is empty |
| `MockPlayback.MockPlaybackService.Pause` | GDMMusicPlayer/GDMMusicPlayer/Services/MockPlaybackService.swift:45-49 | the engine becomes `PlaybackModel.Pause` of it, with one snapshot |
| `MockPlayback.MockPlaybackService.Toggle` | GDMMusicPlayer/GDMMusicPlayer/Services/MockPlaybackService.swift:51-53 | the engine becomes `PlaybackModel.Toggle` of it; one snapshot unless paused on an empty queue |
| `MockPlayback.MockPlaybackService.Seek` | GDMMusicPlayer/GDMMusicPlayer/Services/MockPlaybackService.swift:55-59 | the engine becomes `PlaybackModel.Seek` of it, with one snapshot |
| `MockPlayback.MockPlaybackService.SkipNext` | GDMMusicPlayer/GDMMusicPlayer/Services/MockPlaybackService.swift:61-63 | the engine becomes `PlaybackModel.SkipNext` of it; one snapshot unless the queue is empty |
| `MockPlayback.MockPlaybackService.SkipPrevious` | GDMMusicPlayer/GDMMusicPlayer/Services/MockPlaybackService.swift:65-67 | the engine becomes `PlaybackModel.SkipPrevious` of it; one snapshot unless the queue is empty |
| `MockPlayback.MockPlaybackService.ToggleRepeatMode` | GDMMusicPlayer/GDMMusicPlayer/Services/MockPlaybackService.swift:69-76 | the engine becomes `PlaybackModel.ToggleRepeatMode` of it, with one snapshot |
| `MockPlayback.MockPlaybackService.Advance` | GDMMusicPlayer/GDMMusicPlayer/Services/MockPlaybackService.swift:79-111 | the engine becomes `PlaybackModel.Advance` of it; one snapshot unless the queue is empty |
| `MockPlayback.MockPlaybackService.RestartTrack` | GDMMusicPlayer/GDMMusicPlayer/Services/MockPlaybackService.swift:113-116 | the engine becomes `PlaybackModel.Restarted` of it, with one snapshot |
| `MockPlayback.MockPlaybackService.Tick` | GDMMusicPlayer/GDMMusicPlayer/Services/MockPlaybackService.swift:127-135 | the engine becomes `PlaybackModel.Tick` of it; one snapshot exactly when the timer is scheduled and playing |
| `MockPlayback.LoadAndPlay` | GDMMusicPlayer/GDMMusicPlayer/DemoViewController.swift:39-40 | after a rejected empty load, a load and `play` leave the first track playing at time 0 with a timer, after two snapshots |
| `RotatingText.Rotate` | GDMMusicPlayer/GDMMusicPlayer/Views/RotatingLabel.swift:85-89 | the text is unchanged for `n <= 0` or `n >= count`; otherwise one character longer, with the space at position `count - n` |
| `RotatingText.RotateKeepsCharacters` | GDMMusicPlayer/GDMMusicPlayer/Views/RotatingLabel.swift:87-88 | a rotation holds the same characters as the text plus one space |
| `RotatingText.RotateUndone` | GDMMusicPlayer/GDMMusicPlayer/Views/RotatingLabel.swift:87-88 | the part after the inserted space followed by the part before it is the original text |
| `RotatingText.NextIndex` | GDMMusicPlayer/GDMMusicPlayer/Views/RotatingLabel.swift:78 | the index moves one step, stays in `[0, count)`, and goes back to 0 after the last character |
| `RotatingText.Steps` | GDMMusicPlayer/GDMMusicPlayer/Views/RotatingLabel.swift:75-83 | any number of steps keeps the index in `[0, count)` |
| `RotatingText.StepsFromStart` | GDMMusicPlayer/GDMMusicPlayer/Views/RotatingLabel.swift:78 | from 0, `k` steps reach `k mod count` |
| `RotatingText.FullCycleShowsOriginal` | GDMMusicPlayer/GDMMusicPlayer/Views/RotatingLabel.swift:77-80 | within one cycle the index is 0 only at the start and after `count` steps, where the label shows the text itself |
| `RotatingText.RotatingLabel.constructor` | GDMMusicPlayer/GDMMusicPlayer/Views/RotatingLabel.swift:15-19 | a new label has no text, an empty original, index 0 and no timer |
| `RotatingText.RotatingLabel.SetText` | GDMMusicPlayer/GDMMusicPlayer/Views/RotatingLabel.swift:21-27 | the same value changes nothing else; a new one is stored as the original (`nil` as ""), resets the index to 0 and runs the scroll exactly when the text is non-empty and overflows |
| `RotatingText.RotatingLabel.EvaluateOverflowAndStartIfNeeded` | GDMMusicPlayer/GDMMusicPlayer/Views/RotatingLabel.swift:42-55 | an empty text stops the scroll; an overflowing one runs it; one that fits stops it and is shown whole |
| `RotatingText.RotatingLabel.Start` | GDMMusicPlayer/GDMMusicPlayer/Views/RotatingLabel.swift:57-67 | afterwards the label is running with a timer |
| `RotatingText.RotatingLabel.Stop` | GDMMusicPlayer/GDMMusicPlayer/Views/RotatingLabel.swift:69-73 | afterwards the label is not running and holds no timer |
| `RotatingText.RotatingLabel.Tick` | GDMMusicPlayer/GDMMusicPlayer/Views/RotatingLabel.swift:75-83 | nothing on an empty text; otherwise the index moves one step and the label shows the text rotated by it, which is the text itself at index 0 |
| `TimeFormat.RoundedToInt` | GDMMusicPlayer/GDMMusicPlayer/Views/MediumPlayerView.swift:315 | `Int(t.rounded())` lies within half a second of `t`, a half going away from zero |
| `TimeFormat.RoundedIsNearest` | GDMMusicPlayer/GDMMusicPlayer/Views/MediumPlayerView.swift:315 | no integer is closer to `t` than the rounded value |
| `TimeFormat.SwiftRem` | GDMMusicPlayer/GDMMusicPlayer/Views/MediumPlayerView.swift:316 | Swift's `/` and `%`: quotient times divisor plus remainder is the dividend, and the remainder takes the dividend's sign |
| `TimeFormat.NatToString` | GDMMusicPlayer/GDMMusicPlayer/Views/MediumPlayerView.swift:316 | decimal text of a number: digits only, no leading zero, one digit exactly below 10 |
| `TimeFormat.ParseNatToString` | GDMMusicPlayer/GDMMusicPlayer/Views/MediumPlayerView.swift:316 | reading the decimal text back gives the number |
| `TimeFormat.ZeroPad2TwoDigits` | GDMMusicPlayer/GDMMusicPlayer/Views/MediumPlayerView.swift:316 | `%02d` of a value in `[0, 100)` is exactly two digits that read back as it |
| `TimeFormat.MmssReadsBack` | GDMMusicPlayer/GDMMusicPlayer/Views/MediumPlayerView.swift:314-317 | for a non-negative time: minutes, a colon, two digits of seconds below 60, reading back as the time rounded to whole seconds |
| `TimeFormat.MmssExamples` | GDMMusicPlayer/GDMMusicPlayer/Views/MediumPlayerView.swift:314-317 | 65.6 s is "1:06", 0 s is "0:00", 59.5 s is "1:00" |
| `MediumPlayer.EmptyViewState` | GDMMusicPlayer/GDMMusicPlayer/Views/MediumPlayerView.swift:51 | `PlayerViewState.empty`, the view's first state (defined in PlayerViewModel.swift): its time texts are the `m:ss` of its zero times |
| `MediumPlayer.RepeatName` | GDMMusicPlayer/GDMMusicPlayer/Views/MediumPlayerView.swift:227-232 | "repeat.1" exactly for repeat-one, "repeat" for off and all |
| `MediumPlayer.RepeatAccessibilityLabelsDistinct` | GDMMusicPlayer/GDMMusicPlayer/Views/MediumPlayerView.swift:283-289 | "Repeat Off", "Repeat One" and "Repeat On" tell the three modes apart |
| `MediumPlayer.PlayPauseIcon` | GDMMusicPlayer/GDMMusicPlayer/Views/MediumPlayerView.swift:319-323 | the pause icon exactly while playing, the play icon otherwise |
| `MediumPlayer.PlayPauseAccessibilityLabel` | GDMMusicPlayer/GDMMusicPlayer/Views/MediumPlayerView.swift:282 | "Pause" exactly while playing, "Play" otherwise |
| `MediumPlayer.DurationLabelShows` | GDMMusicPlayer/GDMMusicPlayer/Views/MediumPlayerView.swift:305-312 | without `showRemaining`, the state's duration text; with it, a minus sign and an `m:ss` that reads back as the remaining time rounded, which is 0 once the playhead is at or past the end |
| `MediumPlayer.TruncatedToInt` | GDMMusicPlayer/GDMMusicPlayer/Views/MediumPlayerView.swift:281 | `Int(x)` truncates toward zero |
| `MediumPlayer.LikeAnimationRule` | GDMMusicPlayer/GDMMusicPlayer/Views/MediumPlayerView.swift:273-279 | the first update never animates the like button; a later one animates exactly when the flag changed |
| `MediumPlayer.ControlsDistinguishState` | GDMMusicPlayer/GDMMusicPlayer/Views/MediumPlayerView.swift:261-289 | two states shown with the same controls agree on playing, repeat mode, like flag and progress |
| `MediumPlayer.MediumPlayerView.constructor` | GDMMusicPlayer/GDMMusicPlayer/Views/MediumPlayerView.swift:50-249 | the view starts on the empty state with no like flag seen, no title texts, the slider at 0, "0:00" in both time labels, the play icon labelled "Play", the plain, unhighlighted repeat icon labelled "Repeat", and an empty like button |
| `MediumPlayer.MediumPlayerView.DidUpdateState` | GDMMusicPlayer/GDMMusicPlayer/Views/MediumPlayerView.swift:251-293 | the new state becomes `currState`; title and subtitle are assigned only when they differ from the previous state's; every control shows the new state; the like flag is remembered |
| `MediumPlayer.MediumPlayerView.UpdateTitleLabels` | GDMMusicPlayer/GDMMusicPlayer/Views/MediumPlayerView.swift:255-260 | each title label is assigned, and the assignment recorded, only when its text changed |
| `MediumPlayer.MediumPlayerView.RefreshControls` | GDMMusicPlayer/GDMMusicPlayer/Views/MediumPlayerView.swift:261-289 | the slider, time labels, buttons and accessibility texts show the new state, and the like flag is remembered |
| `MediumPlayer.MediumPlayerView.RefreshTimeline` | GDMMusicPlayer/GDMMusicPlayer/Views/MediumPlayerView.swift:261-263 | slider at the progress, elapsed text, duration label by the current switch, and the slider's percent text |
| `MediumPlayer.MediumPlayerView.RefreshButtons` | GDMMusicPlayer/GDMMusicPlayer/Views/MediumPlayerView.swift:264-289 | play/pause icon and label, repeat icon, highlight exactly when repeat is not off, repeat label, like fill, and animation only for a changed flag |
| `MediumPlayer.MediumPlayerView.UpdatePlayPauseIcon` | GDMMusicPlayer/GDMMusicPlayer/Views/MediumPlayerView.swift:319-323 | the icon for the playing flag |
| `MediumPlayer.MediumPlayerView.SetLikeAppearance` | GDMMusicPlayer/GDMMusicPlayer/Views/MediumPlayerView.swift:325-339 | the like button shows the flag, animated or not as asked |
| `MediumPlayer.MediumPlayerView.UpdateDurationLabel` | GDMMusicPlayer/GDMMusicPlayer/Views/MediumPlayerView.swift:305-312 | the duration label is the remaining or total time by the current switch |
| `MediumPlayer.MediumPlayerView.ToggleRemaining` | GDMMusicPlayer/GDMMusicPlayer/Views/MediumPlayerView.swift:391-394 | flips the switch, redraws the duration label from `currState`, and leaves `currState` alone |

## Left out

- Timer scheduling, `RunLoop` registration and `fireDate` delays, in both
  the engine and the label. Only "a timer is scheduled" and "one firing"
  are modelled; the 2-second pause at the start of a scroll and the step
  interval are not.
- `DispatchQueue.main.async` delivery of snapshots. A snapshot is the state
  when `notify()` is called; a closure that reads `self.state` later is not
  modelled.
- The weak `delegate`, the `PlaybackEventsDelgate` callback and the
  `PlaybackServicing` protocol. These are object-lifetime and interface
  plumbing; the class stands alone.
- `Double` rounding: `TimeInterval` and the slider's `Float` are exact reals.
  Drift from repeatedly adding 1/30 is not captured.
- `Int` overflow and the trap it raises in Swift. Integers are unbounded.
- `URL` is modelled as its text.
- Swift's `String.count` counts grapheme clusters; the model counts
  characters.
- `RotatingLabel.layoutSubviews` and the font-metrics width test. Whether
  the text overflows is the input `shouldScroll`, so a width change is not
  modelled.
- `deinit` of the label, which only calls `stop()`.
- MediumPlayerView's UIKit work: layout, images, colours, corner radii,
  gestures, haptics, the pasteboard, artwork updates, animation curves and
  `invalidateIntrinsicContentSize`. Icons are their system names and the
  like button is its fill and animation flags.
- The view's title labels are `RotatingLabel`s. The model records the texts
  assigned to them and does not run the label's `text` observer.
- PlayerViewModel, which turns engine snapshots into `PlayerViewState`, is
  not part of this model. Only the `PlayerViewState` record and its `empty`
  value are used.
- PlayerDesignSpecs.swift (constants and colours) and the demo screen's
  layout code are not part of this model.
