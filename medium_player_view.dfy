/**
 * The bookkeeping of Views/MediumPlayerView.swift: what the player view
 * shows for each view state it receives, the elapsed/remaining switch of the
 * duration label, and when a change of the like flag is animated. Images,
 * colours, layout and haptics are reduced to the names and flags they are
 * chosen from.
 */
module MediumPlayer {
  import opened Wrappers
  import opened PlaybackTypes
  import opened TimeFormat
  import opened Arithmetic

  /** The display-ready state the view receives (declared in View Models/PlayerViewModel.swift). */
  datatype PlayerViewState = PlayerViewState(
    title: string,
    subtitle: string,
    progress: real,
    elapsedText: string,
    durationText: string,
    isPlaying: bool,
    repeatMode: RepeatMode,
    isLiked: bool,
    currentTime: real,
    duration: real)

  /** `PlayerViewState.empty`, the view's state before any update. */
  function EmptyViewState(): (s: PlayerViewState)
    ensures s.elapsedText == Mmss(s.currentTime) && s.durationText == Mmss(s.duration)
  {
    MmssExamples();
    PlayerViewState("", "", 0.0, "0:00", "0:00", false, Off, false, 0.0, 0.0)
  }

  const RepeatButtonName: string := "repeat"
  const RepeatOneButtonName: string := "repeat.1"
  const PauseButtonName: string := "pause.fill"
  const PlayButtonName: string := "play.fill"

  /** `repeatName(for:)`: the repeat-one icon for `.one`, the plain repeat icon otherwise. */
  function RepeatName(mode: RepeatMode): (r: string)
    ensures r == RepeatOneButtonName <==> mode == One
    ensures r == RepeatButtonName <==> mode != One
  {
    match mode
    case Off => RepeatButtonName
    case All => RepeatButtonName
    case One => RepeatOneButtonName
  }

  /** The repeat button's accessibility label. */
  function RepeatAccessibilityLabel(mode: RepeatMode): (r: string)
  {
    match mode
    case Off => "Repeat Off"
    case One => "Repeat One"
    case All => "Repeat On"
  }

  /** The accessibility label tells all three modes apart. */
  lemma RepeatAccessibilityLabelsDistinct(a: RepeatMode, b: RepeatMode)
    ensures RepeatAccessibilityLabel(a) == RepeatAccessibilityLabel(b) <==> a == b
  {
  }

  /** `updatePlayPauseIcon(isPlaying:)`: the icon offers the action that is not current. */
  function PlayPauseIcon(isPlaying: bool): (r: string)
    ensures r == PauseButtonName <==> isPlaying
    ensures !isPlaying ==> r == PlayButtonName
  {
    if isPlaying then PauseButtonName else PlayButtonName
  }

  /** The play/pause button's accessibility label names the action it offers. */
  function PlayPauseAccessibilityLabel(isPlaying: bool): (r: string)
    ensures r == "Pause" <==> isPlaying
    ensures !isPlaying ==> r == "Play"
  {
    if isPlaying then "Pause" else "Play"
  }

  /** `updateDurationLabel(state:)`: time remaining with a leading minus, or the total duration. */
  function DurationLabel(showRemaining: bool, state: PlayerViewState): (r: string)
  {
    if showRemaining then "-" + Mmss(Max(state.duration - state.currentTime, 0.0))
    else state.durationText
  }

  /**
   * With `showRemaining` the label is a minus sign and a non-negative `m:ss`
   * that reads back as the remaining time rounded to whole seconds (0 once
   * the playhead is past the end); without it, the view state's own text.
   */
  lemma DurationLabelShows(showRemaining: bool, state: PlayerViewState)
    ensures !showRemaining ==> DurationLabel(showRemaining, state) == state.durationText
    ensures showRemaining ==>
      var r := DurationLabel(showRemaining, state); var k := |r|;
      var remaining := Max(state.duration - state.currentTime, 0.0);
      && k >= 5 && r[0] == '-' && r[k - 3] == ':'
      && AllDigits(r[1..k - 3]) && AllDigits(r[k - 2..])
      && ParseNat(r[1..k - 3]) * 60 + ParseNat(r[k - 2..]) == RoundedToInt(remaining)
      && (state.currentTime >= state.duration ==> RoundedToInt(remaining) == 0)
  {
    if showRemaining {
      var remaining := Max(state.duration - state.currentTime, 0.0);
      var m := Mmss(remaining);
      assert DurationLabel(showRemaining, state) == "-" + m;
      MmssReadsBack(remaining);
      SignedText(m);
      if state.currentTime >= state.duration {
        assert remaining == 0.0;
        assert RoundedToInt(0.0) == 0;
      }
    }
  }

  /** A minus sign in front of `m` shifts every position of `m` by one. */
  lemma SignedText(m: string)
    requires |m| >= 4
    ensures var r := "-" + m; var k := |r|;
      && k == |m| + 1 && r[0] == '-' && r[k - 3] == m[|m| - 3]
      && r[1..k - 3] == m[..|m| - 3] && r[k - 2..] == m[|m| - 2..]
  {
  }

  /** `Int(x)` for a floating-point `x`: truncation toward zero. */
  function TruncatedToInt(x: real): (n: int)
    ensures x >= 0.0 ==> n as real <= x < n as real + 1.0
    ensures x < 0.0 ==> n as real - 1.0 < x <= n as real
  {
    if x >= 0.0 then x.Floor else -((-x).Floor)
  }

  /** The slider's accessibility value: the progress in whole percent. */
  function SliderAccessibilityValue(progress: real): (r: string)
  {
    IntToString(TruncatedToInt(progress * 100.0)) + " percent"
  }

  /** Whether an update animates the like button: only a change from a flag seen before. */
  function LikeChangeAnimated(lastLiked: Option<bool>, isLiked: bool): (animated: bool)
  {
    lastLiked.Some? && lastLiked.value != isLiked
  }

  /**
   * The first update never animates, and afterwards an update animates
   * exactly when the like flag differs from the one shown by the previous update.
   */
  lemma LikeAnimationRule(previous: bool, isLiked: bool)
    ensures !LikeChangeAnimated(None, isLiked)
    ensures LikeChangeAnimated(Some(previous), isLiked) <==> previous != isLiked
  {
  }

  /**
   * A label fed `after` where it was last fed `before`, given what it shows
   * and every text assigned to it so far: a changed text is shown and
   * recorded as one more assignment; an unchanged one is not assigned.
   */
  ghost function Relabel(before: string, after: string, shown: Option<string>, writes: seq<string>)
    : (Option<string>, seq<string>)
  {
    if before != after then (Some(after), writes + [after]) else (shown, writes)
  }

  /** What the slider, the time labels and the buttons show, with their accessibility texts. */
  datatype Controls = Controls(
    sliderValue: real,
    elapsedText: Option<string>,
    durationText: Option<string>,
    sliderAccessibilityValue: Option<string>,
    playPauseImage: string,
    playPauseAccessibilityLabel: string,
    repeatImage: string,
    repeatHighlighted: bool,
    repeatAccessibilityLabel: string,
    likeFilled: bool,
    likeAnimated: bool)

  /**
   * The controls for `state`: the slider at its progress, the two time
   * labels, the play/pause and repeat buttons with their accessibility
   * texts, and the like button, animated when the flag differs from
   * `previousLiked`.
   */
  function ControlsFor(showRemaining: bool, state: PlayerViewState, previousLiked: Option<bool>): Controls
  {
    Controls(
      state.progress,
      Some(state.elapsedText),
      Some(DurationLabel(showRemaining, state)),
      Some(SliderAccessibilityValue(state.progress)),
      PlayPauseIcon(state.isPlaying),
      PlayPauseAccessibilityLabel(state.isPlaying),
      RepeatName(state.repeatMode),
      state.repeatMode != Off,
      RepeatAccessibilityLabel(state.repeatMode),
      state.isLiked,
      LikeChangeAnimated(previousLiked, state.isLiked))
  }

  /**
   * The controls read back the state's play/pause flag, repeat mode, like
   * flag and progress: two states shown alike agree on all four.
   */
  lemma ControlsDistinguishState(showRemaining: bool, a: PlayerViewState, b: PlayerViewState, previousLiked: Option<bool>)
    requires ControlsFor(showRemaining, a, previousLiked) == ControlsFor(showRemaining, b, previousLiked)
    ensures a.isPlaying == b.isPlaying && a.repeatMode == b.repeatMode
    ensures a.isLiked == b.isLiked && a.progress == b.progress
  {
  }

  class MediumPlayerView {
    var showRemaining: bool
    var currState: PlayerViewState
    var lastLiked: Option<bool>

    // What the subviews show.
    var titleText: Option<string>
    var subtitleText: Option<string>
    var sliderValue: real
    var elapsedText: Option<string>
    var durationText: Option<string>
    var playPauseImage: string
    var playPauseAccessibilityLabel: string
    var repeatImage: string
    var repeatHighlighted: bool
    var repeatAccessibilityLabel: string
    var likeFilled: bool
    var likeAnimated: bool
    var sliderAccessibilityValue: Option<string>

    /** Every text assigned to the title and the subtitle label, oldest first. */
    ghost var titleWrites: seq<string>
    ghost var subtitleWrites: seq<string>

    /** What the controls below the titles show, as one value. */
    function Shown(): Controls
      reads this`sliderValue, this`elapsedText, this`durationText, this`sliderAccessibilityValue
      reads this`playPauseImage, this`playPauseAccessibilityLabel, this`repeatImage, this`repeatHighlighted
      reads this`repeatAccessibilityLabel, this`likeFilled, this`likeAnimated
    {
      Controls(sliderValue, elapsedText, durationText, sliderAccessibilityValue,
               playPauseImage, playPauseAccessibilityLabel, repeatImage, repeatHighlighted,
               repeatAccessibilityLabel, likeFilled, likeAnimated)
    }

    /** The view as `init(viewModel:)` and `setupUI()` leave it. */
    constructor ()
      ensures !showRemaining && currState == EmptyViewState() && lastLiked == None
      ensures titleText == None && subtitleText == None && titleWrites == [] && subtitleWrites == []
      ensures elapsedText == Some("0:00") && durationText == Some("0:00")
      ensures playPauseImage == PlayButtonName && repeatImage == RepeatButtonName && !repeatHighlighted
      ensures !likeFilled && !likeAnimated
      ensures sliderValue == 0.0 && sliderAccessibilityValue == None
      ensures playPauseAccessibilityLabel == "Play" && repeatAccessibilityLabel == "Repeat"
    {
      showRemaining := false;
      currState := EmptyViewState();
      lastLiked := None;
      titleText := None;
      subtitleText := None;
      sliderValue := 0.0;
      elapsedText := Some("0:00");
      durationText := Some("0:00");
      playPauseImage := PlayPauseIcon(false);
      playPauseAccessibilityLabel := PlayPauseAccessibilityLabel(false);
      repeatImage := RepeatButtonName;
      repeatHighlighted := false;
      repeatAccessibilityLabel := "Repeat";
      likeFilled := false;
      likeAnimated := false;
      sliderAccessibilityValue := None;
      titleWrites := [];
      subtitleWrites := [];
    }

    /**
     * `playerViewModel(_:didUpdateState:)`: title and subtitle are rewritten
     * only when they differ from the previous state's; everything else is
     * refreshed from the new state, and the new state becomes `currState`.
     */
    method DidUpdateState(state: PlayerViewState)
      modifies this`currState, this`titleText, this`titleWrites, this`subtitleText, this`subtitleWrites
      modifies this`sliderValue, this`elapsedText, this`durationText, this`sliderAccessibilityValue
      modifies this`playPauseImage, this`repeatImage, this`repeatHighlighted
      modifies this`lastLiked, this`likeFilled, this`likeAnimated
      modifies this`playPauseAccessibilityLabel, this`repeatAccessibilityLabel
      ensures currState == state
      ensures (titleText, titleWrites) == Relabel(old(currState).title, state.title, old(titleText), old(titleWrites))
      ensures (subtitleText, subtitleWrites) == Relabel(old(currState).subtitle, state.subtitle, old(subtitleText), old(subtitleWrites))
      ensures Shown() == ControlsFor(showRemaining, state, old(lastLiked)) && lastLiked == Some(state.isLiked)
    {
      var previousState := currState;
      currState := state;

      UpdateTitleLabels(previousState, state);
      RefreshControls(state);
    }

    /** The title and subtitle labels are assigned only a text that changed. */
    method UpdateTitleLabels(previousState: PlayerViewState, state: PlayerViewState)
      modifies this`titleText, this`titleWrites, this`subtitleText, this`subtitleWrites
      ensures (titleText, titleWrites) == Relabel(previousState.title, state.title, old(titleText), old(titleWrites))
      ensures (subtitleText, subtitleWrites) == Relabel(previousState.subtitle, state.subtitle, old(subtitleText), old(subtitleWrites))
    {
      if previousState.title != state.title {
        titleText := Some(state.title);
        titleWrites := titleWrites + [state.title];
      }
      if previousState.subtitle != state.subtitle {
        subtitleText := Some(state.subtitle);
        subtitleWrites := subtitleWrites + [state.subtitle];
      }
    }

    /**
     * The part of `playerViewModel(_:didUpdateState:)` after the title
     * labels: every control is redrawn from the new state.
     */
    method RefreshControls(state: PlayerViewState)
      modifies this`sliderValue, this`elapsedText, this`durationText, this`sliderAccessibilityValue
      modifies this`playPauseImage, this`repeatImage, this`repeatHighlighted
      modifies this`lastLiked, this`likeFilled, this`likeAnimated
      modifies this`playPauseAccessibilityLabel, this`repeatAccessibilityLabel
      ensures Shown() == ControlsFor(showRemaining, state, old(lastLiked)) && lastLiked == Some(state.isLiked)
    {
      RefreshTimeline(state);
      RefreshButtons(state);
    }

    /** The slider and the two time labels, with the slider's accessibility value. */
    method RefreshTimeline(state: PlayerViewState)
      modifies this`sliderValue, this`elapsedText, this`durationText, this`sliderAccessibilityValue
      ensures sliderValue == state.progress && elapsedText == Some(state.elapsedText)
      ensures durationText == Some(DurationLabel(showRemaining, state))
      ensures sliderAccessibilityValue == Some(SliderAccessibilityValue(state.progress))
    {
      sliderValue := state.progress;
      elapsedText := Some(state.elapsedText);
      UpdateDurationLabel(state);
      sliderAccessibilityValue := Some(SliderAccessibilityValue(state.progress));
    }

    /** The play/pause, repeat and like buttons with their accessibility labels. */
    method RefreshButtons(state: PlayerViewState)
      modifies this`playPauseImage, this`repeatImage, this`repeatHighlighted
      modifies this`lastLiked, this`likeFilled, this`likeAnimated
      modifies this`playPauseAccessibilityLabel, this`repeatAccessibilityLabel
      ensures playPauseImage == PlayPauseIcon(state.isPlaying)
      ensures playPauseAccessibilityLabel == PlayPauseAccessibilityLabel(state.isPlaying)
      ensures repeatImage == RepeatName(state.repeatMode)
      ensures repeatHighlighted <==> state.repeatMode != Off
      ensures repeatAccessibilityLabel == RepeatAccessibilityLabel(state.repeatMode)
      ensures likeAnimated == LikeChangeAnimated(old(lastLiked), state.isLiked)
      ensures likeFilled == state.isLiked && lastLiked == Some(state.isLiked)
    {
      UpdatePlayPauseIcon(state.isPlaying);

      var active := state.repeatMode != Off;
      repeatImage := RepeatName(state.repeatMode);
      repeatHighlighted := active;

      if lastLiked.Some? && lastLiked.value != state.isLiked {
        SetLikeAppearance(state.isLiked, true);
      } else {
        SetLikeAppearance(state.isLiked, false);
      }
      lastLiked := Some(state.isLiked);

      playPauseAccessibilityLabel := PlayPauseAccessibilityLabel(state.isPlaying);
      repeatAccessibilityLabel := RepeatAccessibilityLabel(state.repeatMode);
    }

    /** `updatePlayPauseIcon(isPlaying:)` */
    method UpdatePlayPauseIcon(isPlaying: bool)
      modifies this`playPauseImage
      ensures playPauseImage == PlayPauseIcon(isPlaying)
    {
      playPauseImage := PlayPauseIcon(isPlaying);
    }

    /** `setLikeAppearance(liked:animated:)` */
    method SetLikeAppearance(liked: bool, animated: bool)
      modifies this`likeFilled, this`likeAnimated
      ensures likeFilled == liked && likeAnimated == animated
    {
      likeFilled, likeAnimated := liked, animated;
    }

    /** `updateDurationLabel(state:)` */
    method UpdateDurationLabel(state: PlayerViewState)
      modifies this`durationText
      ensures durationText == Some(DurationLabel(showRemaining, state))
    {
      if showRemaining {
        var remaining := Max(state.duration - state.currentTime, 0.0);
        durationText := Some("-" + Mmss(remaining));
      } else {
        durationText := Some(state.durationText);
      }
    }

    /** `toggleRemaining()`: flips the switch and redraws the duration label from the current state. */
    method ToggleRemaining()
      modifies this`showRemaining, this`durationText
      ensures showRemaining == !old(showRemaining) && currState == old(currState)
      ensures durationText == Some(DurationLabel(showRemaining, currState))
    {
      showRemaining := !showRemaining;
      UpdateDurationLabel(currState);
    }
  }
}
