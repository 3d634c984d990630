/** The engine's value types (Services/PlaybackTypes.swift). */
module PlaybackTypes {
  import opened Wrappers
  import opened Tracks

  /** How navigation behaves at the ends of the queue. */
  datatype RepeatMode = Off | One | All

  /** The errors the engine declares. */
  datatype PlaybackError = LoadFailed | EmptyQueue

  /**
   * A snapshot of the engine. It carries no queue index: the position in
   * the queue is private to the engine.
   */
  datatype PlaybackState = PlaybackState(
    currentTrack: Option<Track>,
    isPlaying: bool,
    currentTime: real,
    duration: real,
    repeatMode: RepeatMode)

  /** `RepeatMode` has exactly three distinct values and equality decides between them. */
  lemma RepeatModeCases(m: RepeatMode)
    ensures m == Off || m == One || m == All
    ensures Off != One && One != All && All != Off
  {
  }

  /** Assigning one field of a snapshot (`state.isPlaying = true`) leaves the other four alone. */
  lemma FieldAssignmentIsLocal(s: PlaybackState, playing: bool, time: real)
    ensures var t := s.(isPlaying := playing);
      t.currentTrack == s.currentTrack && t.currentTime == s.currentTime
      && t.duration == s.duration && t.repeatMode == s.repeatMode && t.isPlaying == playing
    ensures var t := s.(currentTime := time);
      t.currentTrack == s.currentTrack && t.isPlaying == s.isPlaying
      && t.duration == s.duration && t.repeatMode == s.repeatMode && t.currentTime == time
  {
  }
}
