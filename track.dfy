/** Tracks and the reference to their artwork (Models/Track.swift, Models/ArtworkSource.swift). */
module Tracks {
  import opened Wrappers

  /** Where a track's artwork comes from: a bundled asset or a remote locator. */
  datatype ArtworkSource = Asset(name: string) | Url(url: string)

  /**
   * An immutable track record. A Dafny datatype value cannot be updated in
   * place, which is what the `let` fields of the Swift struct promise.
   */
  datatype Track = Track(title: string, artist: string, duration: real, artworkSource: Option<ArtworkSource>)

  /**
   * `Track.init(title:artist:duration:artworkSource:)`: copies every argument
   * into its field. It places no requirement on `duration`; a negative
   * duration is stored as given. `artworkSource` defaults to `nil`.
   */
  function MakeTrack(title: string, artist: string, duration: real,
                     artworkSource: Option<ArtworkSource> := None): (t: Track)
    ensures t.title == title && t.artist == artist
    ensures t.duration == duration && t.artworkSource == artworkSource
  {
    Track(title, artist, duration, artworkSource)
  }

  /** Leaving out the artwork argument gives a track without artwork. */
  lemma MakeTrackDefaultArtwork(title: string, artist: string, duration: real)
    ensures MakeTrack(title, artist, duration).artworkSource == None
    ensures MakeTrack(title, artist, duration) == MakeTrack(title, artist, duration, None)
  {
  }

  /** Present artwork is exactly one of the two kinds. */
  lemma ArtworkIsAssetOrUrl(t: Track)
    requires t.artworkSource.Some?
    ensures t.artworkSource.value.Asset? != t.artworkSource.value.Url?
  {
  }
}
