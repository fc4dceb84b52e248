/** The track record that every part of the player passes around, and the
    messages a renderer sends to the main process. */
module Tracks {
  import opened JsValues

  /** The `duration` property of a track: absent, a number of seconds, or a
      value of another type (the legacy renderer tests `typeof duration`). */
  datatype Duration = Missing | Seconds(n: int) | NonNumeric(text: string)

  /** Truthiness of a duration: absent, `0` and `""` are falsy. */
  predicate DurationTruthy(d: Duration) {
    match d
    case Missing => false
    case Seconds(n) => n != 0
    case NonNumeric(text) => text != ""
  }

  /** A track record as the catalog produces it and as it is stored among the
      favorites. Every property may be absent in a record read back from disk;
      titles are compared with `===`, so two absent titles are equal. */
  datatype Track = Track(
    id: Option<string>,
    title: Option<string>,
    artist: Option<string>,
    duration: Duration,
    thumbnail: Option<string>,
    url: Option<string>)

  /** `song?.title`: the title of a possibly absent track. */
  function TitleOf(song: Option<Track>): Option<string> {
    if song.Some? then song.value.title else None
  }

  /** A message a renderer sends to the main process. A `play-song` request
      carries the renderer's current song, which can be `null`. */
  datatype Outgoing = PlaySongRequest(song: Option<Track>) | TogglePauseRequest
}
