/** The catalog side of the main process: which query a home-screen category
    searches for, the reply channel each request uses, and how a line of the
    search tool's JSON output becomes a track record. */
module Catalog {
  import opened JsValues
  import opened Tracks
  import Playback

  /** The fixed query of each home-screen category. */
  const QueryMap: map<string, string> := map[
    "Malayalam" := "latest malayalam movie songs 2025 hits",
    "English" := "top english songs 2025 billboard hits",
    "Hindi" := "bollywood latest songs 2025 hits arijit",
    "Tamil" := "latest tamil movie songs 2025 hits anirudh",
    "Telugu" := "latest telugu songs 2025 tollywood hits",
    "Punjabi" := "latest punjabi songs 2025 ap dhillon diljit",
    "Pop" := "top pop songs 2025 global hits",
    "K-Pop" := "kpop hits 2025 blackpink bts newjeans stray kids",
    "Chill" := "lofi hip hop chill beats to relax study",
    "Romantic" := "romantic love songs 2024 best ballads playlist",
    "Marathi" := "latest marathi songs 2025 hits ajay atul"
  ]

  /** `queryMap[category] || category + " songs latest"`. */
  function CategoryQuery(category: string): string {
    var mapped := if category in QueryMap then Some(QueryMap[category]) else None;
    Or(mapped, Some(category + " songs latest")).value
  }

  /** Every mapped query is non-empty, so the fallback is taken exactly for
      the categories the map does not know. */
  lemma CategoryQueryLookup(category: string)
    ensures category in QueryMap ==> CategoryQuery(category) == QueryMap[category]
    ensures category !in QueryMap ==> CategoryQuery(category) == category + " songs latest"
  {
    if category in QueryMap {
      var q := QueryMap[category];
      assert q in QueryMap.Values;
      assert forall v :: v in QueryMap.Values ==> |v| > 0;
    }
  }

  const SearchChannel: string := "search-results"

  /** The reply channel of a category request. */
  function CategoryChannel(category: string): string {
    "category-results-" + category
  }

  /** Replies to overlapping requests cannot cross: every category has its
      own channel, and none of them is the search channel. */
  lemma ChannelsAreDistinct(a: string, b: string)
    ensures CategoryChannel(a) == CategoryChannel(b) ==> a == b
    ensures CategoryChannel(a) != SearchChannel
  {
    var p := "category-results-";
    if CategoryChannel(a) == CategoryChannel(b) {
      assert a == CategoryChannel(a)[|p|..];
      assert b == CategoryChannel(b)[|p|..];
    }
    assert CategoryChannel(a)[0] != SearchChannel[0];
  }

  /** One entry of the `thumbnails` array of the tool's JSON. */
  datatype ThumbnailInfo = ThumbnailInfo(url: Option<string>)

  /** The properties of one JSON line of the tool's output that the mapping reads. */
  datatype VideoInfo = VideoInfo(
    id: Option<string>,
    title: Option<string>,
    uploader: Option<string>,
    channel: Option<string>,
    duration: Duration,
    thumbnail: Option<string>,
    thumbnails: Option<seq<ThumbnailInfo>>,
    webpageUrl: Option<string>)

  /** A line of output: JSON.parse either throws or yields a record. */
  datatype ParsedLine = Unparsable | Parsed(info: VideoInfo)

  /** The record built for one parsed line. */
  function ToTrack(j: VideoInfo): Track {
    var thumbs := if j.thumbnails.Some? && |j.thumbnails.value| > 0 then j.thumbnails.value[0].url else Some("");
    Track(
      id := j.id,
      title := j.title,
      artist := Or(j.uploader, Or(j.channel, Some("Unknown"))),
      duration := j.duration,
      thumbnail := Or(j.thumbnail, thumbs),
      url := Or(j.webpageUrl, Some(Playback.WatchPrefix + Show(j.id))))
  }

  /** The defaults of a mapped record: the artist is the uploader, else the
      channel, else "Unknown", and never empty; the url is the page url, else
      a watch url built from the id, and never empty; the thumbnail is the
      record's own, else the url of the first entry of `thumbnails`, else "";
      id, title and duration pass through unchanged. */
  lemma ToTrackDefaults(j: VideoInfo)
    ensures var t := ToTrack(j);
      Truthy(t.artist) && Truthy(t.url)
      && t.id == j.id && t.title == j.title && t.duration == j.duration
      && (Truthy(j.uploader) ==> t.artist == j.uploader)
      && (!Truthy(j.uploader) && Truthy(j.channel) ==> t.artist == j.channel)
      && (!Truthy(j.uploader) && !Truthy(j.channel) ==> t.artist == Some("Unknown"))
      && (Truthy(j.webpageUrl) ==> t.url == j.webpageUrl)
      && (!Truthy(j.webpageUrl) ==> t.url == Some(Playback.WatchPrefix + Show(j.id)))
      && (Truthy(j.thumbnail) ==> t.thumbnail == j.thumbnail)
      && (!Truthy(j.thumbnail) && j.thumbnails.Some? && |j.thumbnails.value| > 0 ==> t.thumbnail == j.thumbnails.value[0].url)
      && (!Truthy(j.thumbnail) && (j.thumbnails.None? || j.thumbnails.value == []) ==> t.thumbnail == Some(""))
  {
  }

  /** A search or category result is always streamed from its url: the id
      and the title/artist fallbacks of the play handler are never reached. */
  lemma ResultsStreamFromTheirUrl(j: VideoInfo)
    ensures Playback.StreamQuery(Playback.Song(ToTrack(j))) == ToTrack(j).url
  {
    ToTrackDefaults(j);
  }

  /** `lines.map(parse-and-build).filter(Boolean)`: unparsable lines are
      dropped, the others mapped in order. */
  function Results(lines: seq<ParsedLine>): (r: seq<Track>)
    ensures |r| <= |lines|
    ensures forall k :: 0 <= k < |r| ==> Truthy(r[k].artist) && Truthy(r[k].url)
    ensures forall i :: 0 <= i < |lines| && lines[i].Parsed? ==> ToTrack(lines[i].info) in r
    ensures forall t :: t in r ==> exists i :: 0 <= i < |lines| && lines[i].Parsed? && t == ToTrack(lines[i].info)
  {
    if lines == [] then []
    else
      var rest := Results(lines[1..]);
      assert forall i :: 1 <= i < |lines| ==> lines[i] == lines[1..][i - 1];
      match lines[0]
      case Unparsable => rest
      case Parsed(j) =>
        ToTrackDefaults(j);
        [ToTrack(j)] + rest
  }

  /** The results keep the lines' order and any repeats: an unparsable line
      contributes nothing, a parsed one exactly its record, and the results of
      a concatenation are the concatenated results. */
  lemma {:induction false} ResultsKeepOrder(a: seq<ParsedLine>, b: seq<ParsedLine>, line: ParsedLine)
    ensures Results([]) == []
    ensures Results([line]) == (if line.Parsed? then [ToTrack(line.info)] else [])
    ensures Results(a + b) == Results(a) + Results(b)
    decreases |a|
  {
    assert [line][1..] == [];
    if a != [] {
      assert (a + b)[1..] == a[1..] + b;
      assert (a + b)[0] == a[0];
      ResultsKeepOrder(a[1..], b, line);
    } else {
      assert a + b == b;
    }
  }
}
