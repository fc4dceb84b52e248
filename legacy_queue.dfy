/** The queue of the older plain-DOM renderer: module-level variables for the
    queue, its cursor, the current song, the seconds counter, the play flag and
    the interval timer, and the handlers that move the cursor.

    The state has the same slices as the React renderer's, so the transitions
    reuse `AppQueue.AppState`; `timerRunning` stands for `timeInterval` being
    set. The lemmas compare the two renderers handler by handler. */
module LegacyQueue {
  import opened JsValues
  import opened Tracks
  import AppQueue

  type State = AppQueue.AppState

  datatype Outcome = Outcome(next: State, sent: seq<Outgoing>)

  const SearchSource: string := "__search__"
  const FavoritesSource: string := "__favorites__"

  /** `getQueueForSource(source)`, given the search results, the favorites
      as reloaded from the main process, and the stored category lists (an
      array is truthy even when empty, so a stored key is always taken). */
  function QueueForSource(source: string, searchResults: seq<Track>, favorites: seq<Track>,
                          categoryData: map<string, seq<Track>>): seq<Track> {
    if source == SearchSource then searchResults
    else if source == FavoritesSource then favorites
    else if source in categoryData then categoryData[source]
    else []
  }

  /** The common tail of every "play this element" path: the play flag is
      set, the counter reset and the timer started. */
  function Playing(s: State): State {
    s.(isPlaying := true, currentSeconds := 0, timerRunning := true)
  }

  /** `playSongFromQueue(song, index, queueSource)` once the queue has been
      looked up. */
  function AfterPlaySongFromQueue(s: State, song: Track, index: int, queue: seq<Track>): Outcome {
    Outcome(Playing(s.(queue := queue, queueIndex := index, currentSong := Some(song))),
            [PlaySongRequest(Some(song))])
  }

  /** `playSongData(song)`: a queue of that song alone. */
  function AfterPlaySongData(s: State, song: Track): Outcome {
    Outcome(Playing(s.(queue := [song], queueIndex := 0, currentSong := Some(song))),
            [PlaySongRequest(Some(song))])
  }

  function AfterPlayNext(s: State): Outcome {
    if |s.queue| == 0 then Outcome(s, [])
    else
      var nextIndex := s.queueIndex + 1;
      if nextIndex >= |s.queue| then Outcome(s, [])
      else
        var nextSong := At(s.queue, nextIndex);
        Outcome(Playing(s.(queueIndex := nextIndex, currentSong := nextSong)), [PlaySongRequest(nextSong)])
  }

  /** `playPrev`: a restart resets and restarts the timer but leaves the play
      flag alone. */
  function AfterPlayPrev(s: State): Outcome {
    if |s.queue| == 0 then Outcome(s, [])
    else if s.currentSeconds > 3 then
      Outcome(s.(currentSeconds := 0, timerRunning := true), [PlaySongRequest(s.currentSong)])
    else
      var prevIndex := s.queueIndex - 1;
      if prevIndex < 0 then
        Outcome(s.(currentSeconds := 0, timerRunning := true), [PlaySongRequest(s.currentSong)])
      else
        var prevSong := At(s.queue, prevIndex);
        Outcome(Playing(s.(queueIndex := prevIndex, currentSong := prevSong)), [PlaySongRequest(prevSong)])
  }

  /** The state right after the `song-finished` listener's stop and reset. */
  function Stopped(s: State): State {
    s.(isPlaying := false, timerRunning := false, currentSeconds := 0)
  }

  /** The total shown by the progress bar: with a song whose duration is
      truthy, the duration when it is a number and 180 otherwise; no total
      (the bar is not updated) without one. */
  function TotalDuration(song: Option<Track>): (total: Option<int>)
    ensures total.Some? <==> song.Some? && DurationTruthy(song.value.duration)
    ensures total.Some? && song.value.duration.Seconds? ==> total.value == song.value.duration.n != 0
    ensures total.Some? && !song.value.duration.Seconds? ==> total.value == 180
  {
    if song.None? || !DurationTruthy(song.value.duration) then None
    else if song.value.duration.Seconds? then Some(song.value.duration.n)
    else Some(180)
  }

  // ---------------------------------------------------------------------
  // Properties

  /** What the cursor handlers of the two renderers agree on: the queue, the
      cursor, the current song and the seconds counter. */
  function Cursor(s: State): (seq<Track>, int, Option<Track>, nat) {
    (s.queue, s.queueIndex, s.currentSong, s.currentSeconds)
  }

  /** `playNext` is a no-op on an empty queue or at its last element, and
      otherwise plays the next element with the timer started. Cursor and
      request agree with the React renderer's `playNext`. */
  lemma PlayNextRules(s: State)
    ensures (|s.queue| == 0 || s.queueIndex + 1 >= |s.queue|) ==> AfterPlayNext(s) == Outcome(s, [])
    ensures -1 <= s.queueIndex && s.queueIndex + 1 < |s.queue| ==>
      var o := AfterPlayNext(s);
      o.next.queueIndex == s.queueIndex + 1 && o.next.currentSong == Some(s.queue[s.queueIndex + 1])
      && o.next.currentSeconds == 0 && o.next.timerRunning && o.next.isPlaying
      && o.next.queue == s.queue && o.sent == [PlaySongRequest(Some(s.queue[s.queueIndex + 1]))]
    ensures Cursor(AfterPlayNext(s).next) == Cursor(AppQueue.AfterPlayNext(s).next)
    ensures AfterPlayNext(s).sent == AppQueue.AfterPlayNext(s).sent
  {
  }

  /** `playPrev`: more than three seconds in, or at the start, it restarts
      the current song keeping the cursor; otherwise it steps back. Cursor
      and request agree with the React renderer's `playPrev`. */
  lemma PlayPrevRules(s: State)
    requires |s.queue| > 0 && s.queueIndex <= |s.queue|
    ensures s.currentSeconds > 3 || s.queueIndex <= 0 ==>
      AfterPlayPrev(s) == Outcome(s.(currentSeconds := 0, timerRunning := true), [PlaySongRequest(s.currentSong)])
    ensures s.currentSeconds <= 3 && s.queueIndex > 0 ==>
      var o := AfterPlayPrev(s);
      o.next.queueIndex == s.queueIndex - 1 && o.next.currentSong == Some(s.queue[s.queueIndex - 1])
      && o.next.currentSeconds == 0 && o.next.isPlaying && o.sent == [PlaySongRequest(Some(s.queue[s.queueIndex - 1]))]
    ensures Cursor(AfterPlayPrev(s).next) == Cursor(AppQueue.AfterPlayPrev(s).next)
    ensures AfterPlayPrev(s).sent == AppQueue.AfterPlayPrev(s).sent
  {
  }

  /** Unlike the React renderer, the floating window's "previous" is the
      ordinary `playPrev` here, so past three seconds the cursor stays. */
  lemma RemotePrevKeepsCursor(s: State)
    requires |s.queue| > 0 && s.currentSeconds > 3 && s.queueIndex > 0
    ensures AfterPlayPrev(s).next.queueIndex == s.queueIndex
    ensures AppQueue.AfterOnRemotePrev(s).next.queueIndex == s.queueIndex - 1
  {
  }

  /** `song-finished` (stop, reset, then `playNext`) moves the cursor and
      sends what the React renderer's listener does, from any cursor at or
      after -1. */
  lemma SongFinishedAgrees(s: State)
    requires s.queueIndex >= -1
    ensures Cursor(AfterPlayNext(Stopped(s)).next) == Cursor(AppQueue.AfterOnSongFinished(s).next)
    ensures AfterPlayNext(Stopped(s)).sent == AppQueue.AfterOnSongFinished(s).sent
  {
  }

  /** `playSongData(song)` leaves the one-song queue with the cursor on it,
      the same cursor as the React `playSong` without a queue. */
  lemma PlaySongDataSingleton(s: State, song: Track)
    ensures var n := AfterPlaySongData(s, song).next;
      n.queue == [song] && n.queueIndex == 0 && n.currentSong == Some(song) && n.currentSeconds == 0
    ensures Cursor(AfterPlaySongData(s, song).next) == Cursor(AppQueue.AfterPlaySong(s, song, None, None).next)
    ensures AfterPlaySongData(s, song).sent == AppQueue.AfterPlaySong(s, song, None, None).sent
  {
  }

  /** `getQueueForSource` picks the search results, the favorites, a stored
      category list, or nothing. */
  lemma QueueForSourceCases(source: string, search: seq<Track>, favorites: seq<Track>, data: map<string, seq<Track>>)
    ensures source == SearchSource ==> QueueForSource(source, search, favorites, data) == search
    ensures source == FavoritesSource ==> QueueForSource(source, search, favorites, data) == favorites
    ensures source != SearchSource && source != FavoritesSource && source in data ==>
      QueueForSource(source, search, favorites, data) == data[source]
    ensures source != SearchSource && source != FavoritesSource && source !in data ==>
      QueueForSource(source, search, favorites, data) == []
  {
  }

  /** Clicking a card of a list that is still the one stored for its source
      makes the card's song the element under the cursor, and matches the
      React renderer's `playSong(song, list, index)`. */
  lemma CardClickIsConsistent(s: State, source: string, search: seq<Track>, favorites: seq<Track>,
                              data: map<string, seq<Track>>, index: int)
    requires 0 <= index < |QueueForSource(source, search, favorites, data)|
    ensures var list := QueueForSource(source, search, favorites, data);
      var o := AfterPlaySongFromQueue(s, list[index], index, list);
      AppQueue.Consistent(o.next)
      && Cursor(o.next) == Cursor(AppQueue.AfterPlaySong(s, list[index], Some(list), Some(index)).next)
  {
  }

  /** The timer: a reset gives 0, a running interval adds exactly one per
      tick, and each play path leaves it running from 0. */
  lemma TimerRules(s: State)
    ensures AppQueue.AfterTick(s.(timerRunning := true)).next.currentSeconds == s.currentSeconds + 1
    ensures Playing(s).currentSeconds == 0 && Playing(s).timerRunning
    ensures Stopped(s).currentSeconds == 0 && !Stopped(s).timerRunning
  {
  }

  // ---------------------------------------------------------------------
  // The renderer's state

  class LegacyRenderer {
    var currentSong: Option<Track>
    var isPlaying: bool
    var timerRunning: bool
    var currentSeconds: nat
    var favorites: seq<Track>
    var currentQueue: seq<Track>
    var currentQueueIndex: int
    var categoryData: map<string, seq<Track>>
    var searchResultsData: seq<Track>
    /** Every asynchronous `play-song` and `toggle-pause` message sent to
        the main process so far, oldest first; the synchronous favorites
        calls are not logged. */
    var sent: seq<Outgoing>

    function State(): State
      reads this
    {
      AppQueue.AppState(currentQueue, currentQueueIndex, currentSong, currentSeconds, isPlaying, timerRunning)
    }

    constructor ()
      ensures State() == AppQueue.Initial
      ensures favorites == [] && categoryData == map[] && searchResultsData == [] && sent == []
    {
      currentSong, isPlaying, timerRunning, currentSeconds := None, false, false, 0;
      favorites, currentQueue, currentQueueIndex := [], [], -1;
      categoryData, searchResultsData, sent := map[], [], [];
    }

    method StartTimer()
      modifies this
      ensures State() == old(State()).(timerRunning := true)
      ensures favorites == old(favorites) && categoryData == old(categoryData)
      ensures searchResultsData == old(searchResultsData) && sent == old(sent)
    {
      timerRunning := true;
    }

    method StopTimer()
      modifies this
      ensures State() == old(State()).(timerRunning := false)
      ensures favorites == old(favorites) && categoryData == old(categoryData)
      ensures searchResultsData == old(searchResultsData) && sent == old(sent)
    {
      timerRunning := false;
    }

    method ResetTimer()
      modifies this
      ensures State() == old(State()).(currentSeconds := 0)
      ensures favorites == old(favorites) && categoryData == old(categoryData)
      ensures searchResultsData == old(searchResultsData) && sent == old(sent)
    {
      currentSeconds := 0;
    }

    /** One firing of the interval. */
    method Tick()
      modifies this
      ensures State() == AppQueue.AfterTick(old(State())).next
      ensures favorites == old(favorites) && categoryData == old(categoryData)
      ensures searchResultsData == old(searchResultsData) && sent == old(sent)
    {
      if timerRunning {
        currentSeconds := currentSeconds + 1;
      }
    }

    /** `loadFavorites`: `reply` is what `get-favorites` returned, `None`
        when the call threw (the list is then kept). */
    method LoadFavorites(reply: Option<seq<Track>>)
      modifies this
      ensures favorites == (if reply.Some? then reply.value else old(favorites))
      ensures State() == old(State()) && categoryData == old(categoryData)
      ensures searchResultsData == old(searchResultsData) && sent == old(sent)
    {
      if reply.Some? {
        favorites := reply.value;
      }
    }

    /** The `category-results-<cat>` listener stores the list (an absent one
        as empty). */
    method OnCategoryResults(category: string, results: Option<seq<Track>>)
      modifies this
      ensures categoryData == old(categoryData)[category := if results.Some? then results.value else []]
      ensures State() == old(State()) && favorites == old(favorites)
      ensures searchResultsData == old(searchResultsData) && sent == old(sent)
    {
      categoryData := categoryData[category := if results.Some? then results.value else []];
    }

    /** The `search-results` listener stores the list (an absent one as
        empty). */
    method OnSearchResults(results: Option<seq<Track>>)
      modifies this
      ensures searchResultsData == (if results.Some? then results.value else [])
      ensures State() == old(State()) && favorites == old(favorites)
      ensures categoryData == old(categoryData) && sent == old(sent)
    {
      searchResultsData := if results.Some? then results.value else [];
    }

    /** `getQueueForSource`; the favorites source reloads the favorites
        first, with `reply` as in `LoadFavorites`. */
    method GetQueueForSource(source: string, reply: Option<seq<Track>>) returns (queue: seq<Track>)
      modifies this
      ensures source == FavoritesSource ==> favorites == (if reply.Some? then reply.value else old(favorites))
      ensures source != FavoritesSource ==> favorites == old(favorites)
      ensures queue == QueueForSource(source, searchResultsData, favorites, categoryData)
      ensures State() == old(State()) && categoryData == old(categoryData)
      ensures searchResultsData == old(searchResultsData) && sent == old(sent)
    {
      if source == SearchSource {
        return searchResultsData;
      }
      if source == FavoritesSource {
        LoadFavorites(reply);
        return favorites;
      }
      if source in categoryData {
        return categoryData[source];
      }
      return [];
    }

    method PlaySongFromQueue(song: Track, index: int, source: string, reply: Option<seq<Track>>)
      modifies this
      ensures source == FavoritesSource ==> favorites == (if reply.Some? then reply.value else old(favorites))
      ensures source != FavoritesSource ==> favorites == old(favorites)
      ensures var queue := QueueForSource(source, searchResultsData, favorites, categoryData);
        State() == AfterPlaySongFromQueue(old(State()), song, index, queue).next
        && sent == old(sent) + AfterPlaySongFromQueue(old(State()), song, index, queue).sent
      ensures categoryData == old(categoryData) && searchResultsData == old(searchResultsData)
    {
      currentQueue := GetQueueForSource(source, reply);
      currentQueueIndex := index;
      currentSong := Some(song);
      isPlaying := true;
      ResetTimer();
      StartTimer();
      sent := sent + [PlaySongRequest(Some(song))];
    }

    method PlaySongData(song: Track)
      modifies this
      ensures State() == AfterPlaySongData(old(State()), song).next
      ensures sent == old(sent) + AfterPlaySongData(old(State()), song).sent
      ensures favorites == old(favorites) && categoryData == old(categoryData)
      ensures searchResultsData == old(searchResultsData)
    {
      currentQueue := [song];
      currentQueueIndex := 0;
      currentSong := Some(song);
      isPlaying := true;
      ResetTimer();
      StartTimer();
      sent := sent + [PlaySongRequest(Some(song))];
    }

    method PlayNext()
      modifies this
      ensures State() == AfterPlayNext(old(State())).next
      ensures sent == old(sent) + AfterPlayNext(old(State())).sent
      ensures favorites == old(favorites) && categoryData == old(categoryData)
      ensures searchResultsData == old(searchResultsData)
    {
      if |currentQueue| == 0 {
        return;
      }
      var nextIndex := currentQueueIndex + 1;
      if nextIndex >= |currentQueue| {
        return;
      }
      currentQueueIndex := nextIndex;
      var nextSong := At(currentQueue, currentQueueIndex);
      currentSong := nextSong;
      isPlaying := true;
      ResetTimer();
      StartTimer();
      sent := sent + [PlaySongRequest(nextSong)];
    }

    method PlayPrev()
      modifies this
      ensures State() == AfterPlayPrev(old(State())).next
      ensures sent == old(sent) + AfterPlayPrev(old(State())).sent
      ensures favorites == old(favorites) && categoryData == old(categoryData)
      ensures searchResultsData == old(searchResultsData)
    {
      if |currentQueue| == 0 {
        return;
      }
      if currentSeconds > 3 {
        ResetTimer();
        StartTimer();
        sent := sent + [PlaySongRequest(currentSong)];
        return;
      }
      var prevIndex := currentQueueIndex - 1;
      if prevIndex < 0 {
        ResetTimer();
        StartTimer();
        sent := sent + [PlaySongRequest(currentSong)];
        return;
      }
      currentQueueIndex := prevIndex;
      var prevSong := At(currentQueue, currentQueueIndex);
      currentSong := prevSong;
      isPlaying := true;
      ResetTimer();
      StartTimer();
      sent := sent + [PlaySongRequest(prevSong)];
    }

    method TogglePlayPause()
      modifies this
      ensures State() == old(State()) && favorites == old(favorites)
      ensures categoryData == old(categoryData) && searchResultsData == old(searchResultsData)
      ensures sent == old(sent) + (if currentSong.None? then [] else [TogglePauseRequest])
    {
      if currentSong.None? {
        return;
      }
      sent := sent + [TogglePauseRequest];
    }

    /** `toggleLikeCurrent`: does nothing without a current song, otherwise
        adopts the list `toggle-favorite` returned. */
    method ToggleLikeCurrent(reply: seq<Track>)
      modifies this
      ensures currentSong.None? ==> favorites == old(favorites)
      ensures currentSong.Some? ==> favorites == reply
      ensures State() == old(State()) && categoryData == old(categoryData)
      ensures searchResultsData == old(searchResultsData) && sent == old(sent)
    {
      if currentSong.None? {
        return;
      }
      favorites := reply;
    }

    /** The `update-song` listener. */
    method OnUpdateSong(song: Track)
      modifies this
      ensures State() == old(State()).(currentSong := Some(song))
      ensures favorites == old(favorites) && categoryData == old(categoryData)
      ensures searchResultsData == old(searchResultsData) && sent == old(sent)
    {
      currentSong := Some(song);
    }

    /** The `update-play-state` listener: the same transition as the React
        renderer's. */
    method OnUpdatePlayState(playing: bool)
      modifies this
      ensures State() == AppQueue.AfterOnUpdatePlayState(old(State()), playing).next
      ensures favorites == old(favorites) && categoryData == old(categoryData)
      ensures searchResultsData == old(searchResultsData) && sent == old(sent)
    {
      if playing {
        isPlaying := true;
        StartTimer();
      } else {
        isPlaying := false;
        StopTimer();
      }
    }

    /** The `song-finished` listener: stop, reset, and `playNext`. */
    method OnSongFinished()
      modifies this
      ensures State() == AfterPlayNext(Stopped(old(State()))).next
      ensures sent == old(sent) + AfterPlayNext(Stopped(old(State()))).sent
      ensures favorites == old(favorites) && categoryData == old(categoryData)
      ensures searchResultsData == old(searchResultsData)
    {
      isPlaying := false;
      StopTimer();
      ResetTimer();
      PlayNext();
    }

    /** The `remote-play-next` listener. */
    method OnRemoteNext()
      modifies this
      ensures State() == AfterPlayNext(old(State())).next
      ensures sent == old(sent) + AfterPlayNext(old(State())).sent
      ensures favorites == old(favorites) && categoryData == old(categoryData)
      ensures searchResultsData == old(searchResultsData)
    {
      PlayNext();
    }

    /** The `remote-play-prev` listener. */
    method OnRemotePrev()
      modifies this
      ensures State() == AfterPlayPrev(old(State())).next
      ensures sent == old(sent) + AfterPlayPrev(old(State())).sent
      ensures favorites == old(favorites) && categoryData == old(categoryData)
      ensures searchResultsData == old(searchResultsData)
    {
      PlayPrev();
    }
  }
}
