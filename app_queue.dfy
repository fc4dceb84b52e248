/** The queue manager of the React renderer (`App`): the queue, the cursor
    into it, the current song, the elapsed-seconds counter and the play flag,
    and the handlers that move the cursor and ask the main process to play.

    Each handler is a pure transition on `AppState` that also lists the
    messages it sends; the `App` class holds the same state slices as fields
    and its methods perform the transitions in place. React's asynchronous
    state updates are taken to be applied in order before the next handler runs. */
module AppQueue {
  import opened JsValues
  import opened Tracks
  import Favorites

  datatype AppState = AppState(
    queue: seq<Track>,
    queueIndex: int,
    currentSong: Option<Track>,
    currentSeconds: nat,
    isPlaying: bool,
    timerRunning: bool)

  const Initial: AppState := AppState([], -1, None, 0, false, false)

  datatype Outcome = Outcome(next: AppState, sent: seq<Outgoing>)

  /** `playSong(song, newQueue, index)`: the queue becomes `newQueue`, or the
      song alone when it is absent (an empty array is kept: it is truthy), and
      the cursor becomes `index ?? 0`. */
  function AfterPlaySong(s: AppState, song: Track, newQueue: Option<seq<Track>>, index: Option<int>): Outcome {
    Outcome(
      s.(currentSong := Some(song),
         queue := if newQueue.Some? then newQueue.value else [song],
         queueIndex := if index.Some? then index.value else 0,
         currentSeconds := 0),
      [PlaySongRequest(Some(song))])
  }

  function AfterAddToQueue(s: AppState, song: Track): Outcome {
    Outcome(s.(queue := s.queue + [song]), [])
  }

  function AfterPlayNext(s: AppState): Outcome {
    if |s.queue| == 0 then Outcome(s, [])
    else
      var nextIdx := s.queueIndex + 1;
      if nextIdx >= |s.queue| then Outcome(s, [])
      else
        var nextSong := At(s.queue, nextIdx);
        Outcome(s.(queueIndex := nextIdx, currentSong := nextSong, currentSeconds := 0), [PlaySongRequest(nextSong)])
  }

  function AfterPlayPrev(s: AppState): Outcome {
    if |s.queue| == 0 then Outcome(s, [])
    else if s.currentSeconds > 3 then Outcome(s.(currentSeconds := 0), [PlaySongRequest(s.currentSong)])
    else
      var prevIdx := s.queueIndex - 1;
      if prevIdx < 0 then Outcome(s.(currentSeconds := 0), [PlaySongRequest(s.currentSong)])
      else
        var prevSong := At(s.queue, prevIdx);
        Outcome(s.(queueIndex := prevIdx, currentSong := prevSong, currentSeconds := 0), [PlaySongRequest(prevSong)])
  }

  function AfterPlayFromQueue(s: AppState, index: int): Outcome {
    if index < 0 || index >= |s.queue| then Outcome(s, [])
    else
      Outcome(s.(queueIndex := index, currentSong := Some(s.queue[index]), currentSeconds := 0),
              [PlaySongRequest(Some(s.queue[index]))])
  }

  function AfterTogglePlayPause(s: AppState): Outcome {
    if s.currentSong.None? then Outcome(s, []) else Outcome(s, [TogglePauseRequest])
  }

  /** The `update-song` listener. */
  function AfterOnUpdateSong(s: AppState, song: Track): Outcome {
    Outcome(s.(currentSong := Some(song)), [])
  }

  /** The `update-play-state` listener: the timer runs exactly while playing. */
  function AfterOnUpdatePlayState(s: AppState, playing: bool): Outcome {
    Outcome(s.(isPlaying := playing, timerRunning := playing), [])
  }

  /** One firing of the one-second interval. */
  function AfterTick(s: AppState): Outcome {
    if s.timerRunning then Outcome(s.(currentSeconds := s.currentSeconds + 1), []) else Outcome(s, [])
  }

  /** The `song-finished` listener: stop, reset, and advance when a next
      element exists. */
  function AfterOnSongFinished(s: AppState): Outcome {
    var stopped := s.(isPlaying := false, timerRunning := false, currentSeconds := 0);
    var nextIdx := s.queueIndex + 1;
    if nextIdx < |s.queue| then
      var nextSong := At(s.queue, nextIdx);
      Outcome(stopped.(currentSong := nextSong, queueIndex := nextIdx), [PlaySongRequest(nextSong)])
    else Outcome(stopped, [])
  }

  /** The `remote-play-next` listener. */
  function AfterOnRemoteNext(s: AppState): Outcome {
    var nextIdx := s.queueIndex + 1;
    if nextIdx < |s.queue| then
      var nextSong := At(s.queue, nextIdx);
      Outcome(s.(currentSong := nextSong, currentSeconds := 0, queueIndex := nextIdx), [PlaySongRequest(nextSong)])
    else Outcome(s, [])
  }

  /** The `remote-play-prev` listener. The song decision and the index
      decision are taken in separate state updaters with different tests:
      the song restarts when more than three seconds have passed or the
      cursor is at most 0, while the cursor moves back whenever it is
      positive. */
  function AfterOnRemotePrev(s: AppState): Outcome {
    var idx := s.queueIndex;
    var song := if s.currentSeconds > 3 || idx <= 0 then s.currentSong else At(s.queue, idx - 1);
    Outcome(s.(currentSong := song, currentSeconds := 0, queueIndex := if idx > 0 then idx - 1 else idx),
            [PlaySongRequest(song)])
  }

  /** `isFavorite(song)`: some favorite has the title of `song?.title`. */
  function IsFavorite(favorites: seq<Track>, song: Option<Track>): (r: bool)
    ensures r <==> Favorites.HasTitle(favorites, TitleOf(song))
  {
    Favorites.FindByTitle(favorites, TitleOf(song)) >= 0
  }

  // ---------------------------------------------------------------------
  // Properties of the handlers

  /** At the end of the queue (or with an empty queue) `playNext` changes
      nothing and asks for nothing. */
  lemma PlayNextAtEndIsNoop(s: AppState)
    requires |s.queue| == 0 || s.queueIndex + 1 >= |s.queue|
    ensures AfterPlayNext(s) == Outcome(s, [])
  {
  }

  /** Otherwise it moves the cursor one forward, makes the element there the
      current song, resets the seconds and sends exactly one request for it.
      Nothing else changes. */
  lemma PlayNextAdvances(s: AppState)
    requires -1 <= s.queueIndex && s.queueIndex + 1 < |s.queue|
    ensures var o := AfterPlayNext(s);
      o.next == s.(queueIndex := s.queueIndex + 1, currentSong := Some(s.queue[s.queueIndex + 1]), currentSeconds := 0)
      && o.sent == [PlaySongRequest(Some(s.queue[s.queueIndex + 1]))]
  {
  }

  /** More than three seconds in, `playPrev` restarts the current song in
      place: cursor and song are kept, only the seconds reset. */
  lemma PlayPrevRestartsAfterThreeSeconds(s: AppState)
    requires |s.queue| > 0 && s.currentSeconds > 3
    ensures AfterPlayPrev(s) == Outcome(s.(currentSeconds := 0), [PlaySongRequest(s.currentSong)])
  {
  }

  /** Within three seconds, at the start of the queue `playPrev` restarts the
      current song; further in it steps back to the previous element. */
  lemma PlayPrevWithinThreeSeconds(s: AppState)
    requires |s.queue| > 0 && s.currentSeconds <= 3 && s.queueIndex <= |s.queue|
    ensures s.queueIndex <= 0 ==> AfterPlayPrev(s) == Outcome(s.(currentSeconds := 0), [PlaySongRequest(s.currentSong)])
    ensures s.queueIndex > 0 ==>
      AfterPlayPrev(s) == Outcome(s.(queueIndex := s.queueIndex - 1, currentSong := Some(s.queue[s.queueIndex - 1]), currentSeconds := 0),
                             [PlaySongRequest(Some(s.queue[s.queueIndex - 1]))])
  {
  }

  /** `playFromQueue(i)` ignores an index outside the queue and otherwise
      jumps there. */
  lemma PlayFromQueueBounds(s: AppState, i: int)
    ensures (i < 0 || i >= |s.queue|) ==> AfterPlayFromQueue(s, i) == Outcome(s, [])
    ensures 0 <= i < |s.queue| ==>
      var o := AfterPlayFromQueue(s, i);
      o.next.queueIndex == i && o.next.currentSong == Some(s.queue[i]) && o.next.queue == s.queue
      && o.next.currentSeconds == 0 && o.sent == [PlaySongRequest(Some(s.queue[i]))]
  {
  }

  /** `addToQueue` appends at the end: the existing elements, the cursor and
      the current song stay as they are. */
  lemma AddToQueueAppends(s: AppState, song: Track)
    ensures var q := AfterAddToQueue(s, song).next.queue;
      |q| == |s.queue| + 1 && q[..|s.queue|] == s.queue && q[|s.queue|] == song
    ensures AfterAddToQueue(s, song).next.queueIndex == s.queueIndex
    ensures AfterAddToQueue(s, song).next.currentSong == s.currentSong
    ensures AfterAddToQueue(s, song).sent == []
  {
    assert (s.queue + [song])[..|s.queue|] == s.queue;
  }

  /** `playSong` replaces the queue wholesale and resets the seconds. */
  lemma PlaySongReplacesQueue(s: AppState, song: Track, newQueue: Option<seq<Track>>, index: Option<int>)
    ensures var o := AfterPlaySong(s, song, newQueue, index);
      o.next.queue == (if newQueue.None? then [song] else newQueue.value)
      && o.next.queueIndex == (if index.None? then 0 else index.value)
      && o.next.currentSong == Some(song) && o.next.currentSeconds == 0
      && o.sent == [PlaySongRequest(Some(song))]
  {
  }

  /** `song-finished` is `playNext` after stopping: it clears the play flag
      and the timer, resets the seconds, keeps the queue, and then advances
      exactly as `playNext` does (staying put at the end of the queue). The
      cursor is never below its initial -1 (`CursorNeverBelowStart`). */
  lemma SongFinishedIsStopThenNext(s: AppState)
    requires s.queueIndex >= -1
    ensures AfterOnSongFinished(s) == AfterPlayNext(s.(isPlaying := false, timerRunning := false, currentSeconds := 0))
    ensures AfterOnSongFinished(s).next.queue == s.queue && !AfterOnSongFinished(s).next.isPlaying
  {
  }

  /** The floating window's "next" behaves exactly like the main window's
      (for every cursor from -1 on). */
  lemma RemoteNextIsPlayNext(s: AppState)
    requires s.queueIndex >= -1
    ensures AfterOnRemoteNext(s) == AfterPlayNext(s)
  {
  }

  /** Within three seconds and with a non-empty queue, the floating window's
      "previous" behaves exactly like the main window's. */
  lemma RemotePrevAgreesWithinThreeSeconds(s: AppState)
    requires |s.queue| > 0 && s.currentSeconds <= 3
    ensures AfterOnRemotePrev(s) == AfterPlayPrev(s)
  {
  }

  /** Past three seconds with the cursor after the start, the two disagree:
      `playPrev` keeps the cursor, while the remote handler replays the
      current song yet moves the cursor back by one. */
  lemma RemotePrevDivergesAfterThreeSeconds(s: AppState)
    requires |s.queue| > 0 && s.currentSeconds > 3 && s.queueIndex > 0
    ensures AfterPlayPrev(s).next.queueIndex == s.queueIndex
    ensures AfterOnRemotePrev(s).next.queueIndex == s.queueIndex - 1
    ensures AfterOnRemotePrev(s).next.currentSong == AfterPlayPrev(s).next.currentSong == s.currentSong
    ensures AfterOnRemotePrev(s).sent == AfterPlayPrev(s).sent == [PlaySongRequest(s.currentSong)]
  {
  }

  /** No handler moves the cursor below -1, its initial value, as long as
      `playSong` is given no index below it (the cards pass their position). */
  lemma CursorNeverBelowStart(s: AppState, song: Track, q: Option<seq<Track>>, index: Option<int>, i: int, playing: bool)
    requires s.queueIndex >= -1
    requires index.Some? ==> index.value >= -1
    ensures Initial.queueIndex >= -1
    ensures AfterPlaySong(s, song, q, index).next.queueIndex >= -1
    ensures AfterAddToQueue(s, song).next.queueIndex >= -1
    ensures AfterPlayNext(s).next.queueIndex >= -1 && AfterPlayPrev(s).next.queueIndex >= -1
    ensures AfterPlayFromQueue(s, i).next.queueIndex >= -1 && AfterTick(s).next.queueIndex >= -1
    ensures AfterOnSongFinished(s).next.queueIndex >= -1 && AfterOnRemoteNext(s).next.queueIndex >= -1
    ensures AfterOnRemotePrev(s).next.queueIndex >= -1 && AfterOnUpdatePlayState(s, playing).next.queueIndex >= -1
  {
  }

  /** The seconds counter: a reset gives 0, each tick of a running timer adds
      exactly one, and a stopped timer does not count. */
  lemma TimerCounts(s: AppState)
    ensures s.timerRunning ==> AfterTick(s).next.currentSeconds == s.currentSeconds + 1
    ensures !s.timerRunning ==> AfterTick(s).next == s
    ensures AfterOnUpdatePlayState(s, true).next.timerRunning && !AfterOnUpdatePlayState(s, false).next.timerRunning
  {
  }

  // ---------------------------------------------------------------------
  // The cursor invariant

  /** The cursor points into the queue and the current song is the element
      under it. */
  ghost predicate Consistent(s: AppState) {
    0 <= s.queueIndex < |s.queue| && s.currentSong == Some(s.queue[s.queueIndex])
  }

  /** `playNext`, `playPrev`, `playFromQueue`, `addToQueue`, the timer and
      the `song-finished` and remote-next listeners keep the current song
      equal to the element under the cursor. */
  lemma CursorHandlersKeepConsistent(s: AppState, song: Track, i: int, playing: bool)
    requires Consistent(s)
    ensures Consistent(AfterPlayNext(s).next) && Consistent(AfterPlayPrev(s).next)
    ensures Consistent(AfterPlayFromQueue(s, i).next) && Consistent(AfterAddToQueue(s, song).next)
    ensures Consistent(AfterOnSongFinished(s).next) && Consistent(AfterOnRemoteNext(s).next)
    ensures Consistent(AfterTick(s).next) && Consistent(AfterOnUpdatePlayState(s, playing).next)
  {
    assert (s.queue + [song])[s.queueIndex] == s.queue[s.queueIndex];
  }

  /** `playSong` from a card establishes the invariant. */
  lemma PlaySongFromListIsConsistent(s: AppState, songs: seq<Track>, index: int)
    requires 0 <= index < |songs|
    ensures Consistent(AfterPlaySong(s, songs[index], Some(songs), Some(index)).next)
  {
  }

  /** The remote "previous" breaks it: past three seconds it moves the cursor
      back but keeps the current song, so the song under the cursor is no
      longer the one playing whenever the two neighbours differ. */
  lemma RemotePrevBreaksConsistency(s: AppState)
    requires Consistent(s) && s.currentSeconds > 3 && s.queueIndex > 0
    requires s.queue[s.queueIndex - 1] != s.queue[s.queueIndex]
    ensures !Consistent(AfterOnRemotePrev(s).next)
  {
  }

  /** From the initial state, a song added to the queue and then "previous"
      sends a `play-song` request carrying no song at all. */
  lemma PrevAfterOnlyEnqueueRequestsNoSong(song: Track)
    ensures var s := AfterAddToQueue(Initial, song).next;
      AfterPlayPrev(s).sent == [PlaySongRequest(None)]
  {
  }

  /** On an empty queue the two "previous" handlers part ways: `playPrev`
      returns before doing anything, while the remote handler still sends a
      `play-song` request. At the start that request carries no song, which
      the main process answers by killing the player it is running. */
  lemma RemotePrevOnEmptyQueueStillRequests(s: AppState)
    requires |s.queue| == 0
    ensures AfterPlayPrev(s) == Outcome(s, [])
    ensures |AfterOnRemotePrev(s).sent| == 1
    ensures s.queueIndex <= 0 ==> AfterOnRemotePrev(s).sent == [PlaySongRequest(s.currentSong)]
    ensures AfterOnRemotePrev(Initial).sent == [PlaySongRequest(None)]
  {
  }

  // ---------------------------------------------------------------------
  // The component's state

  class App {
    var queue: seq<Track>
    var queueIndex: int
    var currentSong: Option<Track>
    var currentSeconds: nat
    var isPlaying: bool
    var timerRunning: bool
    var favorites: seq<Track>
    /** Every asynchronous `play-song` and `toggle-pause` message sent to
        the main process so far, oldest first; the synchronous favorites
        calls are not logged. */
    var sent: seq<Outgoing>

    function State(): AppState
      reads this
    {
      AppState(queue, queueIndex, currentSong, currentSeconds, isPlaying, timerRunning)
    }

    constructor ()
      ensures State() == Initial && favorites == [] && sent == []
    {
      queue, queueIndex, currentSong, currentSeconds := [], -1, None, 0;
      isPlaying, timerRunning := false, false;
      favorites, sent := [], [];
    }

    method ResetTimer()
      modifies this
      ensures State() == old(State()).(currentSeconds := 0)
      ensures favorites == old(favorites) && sent == old(sent)
    {
      currentSeconds := 0;
    }

    method PlaySong(song: Track, newQueue: Option<seq<Track>>, index: Option<int>)
      modifies this
      ensures State() == AfterPlaySong(old(State()), song, newQueue, index).next
      ensures sent == old(sent) + AfterPlaySong(old(State()), song, newQueue, index).sent
      ensures favorites == old(favorites)
    {
      currentSong := Some(song);
      queue := if newQueue.Some? then newQueue.value else [song];
      queueIndex := if index.Some? then index.value else 0;
      ResetTimer();
      sent := sent + [PlaySongRequest(Some(song))];
    }

    method AddToQueue(song: Track)
      modifies this
      ensures State() == AfterAddToQueue(old(State()), song).next
      ensures sent == old(sent) && favorites == old(favorites)
    {
      queue := queue + [song];
    }

    method PlayNext()
      modifies this
      ensures State() == AfterPlayNext(old(State())).next
      ensures sent == old(sent) + AfterPlayNext(old(State())).sent
      ensures favorites == old(favorites)
    {
      if |queue| == 0 {
        return;
      }
      var nextIdx := queueIndex + 1;
      if nextIdx >= |queue| {
        return;
      }
      var nextSong := At(queue, nextIdx);
      queueIndex := nextIdx;
      currentSong := nextSong;
      ResetTimer();
      sent := sent + [PlaySongRequest(nextSong)];
    }

    method PlayPrev()
      modifies this
      ensures State() == AfterPlayPrev(old(State())).next
      ensures sent == old(sent) + AfterPlayPrev(old(State())).sent
      ensures favorites == old(favorites)
    {
      if |queue| == 0 {
        return;
      }
      if currentSeconds > 3 {
        ResetTimer();
        sent := sent + [PlaySongRequest(currentSong)];
        return;
      }
      var prevIdx := queueIndex - 1;
      if prevIdx < 0 {
        ResetTimer();
        sent := sent + [PlaySongRequest(currentSong)];
        return;
      }
      var prevSong := At(queue, prevIdx);
      queueIndex := prevIdx;
      currentSong := prevSong;
      ResetTimer();
      sent := sent + [PlaySongRequest(prevSong)];
    }

    method PlayFromQueue(index: int)
      modifies this
      ensures State() == AfterPlayFromQueue(old(State()), index).next
      ensures sent == old(sent) + AfterPlayFromQueue(old(State()), index).sent
      ensures favorites == old(favorites)
    {
      if index < 0 || index >= |queue| {
        return;
      }
      var song := queue[index];
      queueIndex := index;
      currentSong := Some(song);
      ResetTimer();
      sent := sent + [PlaySongRequest(Some(song))];
    }

    method TogglePlayPause()
      modifies this
      ensures State() == old(State()) && favorites == old(favorites)
      ensures sent == old(sent) + AfterTogglePlayPause(old(State())).sent
    {
      if currentSong.None? {
        return;
      }
      sent := sent + [TogglePauseRequest];
    }

    method OnUpdateSong(song: Track)
      modifies this
      ensures State() == AfterOnUpdateSong(old(State()), song).next
      ensures sent == old(sent) && favorites == old(favorites)
    {
      currentSong := Some(song);
    }

    method OnUpdatePlayState(playing: bool)
      modifies this
      ensures State() == AfterOnUpdatePlayState(old(State()), playing).next
      ensures sent == old(sent) && favorites == old(favorites)
    {
      isPlaying := playing;
      timerRunning := playing;
    }

    method Tick()
      modifies this
      ensures State() == AfterTick(old(State())).next
      ensures sent == old(sent) && favorites == old(favorites)
    {
      if timerRunning {
        currentSeconds := currentSeconds + 1;
      }
    }

    method OnSongFinished()
      modifies this
      ensures State() == AfterOnSongFinished(old(State())).next
      ensures sent == old(sent) + AfterOnSongFinished(old(State())).sent
      ensures favorites == old(favorites)
    {
      isPlaying := false;
      timerRunning := false;
      ResetTimer();
      var nextIdx := queueIndex + 1;
      if nextIdx < |queue| {
        var nextSong := At(queue, nextIdx);
        currentSong := nextSong;
        ResetTimer();
        sent := sent + [PlaySongRequest(nextSong)];
        queueIndex := nextIdx;
      }
    }

    method OnRemoteNext()
      modifies this
      ensures State() == AfterOnRemoteNext(old(State())).next
      ensures sent == old(sent) + AfterOnRemoteNext(old(State())).sent
      ensures favorites == old(favorites)
    {
      var nextIdx := queueIndex + 1;
      if nextIdx < |queue| {
        var nextSong := At(queue, nextIdx);
        currentSong := nextSong;
        ResetTimer();
        sent := sent + [PlaySongRequest(nextSong)];
        queueIndex := nextIdx;
      }
    }

    method OnRemotePrev()
      modifies this
      ensures State() == AfterOnRemotePrev(old(State())).next
      ensures sent == old(sent) + AfterOnRemotePrev(old(State())).sent
      ensures favorites == old(favorites)
    {
      var idx := queueIndex;
      if currentSeconds > 3 || idx <= 0 {
        ResetTimer();
        sent := sent + [PlaySongRequest(currentSong)];
      } else {
        var prevSong := At(queue, idx - 1);
        currentSong := prevSong;
        ResetTimer();
        sent := sent + [PlaySongRequest(prevSong)];
      }
      if idx > 0 {
        queueIndex := idx - 1;
      }
    }

    /** `loadFavorites`: the list the main process returned, or the empty
        list when it returned none; `threw` is true when the synchronous call
        throws, which keeps the list. */
    method LoadFavorites(threw: bool, reply: Option<seq<Track>>)
      modifies this
      ensures threw ==> favorites == old(favorites)
      ensures !threw ==> favorites == (if reply.Some? then reply.value else [])
      ensures State() == old(State()) && sent == old(sent)
    {
      if threw {
        return;
      }
      favorites := if reply.Some? then reply.value else [];
    }

    /** `toggleFavorite`: does nothing without a song; otherwise adopts the
        list the main process's `toggle-favorite` returned. */
    method ToggleFavorite(song: Option<Track>, reply: Option<seq<Track>>)
      modifies this
      ensures song.None? ==> favorites == old(favorites)
      ensures song.Some? ==> favorites == (if reply.Some? then reply.value else [])
      ensures State() == old(State()) && sent == old(sent)
    {
      if song.None? {
        return;
      }
      favorites := if reply.Some? then reply.value else [];
    }
  }
}
