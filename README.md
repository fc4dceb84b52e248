# Nila music player: playback supervisor, favorites and queues

This project models the core of a desktop music player built on Electron.
The main process resolves a song to a stream with a resolver tool and plays it
in a separate player process. Two renderers keep a play queue and ask the main
process to play: a React one and an older plain-DOM one.

What is modelled:

- **The playback supervisor** (`Playback`, main.js). It holds at most one
  tracked player process, a pause flag and the song last broadcast. A
  generation counter is bumped by every play request. Every asynchronous
  callback (the resolver's output, the player's exit) compares that counter
  with the value it captured, and does nothing when they differ.
  - Each IPC handler and callback is a pure step function on an `Engine`
    value. Each step also returns the messages and process actions it causes.
  - Traces of events, delivered in any order, are folded with `Step`.
  - The class `PlaybackEngine` holds the same state as mutable fields. Its
    methods are proved to perform exactly those steps.
- **The catalog** (`Catalog`, main.js):
  - the fixed query of each home-screen category;
  - the reply channels;
  - the mapping of one JSON line of the search tool's output to a track
    record, with its defaults.
- **The favorites store** (`Favorites`, main.js). It toggles a song by title
  in a list kept in one file.
- **The React queue manager** (`AppQueue`, App.jsx). It holds the queue, the
  cursor, the current song and the seconds counter, and handles next,
  previous, jump, add, song-finished and the floating window's relayed
  next/previous. The handlers are pure transitions on `AppState`. The class
  `App` performs them on fields.
- **The legacy queue** (`LegacyQueue`, legacy_backup/index.js). It has the
  same state slices and its own rules for the play flag and the timer. The
  lemmas compare it with the React renderer handler by handler.
- **The legacy card markup** (`LegacyCards`): the category row ids and the
  escaping of a card's `onclick` attribute.
- **The player bar** (`PlayerBar`, PlayerBar.jsx): `formatTime`, the default
  duration, the duration label and the progress.

Shared pieces live in `JsValues` and `Tracks`:

- JavaScript truthiness of optional strings, `||` and template printing.
- An array read out of range gives `undefined`.
- ECMAScript whitespace and `trim`.
- Single-character regular-expression replacements.
- `Number#toString` for integers.
- The track record and the messages a renderer sends.

The renderers' heart indicator (`isFavorite` in App.jsx, and the `some` test
at legacy_backup/index.js:322) is `AppQueue.IsFavorite` in both cases.

## Model

| member | source | states |
|---|---|---|
| JsValues.ReplaceCharIsPointwise | legacy_backup/index.js:169-170 | `replace(/c/g, with)` maps each character on its own: `c` becomes `with`, any other character is kept, and it distributes over concatenation |
| JsValues.TrimIsInnerSlice | main.js:171-172 | `trim` returns a contiguous slice with only whitespace cut from both ends, never starting or ending in whitespace; it is empty exactly when the input is all whitespace |
| Playback.StreamQuery | main.js:153-162 | the resolver argument: none for a null request (the property read throws); search prefix plus the text for a string; otherwise a truthy `url` verbatim, else a watch url from a truthy `id`, else a search for "title artist" with absent fields printed as `undefined` |
| Playback.StreamQueryIgnoresLowerPriorityFields | main.js:156-161 | a truthy url decides the query whatever id, title and artist are; without one a truthy id decides regardless of title and artist |
| Playback.KillPlayerEffect | main.js:111-123 | no player: nothing changes; with one: the player is forgotten, the pause flag cleared, and a terminate signal is sent exactly when it was not already killed, and an already killed one gets no effect at all |
| Playback.BroadcastsMirrorState | main.js:125-143 | broadcasting the play state sets the pause flag to its negation; broadcasting a song records it for later windows |
| Playback.PlaySongStartsNewGeneration | main.js:145-168 | every play request, a null one included, leaves no player, unpaused, and the generation one higher; a non-null one broadcasts the song and then starts the resolver under the new generation |
| Playback.ResolverOutputGuard | main.js:170-188 | output that is blank after trimming, or from a stale generation, changes nothing; otherwise a player is spawned on the trimmed stream, tracked under the current generation, and "playing" is broadcast |
| Playback.PlayerClosedGuard | main.js:190-197 | a stale exit does nothing; a current one forgets the player, broadcasts "not playing" and then sends `song-finished` |
| Playback.TogglePauseFlips | main.js:211-228 | without a live player nothing happens; with one the pause command goes to the player, the flag flips and the new playing state (the negated flag) is broadcast; a write that throws is caught and changes and sends nothing |
| Playback.StopSongEffect | main.js:230-233 | stop leaves no player and paused, keeps the generation, and ends with "not playing" |
| Playback.StopSongThenExitSendsFinished | main.js:230-233 | because stop does not bump the generation, the killed player's exit still passes the check and `song-finished` is sent after an explicit stop |
| Playback.RepeatedResolverOutputUntracksPlayer | main.js:170-186 | a second non-blank output chunk of the current generation spawns another player and replaces the tracked handle without signalling the first |
| Playback.StepKeepsInv | main.js:111-233 | every handler and callback keeps the invariant that a tracked player belongs to the current generation and is not killed |
| Playback.StepGeneration | main.js:147-151 | only a play request moves the generation, by exactly one |
| Playback.FinalGeneration | main.js:147-151 | over any trace the generation grows by exactly the number of play requests |
| Playback.InvThroughout | main.js:111-233 | the invariant holds in every state of every trace that starts in it |
| Playback.GenerationBetween | main.js:147-151 | between two points of a trace the generation grows by the number of play requests in between |
| Playback.OnlyCurrentGenerationActs | main.js:170-197 | a spawned player and `song-finished` only ever come from a callback of the current generation, and "playing" only from such a resolver callback or a pause toggle of the current player |
| Playback.SupersededCallbacksAreSilent | main.js:173 | once a later play request has been made, any callback of an earlier request changes nothing and emits nothing, in any interleaving |
| Playback.SupersededResolutionScenario | main.js:145-188 | B requested, then D before B resolves: B's late stream is dropped and D's spawns the player |
| Playback.PlaybackEngine.constructor | main.js:8-11 | the engine starts with no player, unpaused, at generation 0, with no song data and nothing sent |
| Playback.PlaybackEngine.KillPlayer | main.js:111-123 | the fields and the effect log after `killPlayer` are those of its step function |
| Playback.PlaybackEngine.BroadcastPlayState | main.js:125-133 | the same for `broadcastPlayState` |
| Playback.PlaybackEngine.BroadcastSong | main.js:135-143 | the same for `broadcastSong` |
| Playback.PlaybackEngine.PlaySong | main.js:145-168 | the same for the `play-song` handler, returning the generation its callbacks capture |
| Playback.PlaybackEngine.OnResolverData | main.js:170-188 | the same for the resolver's output callback |
| Playback.PlaybackEngine.OnPlayerClose | main.js:190-197 | the same for the player's `close` callback |
| Playback.PlaybackEngine.TogglePause | main.js:211-228 | the same for `toggle-pause`, including a write that throws |
| Playback.PlaybackEngine.StopSong | main.js:230-233 | the same for `stop-song` |
| Catalog.CategoryQueryLookup | main.js:315-329 | a known category searches its fixed query; any other searches "<category> songs latest" |
| Catalog.ChannelsAreDistinct | main.js:303-335 | each category replies on its own channel, never on the search channel, so overlapping replies cannot cross |
| Catalog.ToTrackDefaults | main.js:275-288 | id, title and duration pass through; artist is uploader, else channel, else "Unknown"; thumbnail is the record's own when truthy, else the url of the first entry of a non-empty `thumbnails`, else ""; url is the page url, else a watch url; artist and url are never empty |
| Catalog.ResultsStreamFromTheirUrl | main.js:285-287 | every search or category result is played from its own url |
| Catalog.Results | main.js:270-293 | unparsable lines are dropped; every parsed line's record is in the result and every result comes from a parsed line |
| Catalog.ResultsKeepOrder | main.js:270-293 | `map` then `filter(Boolean)` works line by line and keeps order and repeats: an unparsable line gives nothing, a parsed one exactly its record, and the results of concatenated lines are the concatenated results |
| Favorites.FindByTitle | main.js:347 | `findIndex` by title: the first index with that title, or -1 exactly when none has it |
| Favorites.ToggleAbsentAppends | main.js:352-353 | a song whose title is absent is pushed at the end |
| Favorites.TogglePresentRemovesFirst | main.js:347-351 | a song whose title is present removes exactly the first entry with that title, the rest in order |
| Favorites.ToggleTwiceRestores | main.js:345-356 | toggling an absent song twice gives the original list back |
| Favorites.ToggleFlipsMembership | main.js:345-356 | with unique titles a toggle flips whether the title is a favorite and keeps titles unique |
| Favorites.FavoritesStore.constructor | main.js:19-20 | the store reads and writes the given favorites file |
| Favorites.FavoritesStore.GetFavorites | main.js:22-31 | a missing or unreadable file reads as the empty list, a saved one as its list |
| Favorites.FavoritesStore.ToggleFavorite | main.js:345-357 | returns the toggled list of what was stored, and stores it unless saving fails |
| AppQueue.IsFavorite | src/renderer/App.jsx:54-57 | true exactly when some favorite has the song's title (an absent song matches an absent title) |
| AppQueue.PlayNextAtEndIsNoop | src/renderer/App.jsx:110-113 | `playNext` on an empty queue or at the last element changes nothing and sends nothing |
| AppQueue.PlayNextAdvances | src/renderer/App.jsx:114-118 | otherwise the cursor moves one on, the element there becomes the current song, the seconds reset and one request for it is sent |
| AppQueue.PlayPrevRestartsAfterThreeSeconds | src/renderer/App.jsx:130-134 | past three seconds `playPrev` re-requests the current song and only resets the seconds |
| AppQueue.PlayPrevWithinThreeSeconds | src/renderer/App.jsx:135-145 | on a non-empty queue within three seconds, at the start the current song restarts; further in the cursor steps back and the previous element plays |
| AppQueue.PlayFromQueueBounds | src/renderer/App.jsx:158-165 | an index outside the queue is ignored; an index inside jumps there and plays that element |
| AppQueue.AddToQueueAppends | src/renderer/App.jsx:96-98 | the song is appended; existing elements, cursor and current song are kept; nothing is sent |
| AppQueue.PlaySongReplacesQueue | src/renderer/App.jsx:77-83 | the queue becomes `newQueue` or the song alone, the cursor `index ?? 0`, the seconds 0, and the song is requested |
| AppQueue.SongFinishedIsStopThenNext | src/renderer/App.jsx:199-218 | `song-finished` clears the play flag and the timer, resets the seconds and then advances exactly as `playNext` does |
| AppQueue.RemoteNextIsPlayNext | src/renderer/App.jsx:220-235 | the floating window's "next" is the same transition as `playNext` |
| AppQueue.RemotePrevAgreesWithinThreeSeconds | src/renderer/App.jsx:237-261 | on a non-empty queue within three seconds the floating window's "previous" is the same transition as `playPrev` |
| AppQueue.RemotePrevDivergesAfterThreeSeconds | src/renderer/App.jsx:240-257 | past three seconds with the cursor after the start, both re-request the current song, but the remote handler also moves the cursor back |
| AppQueue.TimerCounts | src/renderer/App.jsx:60-74 | a running interval adds one per tick, a stopped one adds nothing, and the play-state listener starts or stops it |
| AppQueue.CursorNeverBelowStart | src/renderer/App.jsx:77-261 | no handler moves the cursor below its initial -1 |
| AppQueue.CursorHandlersKeepConsistent | src/renderer/App.jsx:96-235 | next, previous, jump, add, tick, play-state, song-finished and remote-next keep the current song equal to the element under the cursor |
| AppQueue.PlaySongFromListIsConsistent | src/renderer/App.jsx:77-83 | playing element `index` of a list establishes that invariant |
| AppQueue.RemotePrevBreaksConsistency | src/renderer/App.jsx:240-257 | the remote "previous" past three seconds breaks it whenever the two neighbours differ |
| AppQueue.RemotePrevOnEmptyQueueStillRequests | src/renderer/App.jsx:128-129 | on an empty queue `playPrev` changes nothing and sends nothing, while the floating window's "previous" (App.jsx:237-261) still sends one `play-song` request, carrying the current song at the start and no song from the initial state |
| AppQueue.PrevAfterOnlyEnqueueRequestsNoSong | src/renderer/App.jsx:128-139 | after only adding a song to an empty player, "previous" sends a `play-song` request with no song |
| AppQueue.App.constructor | src/renderer/App.jsx:17-22 | the component starts with an empty queue, the cursor at -1, no current song, 0 seconds, not playing, no timer, no favorites and nothing sent |
| AppQueue.App.ResetTimer | src/renderer/App.jsx:72-74 | the seconds counter becomes 0 and every other field is kept |
| AppQueue.App.PlaySong | src/renderer/App.jsx:77-93 | the component state and the sent messages after `playSong` are those of its transition |
| AppQueue.App.AddToQueue | src/renderer/App.jsx:96-108 | the same for `addToQueue` |
| AppQueue.App.PlayNext | src/renderer/App.jsx:110-126 | the same for `playNext` |
| AppQueue.App.PlayPrev | src/renderer/App.jsx:128-146 | the same for `playPrev` |
| AppQueue.App.PlayFromQueue | src/renderer/App.jsx:158-175 | the same for `playFromQueue` |
| AppQueue.App.TogglePlayPause | src/renderer/App.jsx:148-151 | sends a pause toggle exactly when there is a current song |
| AppQueue.App.OnUpdateSong | src/renderer/App.jsx:186-188 | the current song becomes the broadcast one |
| AppQueue.App.OnUpdatePlayState | src/renderer/App.jsx:190-197 | the play flag and the timer follow the broadcast state |
| AppQueue.App.Tick | src/renderer/App.jsx:62-64 | one interval firing adds a second while the timer runs |
| AppQueue.App.OnSongFinished | src/renderer/App.jsx:199-218 | the same as its transition |
| AppQueue.App.OnRemoteNext | src/renderer/App.jsx:220-235 | the same as its transition |
| AppQueue.App.OnRemotePrev | src/renderer/App.jsx:237-261 | the same as its transition |
| AppQueue.App.LoadFavorites | src/renderer/App.jsx:39-46 | the favorites become the reply, or empty for none, and stay when the call throws |
| AppQueue.App.ToggleFavorite | src/renderer/App.jsx:48-52 | without a song nothing changes; otherwise the favorites become the reply, or empty |
| LegacyQueue.TotalDuration | legacy_backup/index.js:392-394 | a total exists exactly for a song with a truthy duration: the number itself, or 180 for a duration of another type |
| LegacyQueue.PlayNextRules | legacy_backup/index.js:222-238 | no-op when empty or at the end; otherwise plays the next element with the timer running from 0; cursor and request agree with the React `playNext` |
| LegacyQueue.PlayPrevRules | legacy_backup/index.js:240-267 | restart past three seconds or at the start, otherwise step back; cursor and request agree with the React `playPrev` |
| LegacyQueue.RemotePrevKeepsCursor | legacy_backup/index.js:57-59 | here the remote "previous" is `playPrev`, which keeps the cursor where the React handler moves it |
| LegacyQueue.SongFinishedAgrees | legacy_backup/index.js:44-50 | stop, reset and `playNext` move the cursor and send what the React listener does |
| LegacyQueue.PlaySongDataSingleton | legacy_backup/index.js:211-220 | the queue becomes the song alone with the cursor on it, as React `playSong` without a queue |
| LegacyQueue.QueueForSourceCases | legacy_backup/index.js:183-191 | search results for `__search__`, favorites for `__favorites__`, the stored list of a known category, else empty |
| LegacyQueue.CardClickIsConsistent | legacy_backup/index.js:196-208 | clicking card `index` of the list stored for its source puts that song under the cursor, as the React `playSong` does |
| LegacyQueue.TimerRules | legacy_backup/index.js:367-383 | a tick adds one, every play path starts the timer from 0, song-finished stops it at 0 |
| LegacyQueue.LegacyRenderer.constructor | legacy_backup/index.js:6-18 | the renderer starts with no song, not playing, no timer, 0 seconds, no favorites, an empty queue at cursor -1, no category data, no search results and nothing sent |
| LegacyQueue.LegacyRenderer.StartTimer | legacy_backup/index.js:367-373 | the timer runs afterwards (a running one is replaced) and every other field is kept |
| LegacyQueue.LegacyRenderer.StopTimer | legacy_backup/index.js:375-378 | the timer is stopped and every other field is kept |
| LegacyQueue.LegacyRenderer.ResetTimer | legacy_backup/index.js:380-383 | the seconds counter becomes 0 and every other field is kept |
| LegacyQueue.LegacyRenderer.Tick | legacy_backup/index.js:369-372 | one interval firing adds a second while the timer runs |
| LegacyQueue.LegacyRenderer.LoadFavorites | legacy_backup/index.js:62-68 | the favorites become the reply, and stay when the call throws |
| LegacyQueue.LegacyRenderer.OnCategoryResults | legacy_backup/index.js:133-136 | the category's list is stored, an absent one as empty |
| LegacyQueue.LegacyRenderer.OnSearchResults | legacy_backup/index.js:350-352 | the search results are stored, absent ones as empty |
| LegacyQueue.LegacyRenderer.GetQueueForSource | legacy_backup/index.js:183-191 | returns the source's queue, reloading the favorites for the favorites source |
| LegacyQueue.LegacyRenderer.PlaySongFromQueue | legacy_backup/index.js:196-208 | state and sent messages are those of its transition on the source's queue |
| LegacyQueue.LegacyRenderer.PlaySongData | legacy_backup/index.js:211-220 | the same for `playSongData` |
| LegacyQueue.LegacyRenderer.PlayNext | legacy_backup/index.js:222-238 | the same for `playNext` |
| LegacyQueue.LegacyRenderer.PlayPrev | legacy_backup/index.js:240-267 | the same for `playPrev` |
| LegacyQueue.LegacyRenderer.TogglePlayPause | legacy_backup/index.js:283-288 | sends a pause toggle exactly when there is a current song |
| LegacyQueue.LegacyRenderer.ToggleLikeCurrent | legacy_backup/index.js:303-313 | without a current song nothing changes; otherwise the favorites become the reply |
| LegacyQueue.LegacyRenderer.OnUpdateSong | legacy_backup/index.js:29-32 | the current song becomes the broadcast one |
| LegacyQueue.LegacyRenderer.OnUpdatePlayState | legacy_backup/index.js:34-42 | the same transition as the React listener |
| LegacyQueue.LegacyRenderer.OnSongFinished | legacy_backup/index.js:44-50 | stop, reset, then exactly `playNext` |
| LegacyQueue.LegacyRenderer.OnRemoteNext | legacy_backup/index.js:53-55 | exactly `playNext` |
| LegacyQueue.LegacyRenderer.OnRemotePrev | legacy_backup/index.js:57-59 | exactly `playPrev` |
| LegacyCards.HomeCategoriesAreMapped | legacy_backup/index.js:100-112 | the home screen's categories are exactly those the main process has a query for |
| LegacyCards.SafeCatIdCharacters | legacy_backup/index.js:118 | the row id holds no whitespace and no `-`, only characters of the category, and keeps all its other characters |
| LegacyCards.EscapeQuotesRemovesQuotes | legacy_backup/index.js:169-170 | no raw `"` is left, every other character survives, and for text without `&` the browser's decoding gives back exactly the text |
| LegacyCards.EscapeQuotesDecodes | legacy_backup/index.js:169-170 | each `"` became `&quot;` and nothing else changed: decoding the escaped text without `&` is the identity |
| LegacyCards.AsWrittenLeaksApostrophe | legacy_backup/index.js:169-172 | an apostrophe in the serialised song reaches the single-quoted attribute value |
| LegacyCards.ApostropheTitleExample | legacy_backup/index.js:172 | the record `{"title":"Don't Stop"}` is such a song |
| LegacyCards.EscapeAttributeHasNoQuotes | legacy_backup/index.js:169-172 | the corrected escaping leaves neither quote character |
| LegacyCards.EscapeAttributeRoundTrip | legacy_backup/index.js:169-172 | decoding the corrected escaping gives back the text |
| LegacyCards.OnclickRunsTheCall | legacy_backup/index.js:171-172 | with the corrected escaping the attribute cannot close early and decodes to exactly the intended call |
| PlayerBar.FieldsSplitTime | src/renderer/components/PlayerBar.jsx:6-8 | for a counter at or above 0, minutes times 60 plus seconds is the counter and the seconds are below 60 |
| PlayerBar.NegativeTimeDoesNotSplit | src/renderer/components/PlayerBar.jsx:7-9 | below 0 the floored minutes and truncated seconds add up only for whole minutes and otherwise come out 60 seconds short; -1 prints "-1:-1" |
| PlayerBar.PadTwoDigits | src/renderer/components/PlayerBar.jsx:9 | a number below 100, padded to two places, is its two digits |
| PlayerBar.FormatTimeShape | src/renderer/components/PlayerBar.jsx:9 | below 6000 seconds the label is five characters, digits around a colon at position 2 |
| PlayerBar.FormatTimeRoundTrip | src/renderer/components/PlayerBar.jsx:6-10 | reading the `mm:ss` label back gives the counter |
| PlayerBar.DurationDefault | src/renderer/components/PlayerBar.jsx:25 | the shown duration is the song's when truthy, otherwise 180 (zero, absent, or no song), so it is never falsy |
| PlayerBar.DurationLabelRules | src/renderer/components/PlayerBar.jsx:73 | no song shows `--:--`, which no real time label equals; a song whose duration is falsy (absent, 0 or "") shows 03:00 |
| PlayerBar.ProgressBounds | src/renderer/components/PlayerBar.jsx:26 | no song gives 0; with a positive duration the progress stays within 0 to 100 and reaches 100 exactly when the counter reaches the duration |

## Findings

| source | as written | input that shows it | evidently intended | confidence | as-written member | corrected member |
|---|---|---|---|---|---|---|
| legacy_backup/index.js:169-172 | only `"` is escaped in the song's JSON, and the result is placed in an `onclick` attribute delimited by `'` | a track titled `Don't Stop`: the attribute ends at the apostrophe, inside a JSON string literal, so the handler fails to parse and the click does nothing | the attribute value carries the whole `playSongFromQueue(...)` call for any record; `'` and `&` need escaping too | high, not executed | LegacyCards.AsWrittenLeaksApostrophe | LegacyCards.OnclickRunsTheCall |

## Left out

- Window management (`createWindow`, `createFloatingPlayer`, the window control handlers) and the `isDestroyed` checks: every broadcast is one log entry, and a closed window simply does not receive it. This includes the floating window's load snapshot (main.js:93-98), which resends the song data and `!isPaused`, and so reports "playing" while a request is still resolving.
- The IPC transport, `spawn`, process arguments other than the resolver query, stderr logging and the `error` listener: processes are abstract, and their output, exit and process id arrive as event parameters.
- File input/output and `JSON.parse`/`JSON.stringify`: the favorites file is a `StoredFile` value, and a card receives its song's JSON as a string. A file holding valid JSON that is not an array is not modelled.
- `saveFavorites`: modelled only as "written or not", through the `written` parameter of `ToggleFavorite`.
- The line splitting of the search tool's output: `Catalog.Results` takes the lines already parsed.
- Prototype keys such as `toString` in `queryMap` and `categoryData`: both are plain maps here.
- `LegacyQueue.LegacyRenderer.ToggleLikeCurrent`: the library re-render that follows when the library view is showing, because it depends on the DOM.
- Toasts, DOM and React rendering, the card markup other than the `onclick` attribute, and `updateProgressBar`'s DOM writes.
- React's batching and StrictMode double invocation of updaters: each handler's updaters are applied in order, once, before the next event. The nested updaters of `onRemotePrev` are taken as one transition that ends with the seconds at 0.
- A `play-song` request carrying a plain string is accepted by the supervisor (`Request.Text`), but the renderers never send one, so their `update-song` listeners take tracks only.
- Durations that are fractional or are numeric strings: JavaScript coerces those. `PlayerBar.DurationLabel` and `PlayerBar.Progress` return `None` for a string duration.
- Progress is an exact `real`, where JavaScript uses floating point.
- `null` and `undefined` are one value (`None`): a template literal prints "null" for a `null` field, such as a `title: null` in a stored record reaching `Playback.StreamQuery`'s search fallback, where `Show` prints "undefined".
- test-mpv.js is a manual experiment and is not part of this model.
