/** The playback engine of the main process: at most one tracked player
    process, a pause flag, the song last broadcast, and a generation counter
    that every asynchronous callback compares with the value it captured when
    its play request started.

    The subprocesses are abstract: the resolver's output and the player's exit
    arrive as events carrying the generation their callback captured, in any
    order and any number of times; the player's process id is chosen by the
    environment. Every message to the windows is an `Effect` appended to a log. */
module Playback {
  import opened JsValues
  import opened Tracks

  /** What a `play-song` message carries: nothing, a free-text query, or a track. */
  datatype Request = NoSong | Text(text: string) | Song(track: Track)

  const SearchPrefix: string := "ytsearch1:"
  const WatchPrefix: string := "https://www.youtube.com/watch?v="

  /** The argument handed to the stream resolver for a request. `None` when
      the request is null: reading its `url` throws before any query exists. */
  function StreamQuery(req: Request): (q: Option<string>)
    ensures q.None? <==> req.NoSong?
    ensures req.Text? ==> q == Some(SearchPrefix + req.text)
    ensures req.Song? && Truthy(req.track.url) ==> q == req.track.url
    ensures req.Song? && !Truthy(req.track.url) && Truthy(req.track.id) ==>
              q == Some(WatchPrefix + req.track.id.value)
    ensures req.Song? && !Truthy(req.track.url) && !Truthy(req.track.id) ==>
              q == Some(SearchPrefix + Show(req.track.title) + " " + Show(req.track.artist))
  {
    match req
    case NoSong => None
    case Text(s) => Some(SearchPrefix + s)
    case Song(t) =>
      if Truthy(t.url) then t.url
      else if Truthy(t.id) then Some(WatchPrefix + t.id.value)
      else Some(SearchPrefix + Show(t.title) + " " + Show(t.artist))
  }

  /** A track with a usable `url` streams from it whatever its id, title and
      artist are; without one, a usable id decides regardless of title and artist. */
  lemma StreamQueryIgnoresLowerPriorityFields(t: Track, u: Track)
    ensures Truthy(t.url) && u.url == t.url ==> StreamQuery(Song(t)) == StreamQuery(Song(u))
    ensures !Truthy(t.url) && !Truthy(u.url) && Truthy(t.id) && u.id == t.id ==>
              StreamQuery(Song(t)) == StreamQuery(Song(u))
  {
  }

  /** The player process last spawned. `generation` is the value its spawning
      callback captured (a model annotation); `killed` is Node's flag that a
      kill signal was delivered. */
  datatype Handle = Handle(pid: nat, killed: bool, generation: nat)

  /** The module-level state of the main process. */
  datatype Engine = Engine(
    player: Option<Handle>,
    isPaused: bool,
    playerGeneration: nat,
    currentSongData: Option<Request>)

  const Initial: Engine := Engine(None, false, 0, None)

  /** What the engine does to the outside world. Broadcasts reach every open
      window; a window that is closed simply does not receive them. */
  datatype Effect =
    | SongBroadcast(song: Request)
    | PlayStateBroadcast(playing: bool)
    | SongFinishedSent
    | ResolverSpawned(generation: nat, query: string)
    | PlayerSpawned(generation: nat, pid: nat, stream: string)
    | TerminateSignalled(pid: nat)
    | PauseCycled(pid: nat)

  datatype Outcome = Outcome(next: Engine, effects: seq<Effect>)

  /** `killPlayer`: signal the tracked player unless it is already killed,
      forget it, and clear the pause flag. */
  function AfterKillPlayer(e: Engine): Outcome {
    match e.player
    case None => Outcome(e, [])
    case Some(h) =>
      Outcome(e.(player := None, isPaused := false), if h.killed then [] else [TerminateSignalled(h.pid)])
  }

  /** `broadcastPlayState`: the pause flag becomes the negation of `playing`. */
  function AfterBroadcastPlayState(e: Engine, playing: bool): Outcome {
    Outcome(e.(isPaused := !playing), [PlayStateBroadcast(playing)])
  }

  /** `broadcastSong`: remember the song for windows opened later. */
  function AfterBroadcastSong(e: Engine, song: Request): Outcome {
    Outcome(e.(currentSongData := Some(song)), [SongBroadcast(song)])
  }

  /** The `play-song` handler up to the point where it waits for the resolver. */
  function AfterPlaySong(e: Engine, req: Request): Outcome {
    var k := AfterKillPlayer(e);
    var started := k.next.(isPaused := false, playerGeneration := k.next.playerGeneration + 1);
    match StreamQuery(req)
    case None => Outcome(started, k.effects)
    case Some(q) =>
      var b := AfterBroadcastSong(started, req);
      Outcome(b.next, k.effects + b.effects + [ResolverSpawned(started.playerGeneration, q)])
  }

  /** The resolver's stdout callback of the request that captured `captured`. */
  function AfterResolverOutput(e: Engine, captured: nat, data: string, pid: nat): Outcome {
    var stream := Trim(data);
    if stream == "" || captured != e.playerGeneration then Outcome(e, [])
    else
      var b := AfterBroadcastPlayState(e.(player := Some(Handle(pid, false, captured))), true);
      Outcome(b.next, [PlayerSpawned(captured, pid, stream)] + b.effects)
  }

  /** The player's `close` callback of the request that captured `captured`. */
  function AfterPlayerClose(e: Engine, captured: nat): Outcome {
    if captured != e.playerGeneration then Outcome(e, [])
    else
      var b := AfterBroadcastPlayState(e.(player := None), false);
      Outcome(b.next, b.effects + [SongFinishedSent])
  }

  /** The `toggle-pause` handler; `delivered` is false when writing the
      command to the player's control pipe throws. */
  function AfterTogglePause(e: Engine, delivered: bool): Outcome {
    if e.player.None? || e.player.value.killed || !delivered then Outcome(e, [])
    else
      var paused := !e.isPaused;
      var b := AfterBroadcastPlayState(e.(isPaused := paused), !paused);
      Outcome(b.next, [PauseCycled(e.player.value.pid)] + b.effects)
  }

  /** The `stop-song` handler. */
  function AfterStopSong(e: Engine): Outcome {
    var k := AfterKillPlayer(e);
    var b := AfterBroadcastPlayState(k.next, false);
    Outcome(b.next, k.effects + b.effects)
  }

  // ---------------------------------------------------------------------
  // Single-step properties

  /** `killPlayer` changes nothing without a player; with one it leaves no
      player, an unpaused flag, and signals the process unless already killed. */
  lemma KillPlayerEffect(e: Engine)
    ensures e.player.None? ==> AfterKillPlayer(e) == Outcome(e, [])
    ensures e.player.Some? ==>
      var o := AfterKillPlayer(e);
      o.next.player.None? && !o.next.isPaused
      && o.next.playerGeneration == e.playerGeneration && o.next.currentSongData == e.currentSongData
      && (o.effects == [TerminateSignalled(e.player.value.pid)] <==> !e.player.value.killed)
      && (e.player.value.killed ==> o.effects == [])
  {
  }

  /** The two broadcasts keep the engine's mirror of what the windows were told. */
  lemma BroadcastsMirrorState(e: Engine, playing: bool, song: Request)
    ensures AfterBroadcastPlayState(e, playing).next.isPaused == !playing
    ensures AfterBroadcastSong(e, song).next.currentSongData == Some(song)
    ensures AfterBroadcastPlayState(e, playing).next.playerGeneration == e.playerGeneration
  {
  }

  /** Every play request, even a null one, leaves no player, an unpaused flag
      and a generation exactly one higher; a non-null one broadcasts the song
      and starts the resolver under that new generation. */
  lemma PlaySongStartsNewGeneration(e: Engine, req: Request)
    ensures var o := AfterPlaySong(e, req);
      o.next.player.None? && !o.next.isPaused
      && o.next.playerGeneration == e.playerGeneration + 1
    ensures var o := AfterPlaySong(e, req);
      req != NoSong ==>
        o.next.currentSongData == Some(req)
        && o.effects[|o.effects| - 1] == ResolverSpawned(e.playerGeneration + 1, StreamQuery(req).value)
        && o.effects[|o.effects| - 2] == SongBroadcast(req)
    ensures req == NoSong ==> AfterPlaySong(e, req).next.currentSongData == e.currentSongData
  {
  }

  /** A resolver output that trims to nothing, or that belongs to a stale
      generation, changes nothing and emits nothing. Otherwise a player is
      spawned for the current generation and "playing" is broadcast. */
  lemma ResolverOutputGuard(e: Engine, captured: nat, data: string, pid: nat)
    ensures AllWhitespace(data) || captured != e.playerGeneration ==>
              AfterResolverOutput(e, captured, data, pid) == Outcome(e, [])
    ensures !AllWhitespace(data) && captured == e.playerGeneration ==>
              var o := AfterResolverOutput(e, captured, data, pid);
              o.next == e.(player := Some(Handle(pid, false, captured)), isPaused := false)
              && o.effects == [PlayerSpawned(captured, pid, Trim(data)), PlayStateBroadcast(true)]
  {
    TrimIsInnerSlice(data);
  }

  /** A stale player exit emits nothing; a current one forgets the player,
      broadcasts "not playing" (so the engine counts as paused) and sends
      `song-finished`. */
  lemma PlayerClosedGuard(e: Engine, captured: nat)
    ensures captured != e.playerGeneration ==> AfterPlayerClose(e, captured) == Outcome(e, [])
    ensures captured == e.playerGeneration ==>
              AfterPlayerClose(e, captured) ==
              Outcome(e.(player := None, isPaused := true), [PlayStateBroadcast(false), SongFinishedSent])
  {
  }

  /** `toggle-pause` without a live player changes nothing; with one it flips
      the pause flag and broadcasts the new playing state, which is the
      negation of the new flag. A write that throws is caught before anything
      changes. */
  lemma TogglePauseFlips(e: Engine, delivered: bool)
    ensures e.player.None? || e.player.value.killed ==> AfterTogglePause(e, delivered) == Outcome(e, [])
    ensures e.player.Some? && !e.player.value.killed && delivered ==>
              var o := AfterTogglePause(e, delivered);
              o.next == e.(isPaused := !e.isPaused)
              && o.effects == [PauseCycled(e.player.value.pid), PlayStateBroadcast(!o.next.isPaused)]
    ensures e.player.Some? && !e.player.value.killed && !delivered ==> AfterTogglePause(e, delivered) == Outcome(e, [])
  {
  }

  /** `stop-song` leaves no player, a paused flag, and ends by broadcasting
      "not playing"; it does not touch the generation. */
  lemma StopSongEffect(e: Engine)
    ensures var o := AfterStopSong(e);
      o.next.player.None? && o.next.isPaused && o.next.playerGeneration == e.playerGeneration
      && |o.effects| > 0 && o.effects[|o.effects| - 1] == PlayStateBroadcast(false)
  {
  }

  /** `stop-song` leaves the generation alone, so the exit of the player it
      has just killed still passes the generation check: the windows are
      told the song finished, and a renderer that auto-advances starts the
      next track after an explicit stop. */
  lemma StopSongThenExitSendsFinished(e: Engine)
    requires Inv(e) && e.player.Some?
    ensures var stopped := AfterStopSong(e).next;
      AfterPlayerClose(stopped, e.player.value.generation).effects
        == [PlayStateBroadcast(false), SongFinishedSent]
  {
  }

  /** The resolver's stdout callback is not one-shot: a second non-blank
      chunk for the current generation spawns a second player and replaces
      the tracked handle without signalling the first process, which is no
      longer reachable by `killPlayer`. */
  lemma RepeatedResolverOutputUntracksPlayer(e: Engine, data: string, pid: nat)
    requires Inv(e) && e.player.Some? && Trim(data) != ""
    ensures var o := AfterResolverOutput(e, e.playerGeneration, data, pid);
      o.next.player == Some(Handle(pid, false, e.playerGeneration))
      && TerminateSignalled(e.player.value.pid) !in o.effects
      && PlayerSpawned(e.playerGeneration, pid, Trim(data)) in o.effects
  {
  }

  // ---------------------------------------------------------------------
  // Event traces

  /** A callback or message delivered to the engine. */
  datatype Event =
    | PlayRequested(request: Request)
    | ResolverPrinted(generation: nat, data: string, pid: nat)
    | PlayerExited(generation: nat)
    | PauseToggled(delivered: bool)
    | StopRequested

  /** The generation a callback captured; `None` for the IPC messages. */
  function CallbackGeneration(ev: Event): Option<nat> {
    match ev
    case ResolverPrinted(g, _, _) => Some(g)
    case PlayerExited(g) => Some(g)
    case _ => None
  }

  function Step(e: Engine, ev: Event): Outcome {
    match ev
    case PlayRequested(req) => AfterPlaySong(e, req)
    case ResolverPrinted(g, data, pid) => AfterResolverOutput(e, g, data, pid)
    case PlayerExited(g) => AfterPlayerClose(e, g)
    case PauseToggled(delivered) => AfterTogglePause(e, delivered)
    case StopRequested => AfterStopSong(e)
  }

  /** The engine states in which the events of `evs` are delivered, one per event. */
  function States(e: Engine, evs: seq<Event>): (r: seq<Engine>)
    ensures |r| == |evs|
    decreases |evs|
  {
    if evs == [] then [] else [e] + States(Step(e, evs[0]).next, evs[1..])
  }

  /** The state after delivering every event of `evs`. */
  function Final(e: Engine, evs: seq<Event>): Engine
    decreases |evs|
  {
    if evs == [] then e else Final(Step(e, evs[0]).next, evs[1..])
  }

  /** The number of play requests among `evs`. */
  function Requests(evs: seq<Event>): nat {
    if evs == [] then 0 else (if evs[0].PlayRequested? then 1 else 0) + Requests(evs[1..])
  }

  /** The engine's invariant: a tracked player belongs to the current
      generation and has not been killed. */
  ghost predicate Inv(e: Engine) {
    e.player.Some? ==> e.player.value.generation == e.playerGeneration && !e.player.value.killed
  }

  lemma StepKeepsInv(e: Engine, ev: Event)
    requires Inv(e)
    ensures Inv(Step(e, ev).next)
  {
  }

  /** Only a play request moves the generation, and by exactly one. */
  lemma StepGeneration(e: Engine, ev: Event)
    ensures Step(e, ev).next.playerGeneration == e.playerGeneration + (if ev.PlayRequested? then 1 else 0)
  {
  }

  /** Across any trace the generation grows by exactly the number of play
      requests, so requests receive strictly increasing generations. */
  lemma {:induction false} FinalGeneration(e: Engine, evs: seq<Event>)
    ensures Final(e, evs).playerGeneration == e.playerGeneration + Requests(evs)
    decreases |evs|
  {
    if evs != [] {
      StepGeneration(e, evs[0]);
      FinalGeneration(Step(e, evs[0]).next, evs[1..]);
    }
  }

  /** The invariant holds throughout every trace that starts in it. */
  lemma {:induction false} InvThroughout(e: Engine, evs: seq<Event>, i: nat)
    requires Inv(e) && i < |evs|
    ensures Inv(States(e, evs)[i])
    decreases |evs|
  {
    if i > 0 {
      StepKeepsInv(e, evs[0]);
      InvThroughout(Step(e, evs[0]).next, evs[1..], i - 1);
    }
  }

  /** The state in which event `i` is delivered has the generation of the
      state in which event `j <= i` was, plus exactly one for every play
      request from `j` up to `i`. */
  lemma {:induction false} GenerationBetween(e: Engine, evs: seq<Event>, j: nat, i: nat)
    requires j <= i < |evs|
    ensures States(e, evs)[i].playerGeneration == States(e, evs)[j].playerGeneration + Requests(evs[j..i])
    decreases |evs|
  {
    if j == i {
      assert evs[j..i] == [];
    } else if j == 0 {
      StepGeneration(e, evs[0]);
      GenerationBetween(Step(e, evs[0]).next, evs[1..], 0, i - 1);
      assert evs[1..][0..i - 1] == evs[1..i];
      assert evs[0..i] == [evs[0]] + evs[1..i];
      if i - 1 > 0 {
        assert States(Step(e, evs[0]).next, evs[1..])[0] == Step(e, evs[0]).next;
      } else {
        assert evs[1..i] == [];
      }
    } else {
      GenerationBetween(Step(e, evs[0]).next, evs[1..], j - 1, i - 1);
      assert evs[1..][j - 1..i - 1] == evs[j..i];
    }
  }

  /** Every effect of one step that starts playback or ends a song comes from
      the current generation: a spawned player and `song-finished` only from a
      callback that captured the current generation, and "playing" only from
      such a resolver callback or from toggling the current generation's player. */
  lemma OnlyCurrentGenerationActs(e: Engine, ev: Event)
    requires Inv(e)
    ensures forall eff :: eff in Step(e, ev).effects && eff.PlayerSpawned? ==>
              ev.ResolverPrinted? && eff.generation == ev.generation == e.playerGeneration
    ensures SongFinishedSent in Step(e, ev).effects ==> ev == PlayerExited(e.playerGeneration)
    ensures PlayStateBroadcast(true) in Step(e, ev).effects ==>
              (ev.ResolverPrinted? && ev.generation == e.playerGeneration)
              || (ev.PauseToggled? && e.player.Some? && e.player.value.generation == e.playerGeneration)
  {
  }

  /** The central safety property: once a later play request has been made,
      every callback of an earlier request is silent. It changes no state and
      spawns, broadcasts and finishes nothing, in whatever order the events
      arrive. */
  lemma SupersededCallbacksAreSilent(e: Engine, evs: seq<Event>, j: nat, k: nat, i: nat)
    requires j < k < i < |evs|
    requires evs[j].PlayRequested? && evs[k].PlayRequested?
    requires CallbackGeneration(evs[i]) == Some(States(e, evs)[j].playerGeneration + 1)
    ensures Step(States(e, evs)[i], evs[i]) == Outcome(States(e, evs)[i], [])
  {
    GenerationBetween(e, evs, j, i);
    RequestsCountsFirst(evs[j..i]);
    assert evs[j..i][0] == evs[j];
    assert evs[j..i][k - j] == evs[k];
    RequestsAtLeastTwo(evs[j..i], k - j);
  }

  lemma {:induction false} RequestsCountsFirst(evs: seq<Event>)
    requires evs != [] && evs[0].PlayRequested?
    ensures Requests(evs) == 1 + Requests(evs[1..])
  {
  }

  lemma {:induction false} RequestsAtLeastTwo(evs: seq<Event>, k: nat)
    requires 0 < k < |evs| && evs[0].PlayRequested? && evs[k].PlayRequested?
    ensures Requests(evs) >= 2
  {
    RequestAtCounts(evs[1..], k - 1);
  }

  lemma {:induction false} RequestAtCounts(evs: seq<Event>, k: nat)
    requires k < |evs| && evs[k].PlayRequested?
    ensures Requests(evs) >= 1
  {
    if k > 0 {
      RequestAtCounts(evs[1..], k - 1);
    }
  }

  /** The scenario of a superseded resolution: while the resolver for B is
      still running a play request for D arrives; B's late stream is dropped
      and only D's spawns a player. */
  lemma SupersededResolutionScenario(e: Engine, b: Track, d: Track, streamB: string, streamD: string, pidB: nat, pidD: nat)
    requires Trim(streamD) != ""
    ensures var g := e.playerGeneration;
      var s1 := Step(e, PlayRequested(Song(b))).next;
      var s2 := Step(s1, PlayRequested(Song(d))).next;
      s2.playerGeneration == g + 2 && s2.currentSongData == Some(Song(d))
      && Step(s2, ResolverPrinted(g + 1, streamB, pidB)) == Outcome(s2, [])
      && Step(s2, ResolverPrinted(g + 2, streamD, pidD)) ==
         Outcome(s2.(player := Some(Handle(pidD, false, g + 2)), isPaused := false),
                 [PlayerSpawned(g + 2, pidD, Trim(streamD)), PlayStateBroadcast(true)])
  {
  }

  // ---------------------------------------------------------------------
  // The engine as the main process holds it

  class PlaybackEngine {
    var player: Option<Handle>
    var isPaused: bool
    var playerGeneration: nat
    var currentSongData: Option<Request>
    /** Every effect so far, oldest first. */
    var effects: seq<Effect>

    function State(): Engine
      reads this
    {
      Engine(player, isPaused, playerGeneration, currentSongData)
    }

    constructor ()
      ensures State() == Initial && effects == []
    {
      player, isPaused, playerGeneration, currentSongData := None, false, 0, None;
      effects := [];
    }

    method KillPlayer()
      modifies this
      ensures State() == AfterKillPlayer(old(State())).next
      ensures effects == old(effects) + AfterKillPlayer(old(State())).effects
    {
      if player.Some? {
        if !player.value.killed {
          effects := effects + [TerminateSignalled(player.value.pid)];
        }
        player := None;
        isPaused := false;
      }
    }

    method BroadcastPlayState(playing: bool)
      modifies this
      ensures State() == AfterBroadcastPlayState(old(State()), playing).next
      ensures effects == old(effects) + [PlayStateBroadcast(playing)]
    {
      isPaused := !playing;
      effects := effects + [PlayStateBroadcast(playing)];
    }

    method BroadcastSong(song: Request)
      modifies this
      ensures State() == AfterBroadcastSong(old(State()), song).next
      ensures effects == old(effects) + [SongBroadcast(song)]
    {
      currentSongData := Some(song);
      effects := effects + [SongBroadcast(song)];
    }

    /** Returns the generation the request's callbacks capture. */
    method PlaySong(req: Request) returns (thisGeneration: nat)
      modifies this
      ensures State() == AfterPlaySong(old(State()), req).next
      ensures effects == old(effects) + AfterPlaySong(old(State()), req).effects
      ensures thisGeneration == playerGeneration == old(playerGeneration) + 1
    {
      KillPlayer();
      isPaused := false;
      playerGeneration := playerGeneration + 1;
      thisGeneration := playerGeneration;
      var query := StreamQuery(req);
      if query.Some? {
        BroadcastSong(req);
        effects := effects + [ResolverSpawned(thisGeneration, query.value)];
      }
    }

    method OnResolverData(thisGeneration: nat, data: string, pid: nat)
      modifies this
      ensures State() == AfterResolverOutput(old(State()), thisGeneration, data, pid).next
      ensures effects == old(effects) + AfterResolverOutput(old(State()), thisGeneration, data, pid).effects
    {
      var streamUrl := Trim(data);
      if streamUrl == "" || thisGeneration != playerGeneration {
        return;
      }
      player := Some(Handle(pid, false, thisGeneration));
      effects := effects + [PlayerSpawned(thisGeneration, pid, streamUrl)];
      BroadcastPlayState(true);
      assert effects == old(effects) + [PlayerSpawned(thisGeneration, pid, streamUrl)] + [PlayStateBroadcast(true)];
    }

    method OnPlayerClose(thisGeneration: nat)
      modifies this
      ensures State() == AfterPlayerClose(old(State()), thisGeneration).next
      ensures effects == old(effects) + AfterPlayerClose(old(State()), thisGeneration).effects
    {
      if thisGeneration != playerGeneration {
        return;
      }
      player := None;
      BroadcastPlayState(false);
      effects := effects + [SongFinishedSent];
    }

    method TogglePause(delivered: bool)
      modifies this
      ensures State() == AfterTogglePause(old(State()), delivered).next
      ensures effects == old(effects) + AfterTogglePause(old(State()), delivered).effects
    {
      if player.None? || player.value.killed {
        return;
      }
      if !delivered {
        return;
      }
      effects := effects + [PauseCycled(player.value.pid)];
      isPaused := !isPaused;
      BroadcastPlayState(!isPaused);
    }

    method StopSong()
      modifies this
      ensures State() == AfterStopSong(old(State())).next
      ensures effects == old(effects) + AfterStopSong(old(State())).effects
    {
      KillPlayer();
      BroadcastPlayState(false);
    }
  }
}
