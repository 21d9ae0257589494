/** Callers entering and leaving the game (`onStasisStart`,
    `onStasisEnd`), the end of a prompt (`onPlaybackFinished`), and the
    history a newly connected observer is sent (`onObserverConnect`). */
module Lifecycle {
  import opened Wrappers
  import opened JsArray
  import opened RoomGraph
  import opened Playback
  import opened GameState
  import opened Transitions

  /** The role named by the channel's first argument. */
  function RoleOf(arg: string): (role: Role)
    ensures role == Seeker <==> arg == "seeker"
    ensures role == Hider <==> arg == "hider"
    ensures role.Other? ==> role.name == arg
  {
    if arg == "seeker" then Seeker
    else if arg == "hider" then Hider
    else Other(arg)
  }

  /** A new participant, registered and counted, not yet in a room. */
  function Admit(s: State, ch: ChannelId, role: Role): State
    requires ch !in s.participants
  {
    s.(participants := s.participants[ch := Participant(ch, role, s.nextId, None, [])],
       registry := s.registry + [ch],
       nextId := s.nextId + 1,
       hiders := s.hiders + (if role == Hider then 1 else 0),
       seekers := s.seekers + (if role == Seeker then 1 else 0))
  }

  /** `onStasisStart` for channel `ch` with first argument `arg`, entering
      room `start` (the room the source draws at random): greet the caller,
      then enter the room. */
  function OnEnter(s: State, ch: ChannelId, arg: string, start: RoomId): (r: Outcome)
    requires Valid(s) && ch !in s.participants && start in s.maze.rooms
  {
    var greeted := Greet(s, ch, RoleOf(arg));
    GreetKeeps(s, ch, RoleOf(arg));
    var joined := Transitions.JoinRoom(greeted.state, Some(start), ch);
    Outcome(joined.state, greeted.effects + joined.effects)
  }

  /** The first part of `onStasisStart`: count the role, queue the greeting
      and the caller's number, announce the caller, queue `conf-enteringno`.
      Only the greeting starts at once, the queue having been empty. */
  function Greet(s: State, ch: ChannelId, role: Role): (r: Outcome)
    requires ch !in s.participants
    ensures r.state == Admit(s, ch, role).(participants := s.participants[ch := Participant(ch, role, s.nextId, None, EntryPrompts(s.nextId, None))])
    ensures r.effects == [PlayOnChannel(ch, Sound("queue-thereare")), Notify(JoinGame(ch, Some(role), role))]
  {
    var s1 := Admit(s, ch, role);
    var thereare := PlaySound(s1, ch, Sound("queue-thereare"));
    var number := PlaySound(thereare.state, ch, Number(s.nextId));
    var entering := PlaySound(number.state, ch, Sound("conf-enteringno"));
    ThreePromptsQueued(s1, ch, Sound("queue-thereare"), Number(s.nextId), Sound("conf-enteringno"));
    assert EntryPrompts(s.nextId, None) == [Sound("queue-thereare"), Number(s.nextId), Sound("conf-enteringno")];
    UpdatedTwice(s.participants, ch, s1.participants[ch], Participant(ch, role, s.nextId, None, EntryPrompts(s.nextId, None)));
    Outcome(entering.state, thereare.effects + number.effects + [Notify(JoinGame(ch, Some(role), role))] + entering.effects)
  }

  /** Greeting a fresh channel keeps the bookkeeping. */
  lemma GreetKeeps(s: State, ch: ChannelId, role: Role)
    requires Consistent(s) && ch !in s.participants
    ensures Consistent(Greet(s, ch, role).state)
  {
    var s1 := Admit(s, ch, role);
    AdmitKeeps(s, ch, role);
    var t := Greet(s, ch, role).state;
    assert OnlyQueuesDiffer(s1, t);
    QueuesDoNotMatter(s1, t);
  }

  /** The prompts a caller hears on entering, in order: the greeting, its
      own number, "entering" and, once it has one, the number of its room. */
  function EntryPrompts(id: int, room: Option<RoomId>): seq<Media> {
    [Sound("queue-thereare"), Number(id), Sound("conf-enteringno")] + (if room.Some? then [Number(room.value)] else [])
  }

  /** Admitting a fresh channel keeps the bookkeeping: it takes a fresh
      number and adds exactly its own role to the tallies. */
  lemma AdmitKeeps(s: State, ch: ChannelId, role: Role)
    requires Consistent(s) && ch !in s.participants
    ensures Consistent(Admit(s, ch, role))
    ensures Admit(s, ch, role).hiders == s.hiders + (if role == Hider then 1 else 0)
    ensures Admit(s, ch, role).seekers == s.seekers + (if role == Seeker then 1 else 0)
  {
    var t := Admit(s, ch, role);
    assert Shaped(t);
    AdmitRegisters(s, ch, role);
    AdmitPlaces(s, ch, role);
    AdmitTallies(s, ch, role);
  }

  lemma AdmitRegisters(s: State, ch: ChannelId, role: Role)
    requires Consistent(s) && ch !in s.participants
    ensures Registered(Admit(s, ch, role))
  {
    assert ch !in s.registry;
    AppendDistinct(s.registry, ch);
  }

  lemma AdmitPlaces(s: State, ch: ChannelId, role: Role)
    requires Consistent(s) && ch !in s.participants
    ensures Placed(Admit(s, ch, role))
  {
    var t := Admit(s, ch, role);
    forall r, c | r in t.occupants
      ensures c in t.occupants[r] <==> c in t.participants && t.participants[c].room == Some(r)
    {
      if c == ch {
        assert ch !in s.occupants[r];
      }
    }
  }

  lemma AdmitTallies(s: State, ch: ChannelId, role: Role)
    requires Consistent(s) && ch !in s.participants
    ensures forall c | c in Admit(s, ch, role).registry :: c in Admit(s, ch, role).participants
    ensures Tallied(Admit(s, ch, role))
  {
    var t := Admit(s, ch, role);
    assert ch !in s.registry;
    CountAppend(s.participants, s.registry, ch, t.participants[ch], Hider);
    CountAppend(s.participants, s.registry, ch, t.participants[ch], Seeker);
  }

  /** Entering registers the caller under the next number, with its role
      and its prompts, and counts it under its role (and only there, so a
      role other than seeker or hider changes no counter); every other
      participant is as it was. */
  lemma OnEnterRegisters(s: State, ch: ChannelId, arg: string, start: RoomId)
    requires Valid(s) && ch !in s.participants && start in s.maze.rooms
    ensures var t := OnEnter(s, ch, arg, start).state; var role := RoleOf(arg);
      && t.registry == s.registry + [ch]
      && t.participants == s.participants[ch := Participant(ch, role, s.nextId, Some(start), EntryPrompts(s.nextId, Some(start)))]
      && t.nextId == s.nextId + 1
      && t.hiders == s.hiders + (if role == Hider then 1 else 0)
      && t.seekers == s.seekers + (if role == Seeker then 1 else 0)
  {
    var role := RoleOf(arg);
    var g := Greet(s, ch, role);
    GreetKeeps(s, ch, role);
    EnterFresh(g.state, ch, start);
    EntryPromptsEnd(s.nextId, start);
    UpdatedTwice(s.participants, ch, g.state.participants[ch], Participant(ch, role, s.nextId, Some(start), EntryPrompts(s.nextId, Some(start))));
  }

  /** Entering puts the caller in room `start` and in no other, and
      changes no other room. */
  lemma OnEnterPlaces(s: State, ch: ChannelId, arg: string, start: RoomId)
    requires Valid(s) && ch !in s.participants && start in s.maze.rooms
    ensures var t := OnEnter(s, ch, arg, start).state;
      && (forall k | k in t.occupants :: ch in t.occupants[k] <==> k == start)
      && (forall k | k in s.occupants && k != start :: t.occupants[k] == s.occupants[k])
      && t.maze == s.maze && t.observers == s.observers
  {
    var role := RoleOf(arg);
    var g := Greet(s, ch, role);
    GreetKeeps(s, ch, role);
    EnterFresh(g.state, ch, start);
  }

  /** Entering keeps the game valid. */
  lemma OnEnterKeeps(s: State, ch: ChannelId, arg: string, start: RoomId)
    requires Valid(s) && ch !in s.participants && start in s.maze.rooms
    ensures Valid(OnEnter(s, ch, arg, start).state)
  {
    OnEnterSettles(s, ch, arg, start);
  }

  /** Entering keeps the state consistent and leaves no one outside a room. */
  lemma OnEnterSettles(s: State, ch: ChannelId, arg: string, start: RoomId)
    requires Valid(s) && ch !in s.participants && start in s.maze.rooms
    ensures Consistent(OnEnter(s, ch, arg, start).state)
    ensures forall c | c in OnEnter(s, ch, arg, start).state.participants ::
      OnEnter(s, ch, arg, start).state.participants[c].room.Some?
  {
    OnEnterConsistent(s, ch, arg, start);
    OnEnterRegisters(s, ch, arg, start);
  }

  lemma OnEnterConsistent(s: State, ch: ChannelId, arg: string, start: RoomId)
    requires Valid(s) && ch !in s.participants && start in s.maze.rooms
    ensures Consistent(OnEnter(s, ch, arg, start).state)
  {
    var role := RoleOf(arg);
    GreetKeeps(s, ch, role);
    EnterFresh(Greet(s, ch, role).state, ch, start);
  }

  /** The room number is the last of the entry prompts. */
  lemma EntryPromptsEnd(id: int, k: RoomId)
    ensures EntryPrompts(id, None) + [Number(k)] == EntryPrompts(id, Some(k))
  {
  }

  /** A second update of the same key overrides the first. */
  lemma UpdatedTwice<K, V>(m: map<K, V>, k: K, v: V, w: V)
    ensures m[k := v][k := w] == m[k := w]
  {
  }

  /** Entering a room from outside every room: the caller is placed there
      and hears its number; nothing else changes but that room. */
  lemma EnterFresh(g: State, ch: ChannelId, start: RoomId)
    requires Consistent(g) && ch in g.participants && g.participants[ch].room == None
    requires start in g.maze.rooms
    ensures var t := Transitions.JoinRoom(g, Some(start), ch).state; var p := g.participants[ch];
      && Consistent(t)
      && t.participants == g.participants[ch := p.(room := Some(start), playbacks := p.playbacks + [Number(start)])]
      && t.maze == g.maze && t.registry == g.registry && t.nextId == g.nextId && t.observers == g.observers
      && t.hiders == g.hiders && t.seekers == g.seekers
      && (forall k | k in t.occupants :: ch in t.occupants[k] <==> k == start)
      && (forall k | k in g.occupants && k != start :: t.occupants[k] == g.occupants[k])
  {
    var p := g.participants[ch];
    var t := Transitions.JoinRoom(g, Some(start), ch).state;
    JoinRoomKeeps(g, Some(start), ch);
    UpdatedMap(g.participants, t.participants, ch, p.(room := Some(start), playbacks := p.playbacks + [Number(start)]));
  }

  /** Observers hear that the caller joined the game under its role, then
      that it joined room `start` under the number it was given; the first
      prompt starts at once. */
  lemma OnEnterEvents(s: State, ch: ChannelId, arg: string, start: RoomId)
    requires Valid(s) && ch !in s.participants && start in s.maze.rooms
    ensures var r := OnEnter(s, ch, arg, start); var role := RoleOf(arg);
      && Notified(r.effects) == [JoinGame(ch, Some(role), role), Event.JoinRoom(start, ch, Some(s.nextId), role)]
      && r.effects[0] == PlayOnChannel(ch, Sound("queue-thereare"))
  {
    var role := RoleOf(arg);
    var g := Greet(s, ch, role);
    GreetKeeps(s, ch, role);
    EnterFreshEvents(g.state, ch, start);
    NotifiedPair(PlayOnChannel(ch, Sound("queue-thereare")), JoinGame(ch, Some(role), role));
    NotifiedOneThenOne(g.effects, Transitions.JoinRoom(g.state, Some(start), ch).effects,
      JoinGame(ch, Some(role), role), Event.JoinRoom(start, ch, Some(s.nextId), role));
  }

  /** The broadcasts of a silent effect followed by one broadcast. */
  lemma NotifiedPair(quiet: Effect, e: Event)
    requires !quiet.Notify?
    ensures Notified([quiet, Notify(e)]) == [e]
  {
    assert [quiet, Notify(e)][1..] == [Notify(e)];
    assert [Notify(e)][1..] == [];
    assert Notified([Notify(e)]) == [e] + Notified([]);
    assert Notified([quiet, Notify(e)]) == [] + Notified([Notify(e)]);
  }

  /** Entering a room from outside every room is heard as one join. */
  lemma EnterFreshEvents(g: State, ch: ChannelId, start: RoomId)
    requires Consistent(g) && ch in g.participants && g.participants[ch].room == None
    requires start in g.maze.rooms
    ensures Notified(Transitions.JoinRoom(g, Some(start), ch).effects) == [Event.JoinRoom(start, ch, Some(g.participants[ch].id), g.participants[ch].role)]
  {
    JoinRoomEvents(g, Some(start), ch);
  }

  /** An observer who has seen everything so far and hears of the entry
      sees the caller, under its role, in its room. */
  lemma OnEnterKeepsObservers(s: State, ch: ChannelId, arg: string, start: RoomId)
    requires Valid(s) && ch !in s.participants && start in s.maze.rooms
    ensures var r := OnEnter(s, ch, arg, start);
      SeeAll(ViewOf(s), Notified(r.effects)) == ViewOf(r.state)
  {
    var role := RoleOf(arg);
    var r := OnEnter(s, ch, arg, start);
    OnEnterRegisters(s, ch, arg, start);
    OnEnterPlaces(s, ch, arg, start);
    OnEnterEvents(s, ch, arg, start);
    SeeEntry(ViewOf(s), ch, Some(role), role, start, Some(s.nextId));
    ViewOfAdded(s, r.state, ch);
  }

  /** Hearing of an entry puts the caller in the picture, in its room. */
  lemma SeeEntry(v: View, ch: ChannelId, roleAsId: Option<Role>, role: Role, k: RoomId, id: Option<int>)
    ensures SeeAll(v, [JoinGame(ch, roleAsId, role), Event.JoinRoom(k, ch, id, role)]) == v[ch := Sighting(role, Some(k))]
  {
    var events := [JoinGame(ch, roleAsId, role), Event.JoinRoom(k, ch, id, role)];
    var w := See(v, events[0]);
    assert SeeAll(v, events) == SeeAll(w, events[1..]);
    assert events[1..] == [events[1]];
    assert SeeAll(w, [events[1]]) == SeeAll(See(w, events[1]), []);
    assert See(w, events[1]) == v[ch := Sighting(role, Some(k))];
  }

  /** The picture of a state with one participant more. */
  lemma ViewOfAdded(s: State, t: State, ch: ChannelId)
    requires ch !in s.participants && ch in t.participants
    requires forall c :: c in t.participants <==> c in s.participants || c == ch
    requires forall c | c in s.participants :: t.participants[c] == s.participants[c]
    ensures ViewOf(t) == ViewOf(s)[ch := Sighting(t.participants[ch].role, t.participants[ch].room)]
  {
  }

  /** A map that agrees with `m` except at `k`, where it holds `v`. */
  lemma UpdatedMap<K, V>(m: map<K, V>, n: map<K, V>, k: K, v: V)
    requires forall c :: c in n <==> c in m
    requires k in m && n[k] == v
    requires forall c | c in m && c != k :: n[c] == m[c]
    ensures n == m[k := v]
  {
  }

  /** A participant taken out of the registry and the tallies. */
  function Unregister(s: State, ch: ChannelId): State
    requires ch in s.participants
  {
    var p := s.participants[ch];
    s.(participants := s.participants - {ch},
       registry := Remove(s.registry, ch),
       hiders := s.hiders - Has(p, Hider),
       seekers := s.seekers - Has(p, Seeker))
  }

  /** `onStasisEnd` for channel `ch`: leave the room, tell observers the
      caller left the game, forget it, and when no hider or no seeker is
      left announce that the game ended and beep in every occupied room.
      The source lowers the counter before leaving the room; nothing the
      room change does reads the counters, so the order is immaterial. */
  function OnExit(s: State, ch: ChannelId): (r: Outcome)
    requires Valid(s) && ch in s.participants
  {
    var p := s.participants[ch];
    var left := Transitions.JoinRoom(s, None, ch);
    JoinRoomKeeps(s, None, ch);
    var t := Unregister(left.state, ch);
    UnregisterKeeps(left.state, ch);
    Outcome(t, left.effects + [Notify(LeaveGame(ch, p.id, p.role))] + Ending(t))
  }

  /** What the end of a game adds once no hider or no seeker is left. */
  function Ending(t: State): (es: seq<Effect>)
    requires Consistent(t)
    ensures Notified(es) == if t.hiders == 0 || t.seekers == 0 then [GameEnded] else []
    ensures forall k :: PlayOnBridge(k, Sound("beep")) in es <==> (t.hiders == 0 || t.seekers == 0) && k in t.maze.rooms && t.occupants[k] != []
  {
    if t.hiders == 0 || t.seekers == 0 then
      var beeps := PlaySoundAll(t, Sound("beep"));
      NotifiedConcat([Notify(GameEnded)], beeps);
      [Notify(GameEnded)] + beeps
    else []
  }

  /** Forgetting a participant that is in no room keeps the bookkeeping and
      takes exactly its own role out of the tallies. */
  lemma UnregisterKeeps(s: State, ch: ChannelId)
    requires Consistent(s) && ch in s.participants && s.participants[ch].room == None
    ensures Consistent(Unregister(s, ch))
  {
    var t := Unregister(s, ch);
    assert Shaped(t);
    UnregisterRegisters(s, ch);
    UnregisterPlaces(s, ch);
    UnregisterTallies(s, ch);
  }

  lemma UnregisterRegisters(s: State, ch: ChannelId)
    requires Consistent(s) && ch in s.participants
    ensures Registered(Unregister(s, ch))
  {
    RemoveDistinct(s.registry, ch);
  }

  lemma UnregisterPlaces(s: State, ch: ChannelId)
    requires Consistent(s) && ch in s.participants && s.participants[ch].room == None
    ensures Placed(Unregister(s, ch))
  {
    forall r | r in s.occupants ensures ch !in s.occupants[r] { }
  }

  lemma UnregisterTallies(s: State, ch: ChannelId)
    requires Consistent(s) && ch in s.participants
    ensures forall c | c in Unregister(s, ch).registry :: c in Unregister(s, ch).participants
    ensures Tallied(Unregister(s, ch))
  {
    CountForget(s.participants, s.registry, ch, Hider);
    CountForget(s.participants, s.registry, ch, Seeker);
  }

  /** Leaving the game forgets the caller, takes its role (and only its
      role) out of the counters, empties it from its room and changes no
      other room. */
  lemma OnExitUnregisters(s: State, ch: ChannelId)
    requires Valid(s) && ch in s.participants
    ensures var t := OnExit(s, ch).state; var p := s.participants[ch];
      && Valid(t)
      && t.registry == Remove(s.registry, ch)
      && t.participants == s.participants - {ch}
      && t.hiders == s.hiders - (if p.role == Hider then 1 else 0)
      && t.seekers == s.seekers - (if p.role == Seeker then 1 else 0)
      && (forall k | k in t.occupants :: ch !in t.occupants[k])
      && (forall k | k in s.occupants && Some(k) != p.room :: t.occupants[k] == s.occupants[k])
      && t.maze == s.maze && t.nextId == s.nextId && t.observers == s.observers
  {
    var p := s.participants[ch];
    JoinRoomKeeps(s, None, ch);
    var u := Transitions.JoinRoom(s, None, ch).state;
    UnregisterKeeps(u, ch);
    var t := OnExit(s, ch).state;
    assert t.participants == s.participants - {ch};
  }

  /** Observers hear that the caller left its room, then the game, then,
      when no hider or no seeker is left, that the game ended; the beep
      sounds in exactly the occupied rooms, and only then. */
  lemma OnExitEvents(s: State, ch: ChannelId)
    requires Valid(s) && ch in s.participants
    ensures var r := OnExit(s, ch); var p := s.participants[ch];
      var ended := r.state.hiders == 0 || r.state.seekers == 0;
      && Notified(r.effects) == MoveEvents(p, None) + [LeaveGame(ch, p.id, p.role)] + (if ended then [GameEnded] else [])
      && (forall k | k in r.state.maze.rooms && r.state.occupants[k] != [] :: ended ==> PlayOnBridge(k, Sound("beep")) in r.effects)
  {
    var p := s.participants[ch];
    var left := Transitions.JoinRoom(s, None, ch);
    JoinRoomKeeps(s, None, ch);
    JoinRoomEvents(s, None, ch);
    var t := Unregister(left.state, ch);
    UnregisterKeeps(left.state, ch);
    var gone := [Notify(LeaveGame(ch, p.id, p.role))];
    NotifiedConcat(left.effects, gone);
    NotifiedConcat(left.effects + gone, Ending(t));
    assert Notified(gone) == [LeaveGame(ch, p.id, p.role)];
  }

  /** An observer who has seen everything so far and hears of the exit no
      longer sees the caller. */
  lemma OnExitKeepsObservers(s: State, ch: ChannelId)
    requires Valid(s) && ch in s.participants
    ensures var r := OnExit(s, ch);
      SeeAll(ViewOf(s), Notified(r.effects)) == ViewOf(r.state)
  {
    var p := s.participants[ch];
    var r := OnExit(s, ch);
    OnExitUnregisters(s, ch);
    OnExitEvents(s, ch);
    SeeExit(ViewOf(s), p, r.state.hiders == 0 || r.state.seekers == 0);
    ViewOfRemoved(s, r.state, ch);
  }

  /** Hearing that a participant left its room and the game, and perhaps
      that the game ended, drops it from the picture. */
  lemma SeeExit(v: View, p: Participant, ended: bool)
    requires p.channel in v && v[p.channel] == Sighting(p.role, p.room)
    ensures SeeAll(v, MoveEvents(p, None) + [LeaveGame(p.channel, p.id, p.role)] + (if ended then [GameEnded] else [])) == v - {p.channel}
  {
    var ch := p.channel;
    var tail := if ended then [GameEnded] else [];
    assert MoveEvents(p, None) + [LeaveGame(ch, p.id, p.role)] + tail == MoveEvents(p, None) + ([LeaveGame(ch, p.id, p.role)] + tail);
    SeeAllConcat(v, MoveEvents(p, None), [LeaveGame(ch, p.id, p.role)] + tail);
    SeeMove(v, p, None);
    SeeAllConcat(v[ch := Sighting(p.role, None)], [LeaveGame(ch, p.id, p.role)], tail);
    SeeLeave(v[ch := Sighting(p.role, None)], ch, p.id, p.role);
    SeeQuiet(v[ch := Sighting(p.role, None)] - {ch}, tail);
    assert v[ch := Sighting(p.role, None)] - {ch} == v - {ch};
  }

  /** The picture of a state with one participant fewer. */
  lemma ViewOfRemoved(s: State, t: State, ch: ChannelId)
    requires t.participants == s.participants - {ch}
    ensures ViewOf(t) == ViewOf(s) - {ch}
  {
  }

  /** Hearing that a channel left the game drops it from the picture. */
  lemma SeeLeave(v: View, ch: ChannelId, id: int, role: Role)
    ensures SeeAll(v, [LeaveGame(ch, id, role)]) == v - {ch}
  {
    var events := [LeaveGame(ch, id, role)];
    assert SeeAll(v, events) == SeeAll(See(v, events[0]), events[1..]);
    assert events[1..] == [];
  }

  /** The end of the prompt playing on `ch`: drop it from the queue and
      start the next one, if any. A channel that is not (or no longer) a
      participant changes nothing. */
  function OnPlaybackFinished(s: State, ch: ChannelId): (r: Outcome)
    ensures OnlyQueuesDiffer(s, r.state)
    ensures Notified(r.effects) == []
    ensures ch !in s.participants ==> r == Outcome(s, [])
    ensures forall c | c in s.participants && c != ch :: r.state.participants[c] == s.participants[c]
  {
    if ch !in s.participants then Outcome(s, [])
    else
      var p := s.participants[ch];
      var q := Finish(p.playbacks);
      var es := if q.start.Some? then [PlayOnChannel(ch, q.start.value)] else [];
      NotifiedNone(es);
      Outcome(s.(participants := s.participants[ch := p.(playbacks := q.queue)]), es)
  }

  /** At the end of a prompt the participant's queue loses its head, the
      new head (and nothing else) starts playing, and bookkeeping and every
      observer's picture are as before. */
  lemma PlaybackFinishedAdvances(s: State, ch: ChannelId)
    requires Valid(s) && ch in s.participants && s.participants[ch].playbacks != []
    ensures var r := OnPlaybackFinished(s, ch); var before := s.participants[ch].playbacks;
      && Valid(r.state) && ViewOf(r.state) == ViewOf(s)
      && before == [before[0]] + r.state.participants[ch].playbacks
      && r.effects == if r.state.participants[ch].playbacks == [] then [] else [PlayOnChannel(ch, r.state.participants[ch].playbacks[0])]
  {
    QueuesDoNotMatter(s, OnPlaybackFinished(s, ch).state);
  }

  /** The events a newly connected observer is sent for the participants
      listed in `reg`, in order: for each, that it joined the game and that
      it is in its room. Neither carries the participant's number. */
  function Replay(ps: map<ChannelId, Participant>, reg: seq<ChannelId>): (es: seq<Event>)
    requires forall c | c in reg :: c in ps && ps[c].room.Some?
    ensures |es| == 2 * |reg|
  {
    if reg == [] then []
    else
      var c := reg[|reg| - 1];
      Replay(ps, reg[..|reg| - 1]) + [JoinGame(c, None, ps[c].role), Event.JoinRoom(ps[c].room.value, c, None, ps[c].role)]
  }

  /** `events`, each sent to observer `o` alone. */
  function SendAll(o: ObserverId, events: seq<Event>): seq<Effect> {
    seq(|events|, i requires 0 <= i < |events| => SendTo(o, events[i]))
  }

  /** The events among `effects` sent to observer `o` alone, in order. */
  function Sent(effects: seq<Effect>, o: ObserverId): seq<Event> {
    if effects == [] then []
    else (if effects[0].SendTo? && effects[0].observer == o then [effects[0].event] else []) + Sent(effects[1..], o)
  }

  /** `onObserverConnect` for observer `o`: remember it, then send it the
      history of every participant, in registry order. From what it is sent
      alone, the new observer has the game's picture; the game changes in
      nothing but its list of observers, nobody else is sent anything, and
      nothing is broadcast. */
  function OnObserverConnect(s: State, o: ObserverId): (r: Outcome)
    requires Valid(s)
    ensures r.state == s.(observers := s.observers + [o])
    ensures SeeAll(map[], Sent(r.effects, o)) == ViewOf(s)
    ensures forall other | other != o :: Sent(r.effects, other) == []
    ensures Notified(r.effects) == []
  {
    var events := Replay(s.participants, s.registry);
    SentSendAll(o, events, o + 1);
    SentToNoOther(o, events);
    ReplayView(s.participants, s.registry);
    RegistryView(s);
    Outcome(s.(observers := s.observers + [o]), SendAll(o, events))
  }

  /** Events sent to `o` alone reach no other observer. */
  lemma SentToNoOther(o: ObserverId, events: seq<Event>)
    ensures forall other | other != o :: Sent(SendAll(o, events), other) == []
  {
    forall other | other != o
      ensures Sent(SendAll(o, events), other) == []
    {
      SentSendAll(o, events, other);
    }
  }

  /** What `SendAll` sends to `o` is what it was given; nobody else is
      sent anything and nothing is broadcast. */
  lemma {:induction false} SentSendAll(o: ObserverId, events: seq<Event>, other: ObserverId)
    requires other != o
    ensures Sent(SendAll(o, events), o) == events
    ensures Sent(SendAll(o, events), other) == []
    ensures Notified(SendAll(o, events)) == []
    decreases events
  {
    if events != [] {
      SentSendAll(o, events[1..], other);
      assert SendAll(o, events)[1..] == SendAll(o, events[1..]);
    } else {
      NotifiedNone(SendAll(o, events));
    }
  }

  /** Replaying a registry builds, from an empty picture, the picture of
      the participants it lists. */
  lemma {:induction false} ReplayView(ps: map<ChannelId, Participant>, reg: seq<ChannelId>)
    requires forall c | c in reg :: c in ps && ps[c].room.Some?
    ensures SeeAll(map[], Replay(ps, reg)) == map c | c in reg :: Sighting(ps[c].role, ps[c].room)
  {
    if reg != [] {
      var init := reg[..|reg| - 1];
      var c := reg[|reg| - 1];
      ReplayView(ps, init);
      var v := SeeAll(map[], Replay(ps, init));
      SeeAllConcat(map[], Replay(ps, init), [JoinGame(c, None, ps[c].role), Event.JoinRoom(ps[c].room.value, c, None, ps[c].role)]);
      SeeEntry(v, c, None, ps[c].role, ps[c].room.value, None);
      assert reg == init + [c];
      assert (map d | d in init :: Sighting(ps[d].role, ps[d].room))[c := Sighting(ps[c].role, ps[c].room)] == map d | d in reg :: Sighting(ps[d].role, ps[d].room);
    }
  }

  /** A new observer is sent one `join_game` and one `join_room` per
      participant, in registry order, each naming the participant's role
      and current room. Observers already connected are sent nothing, and
      nothing is broadcast. */
  lemma ObserverConnectReplays(s: State, o: ObserverId, other: ObserverId)
    requires Valid(s) && other != o
    ensures var r := OnObserverConnect(s, o); var es := Sent(r.effects, o);
      && |es| == 2 * |s.registry|
      && (forall i | 0 <= i < |s.registry| :: var c := s.registry[i];
            es[2 * i] == JoinGame(c, None, s.participants[c].role)
            && es[2 * i + 1] == Event.JoinRoom(s.participants[c].room.value, c, None, s.participants[c].role))
      && Sent(r.effects, other) == [] && Notified(r.effects) == []
  {
    SentSendAll(o, Replay(s.participants, s.registry), other);
    ReplayAt(s.participants, s.registry);
  }

  /** From the replay alone a new observer rebuilds the game's picture, and
      connecting changes the game in nothing but the list of observers. */
  lemma ObserverConnectRebuildsView(s: State, o: ObserverId)
    requires Valid(s)
    ensures var r := OnObserverConnect(s, o);
      && SeeAll(map[], Sent(r.effects, o)) == ViewOf(s)
      && Valid(r.state) && ViewOf(r.state) == ViewOf(s)
  {
  }

  /** The picture of the registered participants is the state's picture. */
  lemma RegistryView(s: State)
    requires forall c :: c in s.registry <==> c in s.participants
    ensures (map c | c in s.registry :: Sighting(s.participants[c].role, s.participants[c].room)) == ViewOf(s)
  {
  }

  /** The two events replayed for the `i`th registered participant. */
  lemma {:induction false} ReplayAt(ps: map<ChannelId, Participant>, reg: seq<ChannelId>)
    requires forall c | c in reg :: c in ps && ps[c].room.Some?
    ensures forall i | 0 <= i < |reg| ::
      Replay(ps, reg)[2 * i] == JoinGame(reg[i], None, ps[reg[i]].role)
      && Replay(ps, reg)[2 * i + 1] == Event.JoinRoom(ps[reg[i]].room.value, reg[i], None, ps[reg[i]].role)
  {
    if reg != [] {
      var init := reg[..|reg| - 1];
      ReplayAt(ps, init);
      forall i | 0 <= i < |reg|
        ensures Replay(ps, reg)[2 * i] == JoinGame(reg[i], None, ps[reg[i]].role)
        ensures Replay(ps, reg)[2 * i + 1] == Event.JoinRoom(ps[reg[i]].room.value, reg[i], None, ps[reg[i]].role)
      {
        if i < |init| {
          assert reg[i] == init[i];
        }
      }
    }
  }
}
