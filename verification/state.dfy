/** The game's state: the maze with each room's occupants, the registry of
    participants, the two role counters, the next participant number and the
    observers; together with the events the game announces to observers and
    the effects it asks of the telephony backend. */
module GameState {
  import opened Wrappers
  import opened JsArray
  import opened RoomGraph
  import opened Playback

  /** A channel, named by the backend's channel id. */
  type ChannelId = string

  /** An observer connection. */
  type ObserverId = nat

  /** The role a channel enters with; anything other than `seeker` or
      `hider` is kept as given. */
  datatype Role = Seeker | Hider | Other(name: string)

  /** One caller: its channel, role, number, current room (none while
      between rooms) and prompt queue. */
  datatype Participant = Participant(channel: ChannelId, role: Role, id: int, room: Option<RoomId>, playbacks: seq<Media>)

  /** What observers are told. The `join_game` event carries the role a
      second time, in the field where the others carry the participant
      number; replayed `join_game` and `join_room` events carry no number. */
  datatype Event =
    | JoinGame(channel: ChannelId, roleAsId: Option<Role>, role: Role)
    | JoinRoom(room: RoomId, channel: ChannelId, joinId: Option<int>, role: Role)
    | LeaveRoom(room: RoomId, channel: ChannelId, id: int, role: Role)
    | LeaveGame(channel: ChannelId, id: int, role: Role)
    | CatchAttempt(room: RoomId, channel: ChannelId, id: int)
    | HiderCaught(room: RoomId, channel: ChannelId, id: int)
    | InvalidRoomMove(room: RoomId, channel: ChannelId, id: int, direction: char)
    | GameStarted
    | GameEnded

  /** What a step asks of the outside world, in order: an event sent to
      every observer, a prompt played on a channel or in a room's bridge,
      a channel added to a room's bridge, or an event sent to one observer. */
  datatype Effect =
    | Notify(event: Event)
    | PlayOnChannel(channel: ChannelId, media: Media)
    | PlayOnBridge(room: RoomId, media: Media)
    | AddToBridge(room: RoomId, channel: ChannelId)
    | SendTo(observer: ObserverId, event: Event)

  /** `rooms` splits into the fixed `maze` and each room's `occupants`;
      `participants` is kept both as an array (`registry`, for its order)
      and by channel. */
  datatype State = State(
    maze: Maze,
    occupants: map<RoomId, seq<ChannelId>>,
    registry: seq<ChannelId>,
    participants: map<ChannelId, Participant>,
    hiders: int,
    seekers: int,
    nextId: int,
    observers: seq<ObserverId>)

  /** The state after a step and the effects of the step, in order. */
  datatype Outcome = Outcome(state: State, effects: seq<Effect>)

  /** The game before any call: the generated maze, all rooms empty. */
  function Init(): (s: State)
    ensures Valid(s)
    ensures s.maze == GenerateRooms() && s.registry == [] && s.participants == map[]
    ensures s.hiders == 0 && s.seekers == 0 && s.observers == []
    ensures s.nextId == 1
  {
    GeneratedMazeIsSymmetric();
    EmptyGame(GenerateRooms())
  }

  /** No one in any room of `m`. */
  function EmptyGame(m: Maze): (s: State)
    requires WellFormed(m)
    ensures Valid(s) && s.maze == m
    ensures s.registry == [] && s.participants == map[] && s.observers == []
    ensures s.hiders == 0 && s.seekers == 0 && s.nextId == 1
  {
    State(m, map k | k in m.rooms :: [], [], map[], 0, 0, 1, [])
  }

  /** How many registered channels have `role`. */
  function CountRole(ps: map<ChannelId, Participant>, reg: seq<ChannelId>, role: Role): nat
    requires forall ch | ch in reg :: ch in ps
  {
    if reg == [] then 0
    else CountRole(ps, reg[..|reg| - 1], role) + (if ps[reg[|reg| - 1]].role == role then 1 else 0)
  }

  function Has(p: Participant, role: Role): nat {
    if p.role == role then 1 else 0
  }

  /** The bookkeeping every step keeps, while participants may be between
      rooms: the shape of the maze, the registry, who is in which room, and
      the counters. */
  ghost predicate Consistent(s: State) {
    Shaped(s) && Registered(s) && Placed(s) && Tallied(s)
  }

  /** The maze is well formed, and each of its rooms has an occupant list. */
  ghost predicate Shaped(s: State) {
    && WellFormed(s.maze)
    && (forall r :: r in s.occupants <==> r in s.maze.rooms)
  }

  /** The registry lists each participant once, under its own channel, and
      participant numbers are distinct and below the next one. */
  ghost predicate Registered(s: State) {
    && Distinct(s.registry)
    && (forall ch :: ch in s.registry <==> ch in s.participants)
    && (forall ch | ch in s.participants :: s.participants[ch].channel == ch)
    && 1 <= s.nextId
    && (forall ch | ch in s.participants :: 1 <= s.participants[ch].id < s.nextId)
    && (forall a, b | a in s.participants && b in s.participants && a != b :: s.participants[a].id != s.participants[b].id)
  }

  /** A participant is in a room's occupants exactly when its room is that
      room, once, and that room is in the maze. */
  ghost predicate Placed(s: State) {
    && (forall ch | ch in s.participants && s.participants[ch].room.Some? :: s.participants[ch].room.value in s.maze.rooms)
    && (forall r, ch | r in s.occupants :: ch in s.occupants[r] <==> ch in s.participants && s.participants[ch].room == Some(r))
    && (forall r | r in s.occupants :: Distinct(s.occupants[r]))
  }

  /** The counters are the registry's tallies of hiders and seekers. */
  ghost predicate Tallied(s: State)
    requires forall ch | ch in s.registry :: ch in s.participants
  {
    && s.hiders == CountRole(s.participants, s.registry, Hider)
    && s.seekers == CountRole(s.participants, s.registry, Seeker)
  }

  /** A state between steps: consistent, and every participant is in a room. */
  ghost predicate Valid(s: State) {
    && Consistent(s)
    && (forall ch | ch in s.participants :: s.participants[ch].room.Some?)
  }

  /** The tally of a joined registry is the sum of the tallies. */
  lemma {:induction false} CountConcat(ps: map<ChannelId, Participant>, a: seq<ChannelId>, b: seq<ChannelId>, role: Role)
    requires forall ch | ch in a + b :: ch in ps
    ensures CountRole(ps, a + b, role) == CountRole(ps, a, role) + CountRole(ps, b, role)
  {
    if b != [] {
      var n := |b| - 1;
      assert (a + b)[..|a + b| - 1] == a + b[..n];
      CountConcat(ps, a, b[..n], role);
    } else {
      assert a + b == a;
    }
  }

  /** The tally depends only on the roles of the registered channels. */
  lemma {:induction false} CountFrame(ps: map<ChannelId, Participant>, qs: map<ChannelId, Participant>, reg: seq<ChannelId>, role: Role)
    requires forall ch | ch in reg :: ch in ps && ch in qs && ps[ch].role == qs[ch].role
    ensures CountRole(ps, reg, role) == CountRole(qs, reg, role)
  {
    if reg != [] {
      CountFrame(ps, qs, reg[..|reg| - 1], role);
    }
  }

  /** Registering one more channel adds its own role to the tally. */
  lemma CountAppend(ps: map<ChannelId, Participant>, reg: seq<ChannelId>, ch: ChannelId, p: Participant, role: Role)
    requires forall c | c in reg :: c in ps
    requires ch !in reg
    ensures CountRole(ps[ch := p], reg + [ch], role) == CountRole(ps, reg, role) + Has(p, role)
  {
    assert (reg + [ch])[..|reg|] == reg;
    CountFrame(ps, ps[ch := p], reg, role);
  }

  /** Unregistering a channel takes its role out of the tally. */
  lemma CountRemove(ps: map<ChannelId, Participant>, reg: seq<ChannelId>, ch: ChannelId, role: Role)
    requires forall c | c in reg :: c in ps
    requires ch in reg
    ensures forall c | c in Remove(reg, ch) :: c in ps
    ensures CountRole(ps, Remove(reg, ch), role) + Has(ps[ch], role) == CountRole(ps, reg, role)
  {
    RemovePresent(reg, ch);
    var i := IndexOf(reg, ch);
    var pre, post := reg[..i], reg[i + 1..];
    assert reg == (pre + [ch]) + post;
    CountConcat(ps, pre + [ch], post, role);
    assert (pre + [ch])[..|pre|] == pre;
    CountConcat(ps, pre, post, role);
  }

  /** Forgetting a registered participant takes exactly its own role out
      of that role's tally. */
  lemma CountForget(ps: map<ChannelId, Participant>, reg: seq<ChannelId>, ch: ChannelId, role: Role)
    requires Distinct(reg) && (forall c :: c in reg <==> c in ps) && ch in ps
    ensures forall c | c in Remove(reg, ch) :: c in ps - {ch}
    ensures CountRole(ps - {ch}, Remove(reg, ch), role) + Has(ps[ch], role) == CountRole(ps, reg, role)
  {
    RemoveDistinct(reg, ch);
    CountRemove(ps, reg, ch, role);
    CountFrame(ps, ps - {ch}, Remove(reg, ch), role);
  }

  /** Changing one registered participant changes the tally by its own
      change of role only. */
  lemma CountUpdate(ps: map<ChannelId, Participant>, reg: seq<ChannelId>, ch: ChannelId, p: Participant, role: Role)
    requires forall c | c in reg :: c in ps
    requires Distinct(reg) && ch in reg
    ensures CountRole(ps[ch := p], reg, role) + Has(ps[ch], role) == CountRole(ps, reg, role) + Has(p, role)
  {
    var qs := ps[ch := p];
    RemovePresent(reg, ch);
    RemoveDistinct(reg, ch);
    CountRemove(ps, reg, ch, role);
    CountRemove(qs, reg, ch, role);
    CountFrame(ps, qs, Remove(reg, ch), role);
  }

  /** A participant as an observer sees it: its role and its room. */
  datatype Sighting = Sighting(role: Role, room: Option<RoomId>)

  /** What an observer can know about the game: each participant's role
      and room. */
  type View = map<ChannelId, Sighting>

  /** The picture the state itself gives. */
  function ViewOf(s: State): View {
    map ch | ch in s.participants :: Sighting(s.participants[ch].role, s.participants[ch].room)
  }

  /** How one event changes an observer's picture: joining the game puts a
      channel outside the rooms, joining or leaving a room moves it, leaving
      the game forgets it, and a caught hider is a seeker from then on. */
  function See(v: View, e: Event): View {
    match e
    case JoinGame(ch, _, role) => v[ch := Sighting(role, None)]
    case JoinRoom(r, ch, _, role) => v[ch := Sighting(role, Some(r))]
    case LeaveRoom(_, ch, _, role) => v[ch := Sighting(role, None)]
    case LeaveGame(ch, _, _) => v - {ch}
    case HiderCaught(_, ch, _) => if ch in v then v[ch := v[ch].(role := Seeker)] else v
    case _ => v
  }

  /** An observer's picture after `events`, in order. */
  function SeeAll(v: View, events: seq<Event>): View
    decreases events
  {
    if events == [] then v else SeeAll(See(v, events[0]), events[1..])
  }

  /** Seeing two batches of events is seeing one after the other. */
  lemma {:induction false} SeeAllConcat(v: View, a: seq<Event>, b: seq<Event>)
    ensures SeeAll(v, a + b) == SeeAll(SeeAll(v, a), b)
    decreases a
  {
    if a != [] {
      assert (a + b)[1..] == a[1..] + b;
      SeeAllConcat(See(v, a[0]), a[1..], b);
    } else {
      assert a + b == b;
    }
  }

  /** An event that changes no observer's picture. */
  predicate Quiet(e: Event) {
    e.CatchAttempt? || e.InvalidRoomMove? || e.GameStarted? || e.GameEnded?
  }

  /** Effects whose broadcasts leave `v` as it is, then effects that take
      it to `w`, then effects that leave `w` as it is, take `v` to `w`. */
  lemma HeardBetweenQuiet(v: View, w: View, pre: seq<Effect>, mid: seq<Effect>, post: seq<Effect>)
    requires SeeAll(v, Notified(pre)) == v
    requires SeeAll(v, Notified(mid)) == w
    requires SeeAll(w, Notified(post)) == w
    ensures SeeAll(v, Notified(pre + mid + post)) == w
  {
    NotifiedConcat(pre, mid);
    NotifiedConcat(pre + mid, post);
    SeeAllConcat(v, Notified(pre), Notified(mid));
    SeeAllConcat(v, Notified(pre) + Notified(mid), Notified(post));
  }

  /** Quiet events leave the picture as it was. */
  lemma {:induction false} SeeQuiet(v: View, events: seq<Event>)
    requires forall i | 0 <= i < |events| :: Quiet(events[i])
    ensures SeeAll(v, events) == v
    decreases events
  {
    if events != [] {
      SeeQuiet(v, events[1..]);
    }
  }

  /** The events of the broadcasts among `effects`, in order. */
  function Notified(effects: seq<Effect>): seq<Event> {
    if effects == [] then []
    else (if effects[0].Notify? then [effects[0].event] else []) + Notified(effects[1..])
  }

  /** Effects without broadcasts tell observers nothing. */
  lemma {:induction false} NotifiedNone(effects: seq<Effect>)
    requires forall i | 0 <= i < |effects| :: !effects[i].Notify?
    ensures Notified(effects) == []
  {
    if effects != [] {
      NotifiedNone(effects[1..]);
    }
  }

  /** Effects without broadcasts, then one broadcast, tell observers just
      that one event. */
  lemma QuietThenOne(a: seq<Effect>, e: Event)
    requires forall x | x in a :: !x.Notify?
    ensures Notified(a + [Notify(e)]) == [e]
  {
    NotifiedNone(a);
    NotifiedConcat(a, [Notify(e)]);
    assert Notified([Notify(e)]) == [e];
  }

  /** Broadcasts of two batches of effects are the broadcasts of each. */
  lemma {:induction false} NotifiedConcat(a: seq<Effect>, b: seq<Effect>)
    ensures Notified(a + b) == Notified(a) + Notified(b)
  {
    if a != [] {
      assert (a + b)[1..] == a[1..] + b;
      NotifiedConcat(a[1..], b);
    } else {
      assert a + b == b;
    }
  }

  /** Two batches of effects broadcasting one event each. */
  lemma NotifiedOneThenOne(a: seq<Effect>, b: seq<Effect>, e: Event, f: Event)
    requires a != [] && Notified(a) == [e] && Notified(b) == [f]
    ensures Notified(a + b) == [e, f] && (a + b)[0] == a[0]
  {
    NotifiedConcat(a, b);
  }

  /** `t` is `s` with at most the prompt queues of participants changed. */
  ghost predicate OnlyQueuesDiffer(s: State, t: State) {
    && t.maze == s.maze && t.occupants == s.occupants && t.registry == s.registry
    && t.hiders == s.hiders && t.seekers == s.seekers && t.nextId == s.nextId
    && t.observers == s.observers
    && (forall ch :: ch in t.participants <==> ch in s.participants)
    && (forall ch | ch in s.participants :: t.participants[ch] == s.participants[ch].(playbacks := t.participants[ch].playbacks))
  }

  /** Queues are no part of the bookkeeping, nor of what observers see. */
  lemma QueuesDoNotMatter(s: State, t: State)
    requires OnlyQueuesDiffer(s, t)
    ensures Consistent(s) ==> Consistent(t)
    ensures Valid(s) ==> Valid(t)
    ensures ViewOf(t) == ViewOf(s)
  {
    if Consistent(s) {
      assert Registered(t) by {
        QueuesDoNotMatterToIds(s, t);
      }
      assert Placed(t);
      CountFrame(s.participants, t.participants, s.registry, Hider);
      CountFrame(s.participants, t.participants, s.registry, Seeker);
    }
  }

  lemma QueuesDoNotMatterToIds(s: State, t: State)
    requires OnlyQueuesDiffer(s, t) && Registered(s)
    ensures Registered(t)
  {
    forall a, b | a in t.participants && b in t.participants && a != b
      ensures t.participants[a].id != t.participants[b].id
    {
      assert t.participants[a].id == s.participants[a].id;
    }
  }

}
