/** The helpers every handler uses: `play_sound` on one participant,
    `play_sound_all` over the rooms, and `joinRoom`, the only place where a
    participant's room and the rooms' occupant lists change. */
module Transitions {
  import opened Wrappers
  import opened JsArray
  import opened RoomGraph
  import opened Playback
  import opened GameState

  /** `play_sound` on the participant of channel `ch`: queue `m`, and play
      it at once only if nothing was queued. */
  function PlaySound(s: State, ch: ChannelId, m: Media): (r: Outcome)
    requires ch in s.participants
    ensures OnlyQueuesDiffer(s, r.state)
    ensures r.state.participants[ch].playbacks == s.participants[ch].playbacks + [m]
    ensures forall c | c in s.participants && c != ch :: r.state.participants[c] == s.participants[c]
    ensures r.effects == if s.participants[ch].playbacks == [] then [PlayOnChannel(ch, m)] else []
  {
    var p := s.participants[ch];
    var q := Enqueue(p.playbacks, m);
    var effects := if q.start.Some? then [PlayOnChannel(ch, q.start.value)] else [];
    Outcome(s.(participants := s.participants[ch := p.(playbacks := q.queue)]), effects)
  }

  /** Three prompts for an idle participant: the first plays at once, all
      three are queued in order, and nothing else changes. */
  lemma ThreePromptsQueued(s: State, ch: ChannelId, a: Media, b: Media, c: Media)
    requires ch in s.participants && s.participants[ch].playbacks == []
    ensures var one := PlaySound(s, ch, a); var two := PlaySound(one.state, ch, b);
      var three := PlaySound(two.state, ch, c);
      && three.state == s.(participants := s.participants[ch := s.participants[ch].(playbacks := [a, b, c])])
      && one.effects == [PlayOnChannel(ch, a)] && two.effects == [] && three.effects == []
  {
    var one := PlaySound(s, ch, a);
    var two := PlaySound(one.state, ch, b);
    var three := PlaySound(two.state, ch, c);
    var p := s.participants[ch].(playbacks := [a, b, c]);
    assert three.state.participants[ch] == p;
    assert three.state.participants == s.participants[ch := p];
  }

  /** `play_sound_all`: play `m` in the bridge of each of `rooms`, in order,
      that has anyone in it. */
  function BridgePlays(occupants: map<RoomId, seq<ChannelId>>, rooms: seq<RoomId>, m: Media): (es: seq<Effect>)
    requires forall k | k in rooms :: k in occupants
    ensures forall i | 0 <= i < |es| :: es[i].PlayOnBridge? && es[i].media == m
    ensures forall k :: PlayOnBridge(k, m) in es <==> k in rooms && occupants[k] != []
  {
    if rooms == [] then []
    else
      var k := rooms[|rooms| - 1];
      var es := BridgePlays(occupants, rooms[..|rooms| - 1], m);
      assert rooms == rooms[..|rooms| - 1] + [k];
      es + (if occupants[k] != [] then [PlayOnBridge(k, m)] else [])
  }

  /** Each room is played in at most once, and observers are told nothing. */
  lemma BridgePlaysOnce(occupants: map<RoomId, seq<ChannelId>>, rooms: seq<RoomId>, m: Media)
    requires forall k | k in rooms :: k in occupants
    requires Distinct(rooms)
    ensures Distinct(BridgePlays(occupants, rooms, m))
    ensures Notified(BridgePlays(occupants, rooms, m)) == []
  {
    NotifiedNone(BridgePlays(occupants, rooms, m));
    BridgePlaysDistinct(occupants, rooms, m);
  }

  lemma {:induction false} BridgePlaysDistinct(occupants: map<RoomId, seq<ChannelId>>, rooms: seq<RoomId>, m: Media)
    requires forall k | k in rooms :: k in occupants
    requires Distinct(rooms)
    ensures Distinct(BridgePlays(occupants, rooms, m))
  {
    if rooms != [] {
      var k := rooms[|rooms| - 1];
      var init := rooms[..|rooms| - 1];
      assert Distinct(init) && k !in init by {
        forall i | 0 <= i < |init| ensures init[i] != k {
          assert init[i] == rooms[i];
        }
      }
      BridgePlaysDistinct(occupants, init, m);
      var prev := BridgePlays(occupants, init, m);
      if occupants[k] != [] {
        assert PlayOnBridge(k, m) !in prev;
        AppendDistinct(prev, PlayOnBridge(k, m));
      }
    }
  }

  /** `play_sound_all(rooms, m)` on the game's rooms, in creation order. */
  function PlaySoundAll(s: State, m: Media): (es: seq<Effect>)
    requires Consistent(s)
    ensures forall i | 0 <= i < |es| :: es[i].PlayOnBridge? && es[i].media == m
    ensures forall k :: PlayOnBridge(k, m) in es <==> k in s.maze.rooms && s.occupants[k] != []
    ensures Distinct(es)
    ensures Notified(es) == []
  {
    BridgePlaysOnce(s.occupants, s.maze.order, m);
    BridgePlays(s.occupants, s.maze.order, m)
  }

  /** The state once `ch` has left room `k`, which it was in. */
  function Unseated(s: State, ch: ChannelId, k: RoomId): State
    requires ch in s.participants && k in s.occupants
  {
    s.(occupants := s.occupants[k := Remove(s.occupants[k], ch)],
       participants := s.participants[ch := s.participants[ch].(room := None)])
  }

  /** The first half of `joinRoom`: leave the current room, if any. A
      seeker's leaving is heard in the room it leaves. */
  function Leave(s: State, ch: ChannelId): (r: Outcome)
    requires Consistent(s) && ch in s.participants
    ensures ch in r.state.participants && r.state.participants[ch].room == None
  {
    var p := s.participants[ch];
    if p.room.None? then Outcome(s, [])
    else
      var k := p.room.value;
      var state := Unseated(s, ch, k);
      var sound := if p.role == Seeker then [PlayOnBridge(k, Sound("confbridge-leave"))] else [];
      Outcome(state, sound + [Notify(LeaveRoom(k, ch, p.id, p.role))])
  }

  /** The code's removals never meet the quirk of `indexOf` answering -1
      (`RemoveAbsentDropsLast`): whoever leaves a room is in its occupant
      list, and whoever leaves the game is in the participant array. */
  lemma RemovalsFindTheirTarget(s: State, ch: ChannelId)
    requires Consistent(s) && ch in s.participants
    ensures IndexOf(s.registry, ch) != -1
    ensures forall k | k in s.occupants && s.participants[ch].room == Some(k) :: IndexOf(s.occupants[k], ch) != -1
  {
  }

  /** The state once `ch` is seated in room `k`, before its prompt. */
  function Seated(s: State, ch: ChannelId, k: RoomId): State
    requires ch in s.participants && k in s.occupants
  {
    s.(occupants := s.occupants[k := s.occupants[k] + [ch]],
       participants := s.participants[ch := s.participants[ch].(room := Some(k))])
  }

  /** The second half of `joinRoom`: enter room `k`, be added to its
      bridge and hear its number. A seeker's arrival is heard in the room. */
  function Place(s: State, ch: ChannelId, k: RoomId): (r: Outcome)
    requires Consistent(s) && ch in s.participants && s.participants[ch].room == None
    requires k in s.maze.rooms
    ensures ch in r.state.participants && r.state.participants[ch].room == Some(k)
    ensures OnlyQueuesDiffer(Seated(s, ch, k), r.state)
    ensures r.state.participants[ch].playbacks == s.participants[ch].playbacks + [Number(k)]
    ensures Notified(r.effects) == [Event.JoinRoom(k, ch, Some(s.participants[ch].id), s.participants[ch].role)]
  {
    var p := s.participants[ch];
    var state := Seated(s, ch, k);
    var sound := if p.role == Seeker then [PlayOnBridge(k, Sound("confbridge-join"))] else [];
    var number := PlaySound(state, ch, Number(k));
    var join := Notify(Event.JoinRoom(k, ch, Some(p.id), p.role));
    QuietThenOne(sound + [AddToBridge(k, ch)] + number.effects, join.event);
    assert EntryList(p.role == Seeker, k, ch, number.effects, join) == sound + [AddToBridge(k, ch)] + number.effects + [join];
    Outcome(number.state, EntryList(p.role == Seeker, k, ch, number.effects, join))
  }

  /** Entering a room adds the caller to the room's bridge, right after the
      `confbridge-join` that a seeker's arrival plays there; no other room's
      bridge is touched and nothing else is played in a room. */
  lemma PlaceSounds(s: State, ch: ChannelId, k: RoomId)
    requires Consistent(s) && ch in s.participants && s.participants[ch].room == None
    requires k in s.maze.rooms
    ensures var p := s.participants[ch]; var es := Place(s, ch, k).effects;
      && (forall j :: PlayOnBridge(j, Sound("confbridge-join")) in es <==> j == k && p.role == Seeker)
      && AddToBridge(k, ch) in es
      && es[0] == (if p.role == Seeker then PlayOnBridge(k, Sound("confbridge-join")) else AddToBridge(k, ch))
      && (forall e | e in es && e.AddToBridge? :: e == AddToBridge(k, ch))
      && (forall e | e in es && e.PlayOnBridge? :: e == PlayOnBridge(k, Sound("confbridge-join")))
  {
    var p := s.participants[ch];
    var number := PlaySound(Seated(s, ch, k), ch, Number(k)).effects;
    EntryEffects(p.role == Seeker, k, ch, number, Notify(Event.JoinRoom(k, ch, Some(p.id), p.role)));
  }

  /** The effects of entering room `k`, as `Place` lists them. */
  function EntryList(seeker: bool, k: RoomId, ch: ChannelId, number: seq<Effect>, join: Effect): seq<Effect> {
    (if seeker then [PlayOnBridge(k, Sound("confbridge-join"))] else []) + [AddToBridge(k, ch)] + number + [join]
  }

  /** Around channel prompts and a broadcast, the bridge effects of an
      entry are the join prompt, for a seeker, then the bridge addition. */
  lemma EntryEffects(seeker: bool, k: RoomId, ch: ChannelId, number: seq<Effect>, join: Effect)
    requires forall e | e in number :: e.PlayOnChannel?
    requires join.Notify?
    ensures var es := EntryList(seeker, k, ch, number, join);
      && (forall j :: PlayOnBridge(j, Sound("confbridge-join")) in es <==> j == k && seeker)
      && AddToBridge(k, ch) in es
      && es[0] == (if seeker then PlayOnBridge(k, Sound("confbridge-join")) else AddToBridge(k, ch))
      && (forall e | e in es && e.AddToBridge? :: e == AddToBridge(k, ch))
      && (forall e | e in es && e.PlayOnBridge? :: e == PlayOnBridge(k, Sound("confbridge-join")))
  {
  }

  /** `joinRoom(target, p)` for the participant of channel `ch`; a missing
      target only takes the participant out of its room. */
  function JoinRoom(s: State, target: Option<RoomId>, ch: ChannelId): (r: Outcome)
    requires Consistent(s) && ch in s.participants
    requires target.Some? ==> target.value in s.maze.rooms
    ensures ch in r.state.participants && r.state.participants[ch].room == target
  {
    var left := Leave(s, ch);
    LeaveKeeps(s, ch);
    if target.None? then left
    else
      var placed := Place(left.state, ch, target.value);
      Outcome(placed.state, left.effects + placed.effects)
  }

  /** What leaving a room does and does not change. */
  lemma LeaveKeeps(s: State, ch: ChannelId)
    requires Consistent(s) && ch in s.participants
    ensures var t := Leave(s, ch).state;
      && Consistent(t)
      && t.maze == s.maze && t.registry == s.registry && t.nextId == s.nextId && t.observers == s.observers
      && t.hiders == s.hiders && t.seekers == s.seekers
      && (forall c :: c in t.participants <==> c in s.participants)
      && t.participants[ch] == s.participants[ch].(room := None)
      && (forall c | c in s.participants && c != ch :: t.participants[c] == s.participants[c])
      && (forall k | k in s.occupants && Some(k) != s.participants[ch].room :: t.occupants[k] == s.occupants[k])
  {
    var p := s.participants[ch];
    if p.room.Some? {
      UnseatedKeeps(s, ch, p.room.value);
    }
  }

  /** Unseating a participant from the room it is in keeps the bookkeeping. */
  lemma UnseatedKeeps(s: State, ch: ChannelId, k: RoomId)
    requires Consistent(s) && ch in s.participants && s.participants[ch].room == Some(k)
    ensures Consistent(Unseated(s, ch, k))
  {
    var t := Unseated(s, ch, k);
    assert Registered(t);
    UnseatedPlaces(s, ch, k);
    assert Tallied(t) by {
      CountFrame(s.participants, t.participants, s.registry, Hider);
      CountFrame(s.participants, t.participants, s.registry, Seeker);
    }
  }

  lemma UnseatedPlaces(s: State, ch: ChannelId, k: RoomId)
    requires Consistent(s) && ch in s.participants && s.participants[ch].room == Some(k)
    ensures Placed(Unseated(s, ch, k))
  {
    var t := Unseated(s, ch, k);
    RemoveDistinct(s.occupants[k], ch);
    forall r, c | r in t.occupants
      ensures c in t.occupants[r] <==> c in t.participants && t.participants[c].room == Some(r)
    {
      if r != k && c == ch {
        assert ch !in s.occupants[r];
      }
    }
  }

  /** What entering a room does and does not change. */
  lemma PlaceKeeps(s: State, ch: ChannelId, k: RoomId)
    requires Consistent(s) && ch in s.participants && s.participants[ch].room == None
    requires k in s.maze.rooms
    ensures var t := Place(s, ch, k).state;
      && Consistent(t)
      && t.maze == s.maze && t.registry == s.registry && t.nextId == s.nextId && t.observers == s.observers
      && t.hiders == s.hiders && t.seekers == s.seekers
      && (forall c :: c in t.participants <==> c in s.participants)
      && t.participants[ch] == s.participants[ch].(room := Some(k), playbacks := s.participants[ch].playbacks + [Number(k)])
      && (forall c | c in s.participants && c != ch :: t.participants[c] == s.participants[c])
      && t.occupants[k] == s.occupants[k] + [ch]
      && (forall j | j in s.occupants && j != k :: t.occupants[j] == s.occupants[j])
  {
    PlaceConsistent(s, ch, k);
  }

  lemma PlaceConsistent(s: State, ch: ChannelId, k: RoomId)
    requires Consistent(s) && ch in s.participants && s.participants[ch].room == None
    requires k in s.maze.rooms
    ensures Consistent(Place(s, ch, k).state)
  {
    SeatedKeeps(s, ch, k);
    QueuesDoNotMatter(Seated(s, ch, k), Place(s, ch, k).state);
  }

  /** Seating a participant that is in no room, in a room of the maze,
      keeps the bookkeeping. */
  lemma SeatedKeeps(s: State, ch: ChannelId, k: RoomId)
    requires Consistent(s) && ch in s.participants && s.participants[ch].room == None
    requires k in s.maze.rooms
    ensures Consistent(Seated(s, ch, k))
  {
    var u := Seated(s, ch, k);
    assert Registered(u);
    SeatedPlaces(s, ch, k);
    assert Tallied(u) by {
      CountFrame(s.participants, u.participants, s.registry, Hider);
      CountFrame(s.participants, u.participants, s.registry, Seeker);
    }
  }

  lemma SeatedPlaces(s: State, ch: ChannelId, k: RoomId)
    requires Consistent(s) && ch in s.participants && s.participants[ch].room == None
    requires k in s.maze.rooms
    ensures Placed(Seated(s, ch, k))
  {
    var u := Seated(s, ch, k);
    assert ch !in s.occupants[k];
    AppendDistinct(s.occupants[k], ch);
    forall r, c | r in u.occupants
      ensures c in u.occupants[r] <==> c in u.participants && u.participants[c].room == Some(r)
    {
      if r != k && c == ch {
        assert ch !in s.occupants[r];
      }
    }
  }

  /** The events `joinRoom` broadcasts: leaving the old room, if there was
      one, then joining the new one, if there is one. */
  function MoveEvents(p: Participant, target: Option<RoomId>): seq<Event> {
    (if p.room.Some? then [LeaveRoom(p.room.value, p.channel, p.id, p.role)] else [])
    + (if target.Some? then [Event.JoinRoom(target.value, p.channel, Some(p.id), p.role)] else [])
  }

  /** `joinRoom(target, p)`: afterwards `p` is in `target` and in no other
      room, it has left its old room, no other room's occupants change,
      nothing but `p`'s room and prompt queue changes, and the bookkeeping
      still holds. */
  lemma JoinRoomKeeps(s: State, target: Option<RoomId>, ch: ChannelId)
    requires Consistent(s) && ch in s.participants
    requires target.Some? ==> target.value in s.maze.rooms
    ensures var t := JoinRoom(s, target, ch).state; var p := s.participants[ch];
      && Consistent(t)
      && t.maze == s.maze && t.registry == s.registry && t.nextId == s.nextId && t.observers == s.observers
      && t.hiders == s.hiders && t.seekers == s.seekers
      && (forall c :: c in t.participants <==> c in s.participants)
      && t.participants[ch] == p.(room := target, playbacks := p.playbacks + (if target.Some? then [Number(target.value)] else []))
      && (forall c | c in s.participants && c != ch :: t.participants[c] == s.participants[c])
      && (forall k | k in t.occupants :: ch in t.occupants[k] <==> target == Some(k))
      && (forall k | k in s.occupants && Some(k) != p.room && Some(k) != target :: t.occupants[k] == s.occupants[k])
  {
    LeaveKeeps(s, ch);
    if target.Some? {
      PlaceKeeps(Leave(s, ch).state, ch, target.value);
    }
  }

  /** Moving a participant of a valid state into a room of the maze keeps
      the state valid. */
  lemma JoinRoomValid(s: State, k: RoomId, ch: ChannelId)
    requires Valid(s) && ch in s.participants && k in s.maze.rooms
    ensures Valid(JoinRoom(s, Some(k), ch).state)
  {
    JoinRoomKeeps(s, Some(k), ch);
  }

  /** What observers hear from `joinRoom`: of the leave before the join. */
  lemma JoinRoomEvents(s: State, target: Option<RoomId>, ch: ChannelId)
    requires Consistent(s) && ch in s.participants
    requires target.Some? ==> target.value in s.maze.rooms
    ensures Notified(JoinRoom(s, target, ch).effects) == MoveEvents(s.participants[ch], target)
  {
    var p := s.participants[ch];
    var left := Leave(s, ch);
    LeaveKeeps(s, ch);
    LeaveEvents(s, ch);
    if target.Some? {
      var u := left.state;
      NotifiedConcat(left.effects, Place(u, ch, target.value).effects);
    }
  }

  lemma LeaveEvents(s: State, ch: ChannelId)
    requires Consistent(s) && ch in s.participants
    ensures Notified(Leave(s, ch).effects) == MoveEvents(s.participants[ch], None)
  {
    var p := s.participants[ch];
    if p.room.Some? {
      var sound := if p.role == Seeker then [PlayOnBridge(p.room.value, Sound("confbridge-leave"))] else [];
      var leave := [Notify(LeaveRoom(p.room.value, ch, p.id, p.role))];
      NotifiedConcat(sound, leave);
      NotifiedNone(sound);
      assert Notified(leave) == [LeaveRoom(p.room.value, ch, p.id, p.role)];
    }
  }

  /** The leave sound is played in the room left, and only when the one
      leaving is a seeker; leaving asks for nothing else but the broadcast. */
  lemma LeaveSounds(s: State, ch: ChannelId)
    requires Consistent(s) && ch in s.participants
    ensures var p := s.participants[ch]; var es := Leave(s, ch).effects;
      && (forall k :: PlayOnBridge(k, Sound("confbridge-leave")) in es <==> p.room == Some(k) && p.role == Seeker)
      && (forall i | 0 <= i < |es| :: es[i].Notify? || es[i] == PlayOnBridge(p.room.value, Sound("confbridge-leave")))
  {
  }

  /** An observer who has seen everything so far and hears of the leave
      and the join sees the participant where `joinRoom` put it. */
  lemma JoinRoomKeepsObservers(s: State, target: Option<RoomId>, ch: ChannelId)
    requires Consistent(s) && ch in s.participants
    requires target.Some? ==> target.value in s.maze.rooms
    ensures SeeAll(ViewOf(s), Notified(JoinRoom(s, target, ch).effects)) == ViewOf(JoinRoom(s, target, ch).state)
  {
    var p := s.participants[ch];
    var t := JoinRoom(s, target, ch).state;
    JoinRoomKeeps(s, target, ch);
    JoinRoomEvents(s, target, ch);
    SeeMove(ViewOf(s), p, target);
    ViewOfRelocated(s, t, ch);
  }

  /** Hearing of a move relocates the mover in the picture. */
  lemma SeeMove(v: View, p: Participant, target: Option<RoomId>)
    requires p.channel in v && v[p.channel] == Sighting(p.role, p.room)
    ensures SeeAll(v, MoveEvents(p, target)) == v[p.channel := Sighting(p.role, target)]
  {
    var leave := if p.room.Some? then [LeaveRoom(p.room.value, p.channel, p.id, p.role)] else [];
    var join := if target.Some? then [Event.JoinRoom(target.value, p.channel, Some(p.id), p.role)] else [];
    SeeAllConcat(v, leave, join);
    var w := SeeAll(v, leave);
    assert w == v[p.channel := Sighting(p.role, None)] by {
      if p.room.Some? {
        assert leave[1..] == [];
      } else {
        assert v[p.channel := Sighting(p.role, None)] == v;
      }
    }
    if target.Some? {
      assert join[1..] == [];
    }
  }

  /** The picture of a state where only one participant's room (and prompt
      queue) differ. */
  lemma ViewOfRelocated(s: State, t: State, ch: ChannelId)
    requires ch in s.participants
    requires forall c :: c in t.participants <==> c in s.participants
    requires t.participants[ch].role == s.participants[ch].role
    requires forall c | c in s.participants && c != ch :: t.participants[c] == s.participants[c]
    ensures ViewOf(t) == ViewOf(s)[ch := Sighting(s.participants[ch].role, t.participants[ch].room)]
  {
  }
}
