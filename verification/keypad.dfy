/** `onDtmfReceived`: what a key press on a participant's phone does.
    `*` starts the game, 2, 8, 4 and 6 move up, down, left and right, 0
    catches the hiders in the presser's room, and any other key does
    nothing. */
module Keypad {
  import opened Wrappers
  import opened JsArray
  import opened RoomGraph
  import opened Playback
  import opened GameState
  import opened Transitions

  /** The direction a move key stands for. */
  function DirectionOf(digit: char): Option<Direction> {
    match digit
    case '2' => Some(Up)
    case '8' => Some(Down)
    case '4' => Some(Left)
    case '6' => Some(Right)
    case _ => None
  }

  /** The end of a move with no room behind it: the presser hears
      `oops1`, and observers hear of an invalid move in direction `digit`. */
  function Blocked(s: State, ch: ChannelId, digit: char): (r: Outcome)
    requires Valid(s) && ch in s.participants
    ensures forall e | e in r.effects :: e.PlayOnChannel? || e.Notify?
  {
    var p := s.participants[ch];
    var oops := PlaySound(s, ch, Sound("oops1"));
    Outcome(oops.state, oops.effects + [Notify(InvalidRoomMove(p.room.value, ch, p.id, digit))])
  }

  /** A blocked move changes nothing but the presser's prompt queue, which
      gains `oops1`, and tells observers exactly one thing: the invalid
      move, with the key pressed. */
  lemma BlockedChangesNoRoom(s: State, ch: ChannelId, digit: char)
    requires Valid(s) && ch in s.participants
    ensures var r := Blocked(s, ch, digit); var p := s.participants[ch];
      && OnlyQueuesDiffer(s, r.state)
      && r.state.participants[ch].playbacks == p.playbacks + [Sound("oops1")]
      && Notified(r.effects) == [InvalidRoomMove(p.room.value, ch, p.id, digit)]
      && Valid(r.state)
      && ViewOf(r.state) == ViewOf(s)
  {
    var p := s.participants[ch];
    var oops := PlaySound(s, ch, Sound("oops1"));
    var invalid := [Notify(InvalidRoomMove(p.room.value, ch, p.id, digit))];
    NotifiedNone(oops.effects);
    NotifiedConcat(oops.effects, invalid);
    assert Notified(invalid) == [InvalidRoomMove(p.room.value, ch, p.id, digit)];
    QueuesDoNotMatter(s, oops.state);
  }

  /** A move key: go through the door in direction `d` if there is one. */
  function Move(s: State, ch: ChannelId, digit: char, d: Direction): (r: Outcome)
    requires Valid(s) && ch in s.participants
  {
    var k := s.participants[ch].room.value;
    var next := Neighbor(s.maze.rooms[k], d);
    if next.None? then Blocked(s, ch, digit)
    else Transitions.JoinRoom(s, next, ch)
  }

  /** A move takes the presser to the neighbouring room when there is one,
      and otherwise leaves every room as it was. */
  lemma MoveGoesThroughTheDoor(s: State, ch: ChannelId, digit: char, d: Direction)
    requires Valid(s) && ch in s.participants
    ensures var r := Move(s, ch, digit, d); var p := s.participants[ch];
      var next := Neighbor(s.maze.rooms[p.room.value], d);
      && Valid(r.state)
      && r.state.hiders == s.hiders && r.state.seekers == s.seekers
      && r.state.participants[ch].room == (if next.Some? then next else p.room)
      && (next.None? ==> r.state.occupants == s.occupants)
  {
    var p := s.participants[ch];
    var next := Neighbor(s.maze.rooms[p.room.value], d);
    if next.None? {
      BlockedChangesNoRoom(s, ch, digit);
    } else {
      assert WellFormed(s.maze) && p.room.value in s.maze.rooms;
      JoinRoomValid(s, next.value, ch);
      JoinRoomKeeps(s, next, ch);
    }
  }

  /** Observers hear the leave and the join of a move, or the invalid move
      with the key pressed, and either way keep an accurate picture. */
  lemma MoveIsHeard(s: State, ch: ChannelId, digit: char, d: Direction)
    requires Valid(s) && ch in s.participants
    ensures var r := Move(s, ch, digit, d); var p := s.participants[ch];
      var next := Neighbor(s.maze.rooms[p.room.value], d);
      && Notified(r.effects) == (if next.Some? then MoveEvents(p, next) else [InvalidRoomMove(p.room.value, ch, p.id, digit)])
      && SeeAll(ViewOf(s), Notified(r.effects)) == ViewOf(r.state)
  {
    var p := s.participants[ch];
    var next := Neighbor(s.maze.rooms[p.room.value], d);
    if next.None? {
      BlockedChangesNoRoom(s, ch, digit);
      SeeQuiet(ViewOf(s), [InvalidRoomMove(p.room.value, ch, p.id, digit)]);
    } else {
      assert WellFormed(s.maze) && p.room.value in s.maze.rooms;
      JoinRoomEvents(s, next, ch);
      JoinRoomKeepsObservers(s, next, ch);
    }
  }

  /** `*` as the code should have it: a seeker starts the game when there
      are hiders, and anyone else hears `beeperr`. */
  function Start(s: State, ch: ChannelId): (r: Outcome)
    requires Valid(s) && ch in s.participants
  {
    var p := s.participants[ch];
    if p.role != Seeker then PlaySound(s, ch, Sound("beeperr"))
    else if s.hiders == 0 then PlaySound(s, ch, Sound("beeperr"))
    else Outcome(s, [Notify(GameStarted)] + PlaySoundAll(s, Sound("beep")))
  }

  /** `*` as written: the successful start has no `return`, so it goes on
      to the check for a missing room, finds none (no direction was set)
      and reports an invalid move in direction `*`. */
  function StartAsWritten(s: State, ch: ChannelId): (r: Outcome)
    requires Valid(s) && ch in s.participants
  {
    var p := s.participants[ch];
    if p.role != Seeker then PlaySound(s, ch, Sound("beeperr"))
    else if s.hiders == 0 then PlaySound(s, ch, Sound("beeperr"))
    else
      var blocked := Blocked(s, ch, '*');
      Outcome(blocked.state, Start(s, ch).effects + blocked.effects)
  }

  /** `game_started` is announced exactly when a seeker presses `*` while
      there are hiders; then every occupied room hears `beep` and nothing
      else changes. Otherwise the presser's queue gains `beeperr`, and
      observers hear nothing. */
  lemma StartAnnouncesOnlyWithHiders(s: State, ch: ChannelId)
    requires Valid(s) && ch in s.participants
    ensures var r := Start(s, ch); var ok := s.participants[ch].role == Seeker && s.hiders > 0;
      && Notified(r.effects) == (if ok then [GameStarted] else [])
      && (ok ==> r.state == s)
      && (ok ==> forall k :: PlayOnBridge(k, Sound("beep")) in r.effects <==> k in s.maze.rooms && s.occupants[k] != [])
      && (!ok ==> OnlyQueuesDiffer(s, r.state) && r.state.participants[ch].playbacks == s.participants[ch].playbacks + [Sound("beeperr")])
      && Valid(r.state)
      && ViewOf(r.state) == ViewOf(s)
  {
    var r := Start(s, ch);
    var ok := s.participants[ch].role == Seeker && s.hiders > 0;
    if ok {
      var beeps := PlaySoundAll(s, Sound("beep"));
      NotifiedConcat([Notify(GameStarted)], beeps);
      assert Notified([Notify(GameStarted)]) == [GameStarted];
    } else {
      NotifiedNone(r.effects);
      QueuesDoNotMatter(s, r.state);
    }
  }

  /** The code as written reports a successful start as an invalid move in
      direction `*`, and queues `oops1` for the seeker who started. */
  lemma StartAsWrittenReportsInvalidMove(s: State, ch: ChannelId)
    requires Valid(s) && ch in s.participants
    requires s.participants[ch].role == Seeker && s.hiders > 0
    ensures var r := StartAsWritten(s, ch); var p := s.participants[ch];
      && Notified(r.effects) == [GameStarted, InvalidRoomMove(p.room.value, ch, p.id, '*')]
      && r.state.participants[ch].playbacks == p.playbacks + [Sound("oops1")]
      && Notified(r.effects) != Notified(Start(s, ch).effects)
      && r.effects[..|Start(s, ch).effects|] == Start(s, ch).effects
      && (forall k :: PlayOnBridge(k, Sound("beep")) in r.effects <==> k in s.maze.rooms && s.occupants[k] != [])
  {
    var p := s.participants[ch];
    var blocked := Blocked(s, ch, '*');
    BlockedChangesNoRoom(s, ch, '*');
    StartedIsHeard(s);
    var started := [Notify(GameStarted)] + PlaySoundAll(s, Sound("beep"));
    NotifiedOneThenOne(started, blocked.effects, GameStarted, InvalidRoomMove(p.room.value, ch, p.id, '*'));
    StartAsWrittenBeginsAsStart(s, ch);
  }

  /** A successful `*` as written first does everything the corrected
      start does, so every occupied room hears `beep`, and no other room. */
  lemma StartAsWrittenBeginsAsStart(s: State, ch: ChannelId)
    requires Valid(s) && ch in s.participants
    requires s.participants[ch].role == Seeker && s.hiders > 0
    ensures var r := StartAsWritten(s, ch);
      && r.effects[..|Start(s, ch).effects|] == Start(s, ch).effects
      && (forall k :: PlayOnBridge(k, Sound("beep")) in r.effects <==> k in s.maze.rooms && s.occupants[k] != [])
  {
    StartAnnouncesOnlyWithHiders(s, ch);
    NoBridgeAfter(Start(s, ch).effects, Blocked(s, ch, '*').effects);
  }

  /** Appending effects that play on no bridge keeps the prefix and the
      bridge prompts. */
  lemma NoBridgeAfter(a: seq<Effect>, b: seq<Effect>)
    requires forall e | e in b :: e.PlayOnChannel? || e.Notify?
    ensures (a + b)[..|a|] == a
    ensures forall k, m :: PlayOnBridge(k, m) in a + b <==> PlayOnBridge(k, m) in a
  {
  }

  /** The code as written and the corrected code agree exactly where `*`
      fails, with the presser hearing `beeperr` and nothing else happening. */
  lemma StartAsWrittenFailsAsStart(s: State, ch: ChannelId)
    requires Valid(s) && ch in s.participants
    ensures StartAsWritten(s, ch) == Start(s, ch) <==> !(s.participants[ch].role == Seeker && s.hiders > 0)
  {
    if s.participants[ch].role == Seeker && s.hiders > 0 {
      StartAsWrittenReportsInvalidMove(s, ch);
    }
  }

  /** The successful start broadcasts `game_started` alone. */
  lemma StartedIsHeard(s: State)
    requires Consistent(s)
    ensures Notified([Notify(GameStarted)] + PlaySoundAll(s, Sound("beep"))) == [GameStarted]
  {
    NotifiedConcat([Notify(GameStarted)], PlaySoundAll(s, Sound("beep")));
    assert Notified([Notify(GameStarted)]) == [GameStarted];
  }

  /** The hiders among `xs`, in order. */
  function Caught(ps: map<ChannelId, Participant>, xs: seq<ChannelId>): (cs: seq<ChannelId>)
    requires forall c | c in xs :: c in ps
    ensures forall c | c in cs :: c in xs
  {
    if xs == [] then []
    else (if ps[xs[0]].role == Hider then [xs[0]] else []) + Caught(ps, xs[1..])
  }

  /** The `hider_caught` events for the hiders `cs` caught in room `k`. */
  function CaughtEvents(ps: map<ChannelId, Participant>, k: RoomId, cs: seq<ChannelId>): seq<Event>
    requires forall c | c in cs :: c in ps
  {
    if cs == [] then []
    else [HiderCaught(k, cs[0], ps[cs[0]].id)] + CaughtEvents(ps, k, cs[1..])
  }

  /** Turn the hider of channel `c` into a seeker, counting the change. */
  function Convert(s: State, c: ChannelId): State
    requires c in s.participants
  {
    s.(hiders := s.hiders - 1, seekers := s.seekers + 1,
       participants := s.participants[c := s.participants[c].(role := Seeker)])
  }

  /** The `forEach` over the occupants `xs` of room `k`: each hider among
      them becomes a seeker, and observers hear of each catch in turn. */
  function Sweep(s: State, k: RoomId, xs: seq<ChannelId>): (r: Outcome)
    requires forall c | c in xs :: c in s.participants
    decreases xs
  {
    if xs == [] then Outcome(s, [])
    else
      var c := xs[0];
      var p := s.participants[c];
      if p.role != Hider then Sweep(s, k, xs[1..])
      else
        var rest := Sweep(Convert(s, c), k, xs[1..]);
        Outcome(rest.state, [Notify(HiderCaught(k, c, p.id))] + rest.effects)
  }

  /** Catching the hiders among distinct `xs`: exactly those become
      seekers, the counters move by their number, nothing else changes, and
      the bookkeeping still holds. */
  lemma SweepCatchesTheHiders(s: State, k: RoomId, xs: seq<ChannelId>)
    requires Consistent(s) && Distinct(xs)
    requires forall c | c in xs :: c in s.participants
    ensures var t := Sweep(s, k, xs).state; var n := |Caught(s.participants, xs)|;
      && Consistent(t)
      && t.hiders == s.hiders - n && t.seekers == s.seekers + n
      && t.maze == s.maze && t.occupants == s.occupants && t.registry == s.registry
      && t.nextId == s.nextId && t.observers == s.observers
      && (forall c :: c in t.participants <==> c in s.participants)
      && (forall c | c in s.participants ::
            t.participants[c] == s.participants[c].(role := if c in xs && s.participants[c].role == Hider then Seeker else s.participants[c].role))
  {
    SweepKeeps(s, k, xs);
    SweepConverts(s, k, xs);
  }

  /** The sweep keeps the bookkeeping. */
  lemma {:induction false} SweepKeeps(s: State, k: RoomId, xs: seq<ChannelId>)
    requires Consistent(s) && Distinct(xs)
    requires forall c | c in xs :: c in s.participants
    decreases xs
    ensures Consistent(Sweep(s, k, xs).state)
  {
    if xs != [] {
      var c := xs[0];
      TailOfDistinct(xs);
      if s.participants[c].role != Hider {
        SweepKeeps(s, k, xs[1..]);
      } else {
        ConvertKeeps(s, c);
        SweepKeeps(Convert(s, c), k, xs[1..]);
      }
    }
  }

  /** The sweep turns exactly the hiders of `xs` into seekers and moves the
      counters by their number. */
  lemma {:induction false} SweepConverts(s: State, k: RoomId, xs: seq<ChannelId>)
    requires Distinct(xs)
    requires forall c | c in xs :: c in s.participants
    decreases xs
    ensures var t := Sweep(s, k, xs).state; var n := |Caught(s.participants, xs)|;
      && t.hiders == s.hiders - n && t.seekers == s.seekers + n
      && t.maze == s.maze && t.occupants == s.occupants && t.registry == s.registry
      && t.nextId == s.nextId && t.observers == s.observers
      && (forall c :: c in t.participants <==> c in s.participants)
      && (forall c | c in s.participants ::
            t.participants[c] == s.participants[c].(role := if c in xs && s.participants[c].role == Hider then Seeker else s.participants[c].role))
  {
    if xs != [] {
      var c := xs[0];
      var tail := xs[1..];
      TailOfDistinct(xs);
      if s.participants[c].role != Hider {
        SweepConverts(s, k, tail);
      } else {
        var u := Convert(s, c);
        SweepConverts(u, k, tail);
        CaughtFrame(s.participants, u.participants, tail);
      }
    }
  }

  /** Observers hear one `hider_caught` per caught hider, in order. */
  lemma {:induction false} SweepEvents(s: State, k: RoomId, xs: seq<ChannelId>)
    requires Consistent(s) && Distinct(xs)
    requires forall c | c in xs :: c in s.participants
    decreases xs
    ensures Notified(Sweep(s, k, xs).effects) == CaughtEvents(s.participants, k, Caught(s.participants, xs))
  {
    if xs != [] {
      var c := xs[0];
      var p := s.participants[c];
      var tail := xs[1..];
      TailOfDistinct(xs);
      if p.role != Hider {
        SweepEvents(s, k, tail);
        assert Caught(s.participants, xs) == Caught(s.participants, tail);
      } else {
        var u := Convert(s, c);
        ConvertKeeps(s, c);
        SweepEvents(u, k, tail);
        CaughtFrame(s.participants, u.participants, tail);
        CaughtEventsFrame(s.participants, u.participants, k, Caught(s.participants, tail));
        var rest := Sweep(u, k, tail);
        var caught := [Notify(HiderCaught(k, c, p.id))];
        NotifiedConcat(caught, rest.effects);
        assert Notified(caught) == [HiderCaught(k, c, p.id)];
        var cs := Caught(s.participants, xs);
        assert cs == [c] + Caught(s.participants, tail);
        assert cs[1..] == Caught(s.participants, tail);
      }
    }
  }

  /** An observer hearing the catches sees each caught hider as a seeker. */
  lemma {:induction false} SweepKeepsObservers(s: State, k: RoomId, xs: seq<ChannelId>)
    requires Consistent(s) && Distinct(xs)
    requires forall c | c in xs :: c in s.participants
    decreases xs
    ensures SeeAll(ViewOf(s), Notified(Sweep(s, k, xs).effects)) == ViewOf(Sweep(s, k, xs).state)
  {
    if xs != [] {
      var c := xs[0];
      var p := s.participants[c];
      var tail := xs[1..];
      TailOfDistinct(xs);
      if p.role != Hider {
        SweepKeepsObservers(s, k, tail);
      } else {
        var u := Convert(s, c);
        ConvertKeeps(s, c);
        SweepKeepsObservers(u, k, tail);
        var rest := Sweep(u, k, tail);
        var e := HiderCaught(k, c, p.id);
        NotifiedConcat([Notify(e)], rest.effects);
        assert Notified([Notify(e)]) == [e];
        var evs := [e] + Notified(rest.effects);
        assert evs[1..] == Notified(rest.effects);
        ConvertSeen(s, k, c);
      }
    }
  }

  /** Hearing that `c` was caught, an observer sees it as a seeker. */
  lemma ConvertSeen(s: State, k: RoomId, c: ChannelId)
    requires c in s.participants
    ensures See(ViewOf(s), HiderCaught(k, c, s.participants[c].id)) == ViewOf(Convert(s, c))
  {
    var v := ViewOf(s);
    var w := ViewOf(Convert(s, c));
    assert v[c := v[c].(role := Seeker)] == w;
  }

  /** The caught are exactly the hiders among `xs`. */
  lemma {:induction false} CaughtAreTheHiders(ps: map<ChannelId, Participant>, xs: seq<ChannelId>)
    requires forall c | c in xs :: c in ps
    ensures forall c :: c in Caught(ps, xs) <==> c in xs && ps[c].role == Hider
  {
    if xs != [] {
      CaughtAreTheHiders(ps, xs[1..]);
      assert forall c :: c in xs <==> c == xs[0] || c in xs[1..];
    }
  }

  lemma TailOfDistinct(xs: seq<ChannelId>)
    requires Distinct(xs) && xs != []
    ensures Distinct(xs[1..]) && xs[0] !in xs[1..]
  {
    var tail := xs[1..];
    forall i, j | 0 <= i < j < |tail| ensures tail[i] != tail[j] {
      assert tail[i] == xs[i + 1] && tail[j] == xs[j + 1];
    }
    forall i | 0 <= i < |tail| ensures tail[i] != xs[0] {
      assert tail[i] == xs[i + 1];
    }
  }

  /** Converting one hider keeps the bookkeeping and moves the counters by one. */
  lemma ConvertKeeps(s: State, c: ChannelId)
    requires Consistent(s) && c in s.participants && s.participants[c].role == Hider
    ensures Consistent(Convert(s, c))
  {
    var u := Convert(s, c);
    assert Registered(u);
    assert Placed(u);
    ConvertTallies(s, c);
  }

  lemma ConvertTallies(s: State, c: ChannelId)
    requires Consistent(s) && c in s.participants && s.participants[c].role == Hider
    ensures forall x | x in Convert(s, c).registry :: x in Convert(s, c).participants
    ensures Tallied(Convert(s, c))
  {
    CountUpdate(s.participants, s.registry, c, s.participants[c].(role := Seeker), Hider);
    CountUpdate(s.participants, s.registry, c, s.participants[c].(role := Seeker), Seeker);
  }

  /** Who is caught depends only on the roles of `xs`. */
  lemma {:induction false} CaughtFrame(ps: map<ChannelId, Participant>, qs: map<ChannelId, Participant>, xs: seq<ChannelId>)
    requires forall c | c in xs :: c in ps && c in qs && ps[c].role == qs[c].role
    ensures Caught(ps, xs) == Caught(qs, xs)
  {
    if xs != [] {
      CaughtFrame(ps, qs, xs[1..]);
    }
  }

  /** The events name the caught by their numbers only. */
  lemma {:induction false} CaughtEventsFrame(ps: map<ChannelId, Participant>, qs: map<ChannelId, Participant>, k: RoomId, cs: seq<ChannelId>)
    requires forall c | c in cs :: c in ps && c in qs && ps[c].id == qs[c].id
    ensures CaughtEvents(ps, k, cs) == CaughtEvents(qs, k, cs)
  {
    if cs != [] {
      CaughtEventsFrame(ps, qs, k, cs[1..]);
    }
  }

  /** `0`: a seeker catches every hider in its room; the game ends when no
      hider is left, and otherwise the room hears `beep`. A non-seeker's
      `0` does nothing. */
  function Capture(s: State, ch: ChannelId): (r: Outcome)
    requires Valid(s) && ch in s.participants
  {
    var p := s.participants[ch];
    if p.role != Seeker then Outcome(s, [])
    else
      var k := p.room.value;
      var sweep := Sweep(s, k, s.occupants[k]);
      ConsistentRooms(s, k);
      SweepCatchesTheHiders(s, k, s.occupants[k]);
      Outcome(sweep.state, [Notify(CatchAttempt(k, ch, p.id))] + sweep.effects + AfterCatch(sweep.state, k))
  }

  /** The occupants of a room are registered, and listed once. */
  lemma ConsistentRooms(s: State, k: RoomId)
    requires Consistent(s) && k in s.occupants
    ensures forall c | c in s.occupants[k] :: c in s.participants
    ensures Distinct(s.occupants[k])
  {
  }

  /** The bell after a catch: the end of the game when no hider is left,
      otherwise a `beep` in the seeker's room. */
  function AfterCatch(s: State, k: RoomId): (es: seq<Effect>)
    requires Consistent(s)
  {
    if s.hiders == 0 then [Notify(GameEnded)] + PlaySoundAll(s, Sound("beeperr"))
    else [PlayOnBridge(k, Sound("beep"))]
  }

  /** After a catch, `game_ended` is broadcast and `beeperr` sounds in
      exactly the occupied rooms when no hider is left; otherwise only the
      seeker's room hears `beep`. */
  lemma AfterCatchEvents(s: State, k: RoomId)
    requires Consistent(s)
    ensures Notified(AfterCatch(s, k)) == if s.hiders == 0 then [GameEnded] else []
    ensures s.hiders == 0 ==> forall j ::
      PlayOnBridge(j, Sound("beeperr")) in AfterCatch(s, k) <==> j in s.maze.rooms && s.occupants[j] != []
    ensures s.hiders != 0 ==> forall e | e in AfterCatch(s, k) :: e == PlayOnBridge(k, Sound("beep"))
    ensures s.hiders != 0 ==> PlayOnBridge(k, Sound("beep")) in AfterCatch(s, k)
  {
    if s.hiders == 0 {
      NotifiedConcat([Notify(GameEnded)], PlaySoundAll(s, Sound("beeperr")));
      assert Notified([Notify(GameEnded)]) == [GameEnded];
    } else {
      NotifiedNone([PlayOnBridge(k, Sound("beep"))]);
    }
  }

  /** A seeker's `0` turns exactly the hiders in its room into seekers,
      moves both counters by their number (so their sum is unchanged) and
      changes nothing else; anyone else's `0` does nothing at all. */
  lemma CaptureCatchesTheRoom(s: State, ch: ChannelId)
    requires Valid(s) && ch in s.participants
    ensures var r := Capture(s, ch); var p := s.participants[ch];
      && (p.role != Seeker ==> r == Outcome(s, []))
      && (p.role == Seeker ==>
            var k := p.room.value; var n := |Caught(s.participants, s.occupants[k])|;
            && r.state.hiders == s.hiders - n && r.state.seekers == s.seekers + n
            && r.state.occupants == s.occupants && r.state.registry == s.registry
            && (forall c :: c in r.state.participants <==> c in s.participants)
            && (forall c | c in s.participants ::
                  r.state.participants[c] == s.participants[c].(role := if c in s.occupants[k] && s.participants[c].role == Hider then Seeker else s.participants[c].role)))
      && Valid(r.state)
  {
    var p := s.participants[ch];
    if p.role == Seeker {
      var k := p.room.value;
      ConsistentRooms(s, k);
      SweepCatchesTheHiders(s, k, s.occupants[k]);
    }
  }

  /** What observers hear from a seeker's `0`: the attempt, one
      `hider_caught` per hider in the room, and `game_ended` exactly when
      no hider is left. */
  lemma CaptureEvents(s: State, ch: ChannelId)
    requires Valid(s) && ch in s.participants
    ensures var r := Capture(s, ch); var p := s.participants[ch];
      p.role == Seeker ==>
        var k := p.room.value;
        Notified(r.effects) == [CatchAttempt(k, ch, p.id)] + CaughtEvents(s.participants, k, Caught(s.participants, s.occupants[k]))
          + (if r.state.hiders == 0 then [GameEnded] else [])
  {
    var p := s.participants[ch];
    if p.role == Seeker {
      var k := p.room.value;
      ConsistentRooms(s, k);
      SweepCatchesTheHiders(s, k, s.occupants[k]);
      SweepEvents(s, k, s.occupants[k]);
      var sweep := Sweep(s, k, s.occupants[k]);
      var attempt := [Notify(CatchAttempt(k, ch, p.id))];
      var close := AfterCatch(sweep.state, k);
      AfterCatchEvents(sweep.state, k);
      NotifiedConcat(attempt, sweep.effects);
      NotifiedConcat(attempt + sweep.effects, close);
      assert Notified(attempt) == [CatchAttempt(k, ch, p.id)];
    }
  }

  /** An observer hearing of a catch sees the caught as seekers. */
  lemma CaptureKeepsObservers(s: State, ch: ChannelId)
    requires Valid(s) && ch in s.participants
    ensures SeeAll(ViewOf(s), Notified(Capture(s, ch).effects)) == ViewOf(Capture(s, ch).state)
  {
    var p := s.participants[ch];
    if p.role == Seeker {
      var k := p.room.value;
      ConsistentRooms(s, k);
      SweepCatchesTheHiders(s, k, s.occupants[k]);
      SweepKeepsObservers(s, k, s.occupants[k]);
      var sweep := Sweep(s, k, s.occupants[k]);
      var attempt := [Notify(CatchAttempt(k, ch, p.id))];
      var close := AfterCatch(sweep.state, k);
      assert SeeAll(ViewOf(s), Notified(attempt)) == ViewOf(s) by {
        assert Notified(attempt) == [CatchAttempt(k, ch, p.id)];
        SeeQuiet(ViewOf(s), [CatchAttempt(k, ch, p.id)]);
      }
      assert SeeAll(ViewOf(sweep.state), Notified(close)) == ViewOf(sweep.state) by {
        AfterCatchEvents(sweep.state, k);
        SeeQuiet(ViewOf(sweep.state), Notified(close));
      }
      HeardBetweenQuiet(ViewOf(s), ViewOf(sweep.state), attempt, sweep.effects, close);
    }
  }

  /** `onDtmfReceived` for the participant of channel `ch`, with the start
      key as it should be. */
  function OnDtmf(s: State, ch: ChannelId, digit: char): (r: Outcome)
    requires Valid(s) && ch in s.participants
  {
    if digit == '*' then Start(s, ch)
    else if DirectionOf(digit).Some? then Move(s, ch, digit, DirectionOf(digit).value)
    else if digit == '0' then Capture(s, ch)
    else Outcome(s, [])
  }

  /** `onDtmfReceived` as written, where a successful start falls through. */
  function OnDtmfAsWritten(s: State, ch: ChannelId, digit: char): (r: Outcome)
    requires Valid(s) && ch in s.participants
  {
    if digit == '*' then StartAsWritten(s, ch)
    else OnDtmf(s, ch, digit)
  }

  /** Every key keeps the bookkeeping and the observers' picture right;
      a key other than `*`, 2, 8, 4, 6 and 0 does nothing at all. */
  lemma OnDtmfKeeps(s: State, ch: ChannelId, digit: char)
    requires Valid(s) && ch in s.participants
    ensures var r := OnDtmf(s, ch, digit);
      && Valid(r.state)
      && SeeAll(ViewOf(s), Notified(r.effects)) == ViewOf(r.state)
      && (digit !in {'*', '2', '8', '4', '6', '0'} ==> r == Outcome(s, []))
  {
    if digit == '*' {
      StartKeeps(s, ch);
    } else if DirectionOf(digit).Some? {
      MoveKeeps(s, ch, digit, DirectionOf(digit).value);
    } else if digit == '0' {
      CaptureKeeps(s, ch);
    }
  }

  /** The keys as written keep the bookkeeping and the observers' picture
      right as well: the invalid move a successful start goes on to report
      moves nobody. */
  lemma OnDtmfAsWrittenKeeps(s: State, ch: ChannelId, digit: char)
    requires Valid(s) && ch in s.participants
    ensures var r := OnDtmfAsWritten(s, ch, digit);
      && Valid(r.state)
      && SeeAll(ViewOf(s), Notified(r.effects)) == ViewOf(r.state)
      && (digit !in {'*', '2', '8', '4', '6', '0'} ==> r == Outcome(s, []))
  {
    if digit == '*' {
      StartAsWrittenKeeps(s, ch);
    } else {
      OnDtmfKeeps(s, ch, digit);
    }
  }

  lemma StartAsWrittenKeeps(s: State, ch: ChannelId)
    requires Valid(s) && ch in s.participants
    ensures Valid(StartAsWritten(s, ch).state)
    ensures SeeAll(ViewOf(s), Notified(StartAsWritten(s, ch).effects)) == ViewOf(StartAsWritten(s, ch).state)
  {
    if s.participants[ch].role == Seeker && s.hiders > 0 {
      StartedAsWrittenKeeps(s, ch);
    } else {
      assert StartAsWritten(s, ch) == Start(s, ch);
      StartKeeps(s, ch);
    }
  }

  /** A successful start as written changes only the seeker's queue, and
      what it broadcasts moves nobody. */
  lemma StartedAsWrittenKeeps(s: State, ch: ChannelId)
    requires Valid(s) && ch in s.participants
    requires s.participants[ch].role == Seeker && s.hiders > 0
    ensures Valid(StartAsWritten(s, ch).state)
    ensures SeeAll(ViewOf(s), Notified(StartAsWritten(s, ch).effects)) == ViewOf(StartAsWritten(s, ch).state)
  {
    var p := s.participants[ch];
    StartedAsWrittenIsBlocked(s, ch);
    BlockedChangesNoRoom(s, ch, '*');
    StartAsWrittenReportsInvalidMove(s, ch);
    QuietStart(ViewOf(s), p.room.value, ch, p.id);
  }

  /** The state a successful start as written leaves is the state of a
      blocked move. */
  lemma StartedAsWrittenIsBlocked(s: State, ch: ChannelId)
    requires Valid(s) && ch in s.participants
    requires s.participants[ch].role == Seeker && s.hiders > 0
    ensures StartAsWritten(s, ch).state == Blocked(s, ch, '*').state
  {
  }

  /** The start and the invalid move change nobody's picture. */
  lemma QuietStart(v: View, k: RoomId, ch: ChannelId, id: int)
    ensures SeeAll(v, [GameStarted, InvalidRoomMove(k, ch, id, '*')]) == v
  {
    SeeQuiet(v, [GameStarted, InvalidRoomMove(k, ch, id, '*')]);
  }

  lemma StartKeeps(s: State, ch: ChannelId)
    requires Valid(s) && ch in s.participants
    ensures Valid(Start(s, ch).state)
    ensures SeeAll(ViewOf(s), Notified(Start(s, ch).effects)) == ViewOf(Start(s, ch).state)
  {
    StartAnnouncesOnlyWithHiders(s, ch);
    SeeQuiet(ViewOf(s), Notified(Start(s, ch).effects));
  }

  lemma MoveKeeps(s: State, ch: ChannelId, digit: char, d: Direction)
    requires Valid(s) && ch in s.participants
    ensures Valid(Move(s, ch, digit, d).state)
    ensures SeeAll(ViewOf(s), Notified(Move(s, ch, digit, d).effects)) == ViewOf(Move(s, ch, digit, d).state)
  {
    MoveGoesThroughTheDoor(s, ch, digit, d);
    MoveIsHeard(s, ch, digit, d);
  }

  lemma CaptureKeeps(s: State, ch: ChannelId)
    requires Valid(s) && ch in s.participants
    ensures Valid(Capture(s, ch).state)
    ensures SeeAll(ViewOf(s), Notified(Capture(s, ch).effects)) == ViewOf(Capture(s, ch).state)
  {
    CaptureCatchesTheRoom(s, ch);
    CaptureKeepsObservers(s, ch);
  }
}
