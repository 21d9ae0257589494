/** The maze: a fixed set of numbered rooms, each with up to four
    neighbours, built once at start-up by linking rooms in pairs. */
module RoomGraph {
  import opened Wrappers
  import opened JsArray

  type RoomId = int

  /** A room of the maze: its number and its neighbours, referred to by
      number. (A room's occupant list and audio bridge live in the game
      state; the maze itself never changes once it is built.) */
  datatype Room = Room(id: RoomId, left: Option<RoomId>, right: Option<RoomId>,
                       up: Option<RoomId>, down: Option<RoomId>)

  datatype Direction = Up | Down | Left | Right

  function Neighbor(r: Room, d: Direction): Option<RoomId> {
    match d
    case Up => r.up
    case Down => r.down
    case Left => r.left
    case Right => r.right
  }

  function Opposite(d: Direction): Direction {
    match d
    case Up => Down
    case Down => Up
    case Left => Right
    case Right => Left
  }

  /** The `rooms` array: room numbers in creation order, and each room by
      its number. */
  datatype Maze = Maze(order: seq<RoomId>, rooms: map<RoomId, Room>)

  /** Every room is listed once in creation order, carries its own number,
      and every neighbour is a room of the maze. */
  ghost predicate WellFormed(m: Maze) {
    && Distinct(m.order)
    && (forall k :: k in m.rooms <==> k in m.order)
    && (forall k | k in m.rooms :: m.rooms[k].id == k)
    && (forall k, d | k in m.rooms && Neighbor(m.rooms[k], d).Some? :: Neighbor(m.rooms[k], d).value in m.rooms)
  }

  /** Room `a` is the way back from each of its neighbours. */
  ghost predicate LinksBack(m: Maze, a: RoomId)
    requires a in m.rooms
  {
    forall d | Neighbor(m.rooms[a], d).Some? ::
      var b := Neighbor(m.rooms[a], d).value;
      b in m.rooms && Neighbor(m.rooms[b], Opposite(d)) == Some(a)
  }

  /** Links go both ways: if B is A's neighbour in direction D, then A is
      B's neighbour in the opposite direction. */
  ghost predicate Symmetric(m: Maze) {
    forall a | a in m.rooms :: LinksBack(m, a)
  }

  /** `new room(ari, id)` pushed onto the array: a room with no neighbours. */
  function AddRoom(m: Maze, id: RoomId): (r: Maze)
    requires id !in m.rooms
    ensures r.order == m.order + [id]
    ensures forall k :: k in r.rooms <==> k in m.rooms || k == id
    ensures r.rooms[id] == Room(id, None, None, None, None)
    ensures forall k | k in m.rooms :: r.rooms[k] == m.rooms[k]
  {
    Maze(m.order + [id], m.rooms[id := Room(id, None, None, None, None)])
  }

  /** `horizontal_link(left_room, right_room)`: the right side of the one
      and the left side of the other now point at each other; nothing else
      changes. */
  function HorizontalLink(m: Maze, leftId: RoomId, rightId: RoomId): (r: Maze)
    requires leftId in m.rooms && rightId in m.rooms
    ensures r.order == m.order && r.rooms.Keys == m.rooms.Keys
    ensures r.rooms[leftId].right == Some(rightId)
    ensures r.rooms[rightId].left == Some(leftId)
    ensures forall k | k in m.rooms ::
      && r.rooms[k].id == m.rooms[k].id
      && r.rooms[k].up == m.rooms[k].up
      && r.rooms[k].down == m.rooms[k].down
      && (k != leftId ==> r.rooms[k].right == m.rooms[k].right)
      && (k != rightId ==> r.rooms[k].left == m.rooms[k].left)
  {
    var rooms := m.rooms[leftId := m.rooms[leftId].(right := Some(rightId))];
    Maze(m.order, rooms[rightId := rooms[rightId].(left := Some(leftId))])
  }

  /** `vertical_link(up_room, down_room)`: the lower side of the one and the
      upper side of the other now point at each other; nothing else
      changes. */
  function VerticalLink(m: Maze, upId: RoomId, downId: RoomId): (r: Maze)
    requires upId in m.rooms && downId in m.rooms
    ensures r.order == m.order && r.rooms.Keys == m.rooms.Keys
    ensures r.rooms[upId].down == Some(downId)
    ensures r.rooms[downId].up == Some(upId)
    ensures forall k | k in m.rooms ::
      && r.rooms[k].id == m.rooms[k].id
      && r.rooms[k].left == m.rooms[k].left
      && r.rooms[k].right == m.rooms[k].right
      && (k != upId ==> r.rooms[k].down == m.rooms[k].down)
      && (k != downId ==> r.rooms[k].up == m.rooms[k].up)
  {
    var rooms := m.rooms[upId := m.rooms[upId].(down := Some(downId))];
    Maze(m.order, rooms[downId := rooms[downId].(up := Some(upId))])
  }

  /** Linking two distinct rooms whose facing sides are still free keeps a
      symmetric maze symmetric. */
  lemma HorizontalLinkKeepsSymmetry(m: Maze, leftId: RoomId, rightId: RoomId)
    requires Symmetric(m)
    requires leftId in m.rooms && rightId in m.rooms && leftId != rightId
    requires m.rooms[leftId].right == None && m.rooms[rightId].left == None
    ensures Symmetric(HorizontalLink(m, leftId, rightId))
  {
    var r := HorizontalLink(m, leftId, rightId);
    forall a | a in r.rooms
      ensures LinksBack(r, a)
    {
      forall d | Neighbor(r.rooms[a], d).Some?
        ensures Neighbor(r.rooms[a], d).value in r.rooms
        ensures Neighbor(r.rooms[Neighbor(r.rooms[a], d).value], Opposite(d)) == Some(a)
      {
        var b := Neighbor(r.rooms[a], d).value;
        if !(a == leftId && d == Right) && !(a == rightId && d == Left) {
          assert Neighbor(r.rooms[a], d) == Neighbor(m.rooms[a], d);
          assert LinksBack(m, a);
          assert b != leftId || Opposite(d) != Right;
          assert b != rightId || Opposite(d) != Left;
        }
      }
    }
  }

  lemma VerticalLinkKeepsSymmetry(m: Maze, upId: RoomId, downId: RoomId)
    requires Symmetric(m)
    requires upId in m.rooms && downId in m.rooms && upId != downId
    requires m.rooms[upId].down == None && m.rooms[downId].up == None
    ensures Symmetric(VerticalLink(m, upId, downId))
  {
    var r := VerticalLink(m, upId, downId);
    forall a | a in r.rooms
      ensures LinksBack(r, a)
    {
      forall d | Neighbor(r.rooms[a], d).Some?
        ensures Neighbor(r.rooms[a], d).value in r.rooms
        ensures Neighbor(r.rooms[Neighbor(r.rooms[a], d).value], Opposite(d)) == Some(a)
      {
        var b := Neighbor(r.rooms[a], d).value;
        if !(a == upId && d == Down) && !(a == downId && d == Up) {
          assert Neighbor(r.rooms[a], d) == Neighbor(m.rooms[a], d);
          assert LinksBack(m, a);
          assert b != upId || Opposite(d) != Down;
          assert b != downId || Opposite(d) != Up;
        }
      }
    }
  }

  // ---------------------------------------------------------------------
  // generate_rooms

  /** The rooms `generate_rooms` creates, in the order it pushes them. */
  const CreationOrder: seq<RoomId> := [1, 2, 3, 4, 5, 6, 7, 14, 8, 9, 10, 11, 12, 13, 15, 16, 17, 18, 19, 20, 21, 22, 23, 24, 25]

  /** Its `horizontal_link(left, right)` calls, in order. */
  const AcrossCalls: seq<(RoomId, RoomId)> := [(1, 2), (2, 3), (4, 5), (5, 6), (6, 7), (8, 9), (10, 11), (11, 12), (12, 13), (15, 16), (16, 17), (17, 18), (18, 19), (20, 21), (23, 24)]

  /** Its `vertical_link(up, down)` calls, in order. */
  const AlongCalls: seq<(RoomId, RoomId)> := [(2, 4), (3, 5), (4, 9), (6, 10), (7, 11), (14, 13), (8, 15), (10, 18), (11, 19), (13, 21), (16, 22), (18, 23), (21, 25)]

  /** `calls` include a link from room `a` to room `b`. */
  predicate Called(calls: seq<(RoomId, RoomId)>, a: RoomId, b: RoomId) {
    (a, b) in calls
  }

  /** Every call links two rooms of `m`. */
  ghost predicate CallsWithin(m: Maze, calls: seq<(RoomId, RoomId)>) {
    forall i | 0 <= i < |calls| :: calls[i].0 in m.rooms && calls[i].1 in m.rooms
  }

  /** No side is asked to point at two different rooms. */
  ghost predicate Functional(calls: seq<(RoomId, RoomId)>) {
    forall i, j | 0 <= i < |calls| && 0 <= j < |calls| ::
      && (calls[i].0 == calls[j].0 ==> calls[i].1 == calls[j].1)
      && (calls[i].1 == calls[j].1 ==> calls[i].0 == calls[j].0)
  }

  /** Fresh rooms `ids`, pushed in order. */
  function CreateRooms(ids: seq<RoomId>): (m: Maze)
    requires Distinct(ids)
    ensures m.order == ids
    ensures forall k :: k in m.rooms <==> k in ids
    ensures forall k | k in m.rooms :: m.rooms[k] == Room(k, None, None, None, None)
  {
    if ids == [] then Maze([], map[])
    else
      var prefix := ids[..|ids| - 1];
      assert ids == prefix + [ids[|ids| - 1]];
      AddRoom(CreateRooms(prefix), ids[|ids| - 1])
  }

  /** `horizontal_link` applied to each call in turn. */
  function LinkAcross(m: Maze, calls: seq<(RoomId, RoomId)>): (r: Maze)
    requires CallsWithin(m, calls)
    ensures r.order == m.order && r.rooms.Keys == m.rooms.Keys
    ensures forall k | k in m.rooms ::
      r.rooms[k].id == m.rooms[k].id && r.rooms[k].up == m.rooms[k].up && r.rooms[k].down == m.rooms[k].down
  {
    if calls == [] then m
    else
      var last := calls[|calls| - 1];
      var r := LinkAcross(m, calls[..|calls| - 1]);
      HorizontalLink(r, last.0, last.1)
  }

  /** `vertical_link` applied to each call in turn. */
  function LinkAlong(m: Maze, calls: seq<(RoomId, RoomId)>): (r: Maze)
    requires CallsWithin(m, calls)
    ensures r.order == m.order && r.rooms.Keys == m.rooms.Keys
    ensures forall k | k in m.rooms ::
      r.rooms[k].id == m.rooms[k].id && r.rooms[k].left == m.rooms[k].left && r.rooms[k].right == m.rooms[k].right
  {
    if calls == [] then m
    else
      var last := calls[|calls| - 1];
      var r := LinkAlong(m, calls[..|calls| - 1]);
      VerticalLink(r, last.0, last.1)
  }

  /** A prefix of a functional list of calls is functional. */
  lemma FunctionalPrefix(calls: seq<(RoomId, RoomId)>)
    requires Functional(calls) && calls != []
    ensures Functional(calls[..|calls| - 1])
  {
    var prefix := calls[..|calls| - 1];
    forall i, j | 0 <= i < |prefix| && 0 <= j < |prefix|
      ensures (prefix[i].0 == prefix[j].0 ==> prefix[i].1 == prefix[j].1)
      ensures (prefix[i].1 == prefix[j].1 ==> prefix[i].0 == prefix[j].0)
    {
      assert prefix[i] == calls[i] && prefix[j] == calls[j];
    }
  }

  /** In a functional list the last call is the only one naming its
      endpoints, so it decides their links. */
  lemma LastCallDecides(calls: seq<(RoomId, RoomId)>, a: RoomId, b: RoomId)
    requires Functional(calls) && calls != []
    ensures Called(calls, a, b) <==> Called(calls[..|calls| - 1], a, b) || calls[|calls| - 1] == (a, b)
    ensures Called(calls, a, b) && a == calls[|calls| - 1].0 ==> b == calls[|calls| - 1].1
    ensures Called(calls, a, b) && b == calls[|calls| - 1].1 ==> a == calls[|calls| - 1].0
  {
    var n := |calls| - 1;
    assert calls == calls[..n] + [calls[n]];
    if Called(calls, a, b) {
      var i :| 0 <= i < |calls| && calls[i] == (a, b);
      assert calls[i].0 == calls[n].0 ==> calls[i].1 == calls[n].1;
      assert calls[i].1 == calls[n].1 ==> calls[i].0 == calls[n].0;
    }
  }

  /** Starting from rooms with free sides, a functional list of horizontal
      links produces exactly the links it names, whatever their order. */
  lemma {:induction false} LinkAcrossMakesExactlyTheCalls(m: Maze, calls: seq<(RoomId, RoomId)>)
    requires CallsWithin(m, calls) && Functional(calls)
    requires forall k | k in m.rooms :: m.rooms[k].left == None && m.rooms[k].right == None
    ensures forall a, b | a in m.rooms :: LinkAcross(m, calls).rooms[a].right == Some(b) <==> Called(calls, a, b)
    ensures forall a, b | b in m.rooms :: LinkAcross(m, calls).rooms[b].left == Some(a) <==> Called(calls, a, b)
  {
    if calls != [] {
      var n := |calls| - 1;
      var prefix := calls[..n];
      var last := calls[n];
      FunctionalPrefix(calls);
      LinkAcrossMakesExactlyTheCalls(m, prefix);
      var r := LinkAcross(m, prefix);
      assert LinkAcross(m, calls) == HorizontalLink(r, last.0, last.1);
      forall a, b | a in m.rooms
        ensures LinkAcross(m, calls).rooms[a].right == Some(b) <==> Called(calls, a, b)
      {
        LastCallDecides(calls, a, b);
      }
      forall a, b | b in m.rooms
        ensures LinkAcross(m, calls).rooms[b].left == Some(a) <==> Called(calls, a, b)
      {
        LastCallDecides(calls, a, b);
      }
    }
  }

  /** The vertical counterpart of `LinkAcrossMakesExactlyTheCalls`. */
  lemma {:induction false} LinkAlongMakesExactlyTheCalls(m: Maze, calls: seq<(RoomId, RoomId)>)
    requires CallsWithin(m, calls) && Functional(calls)
    requires forall k | k in m.rooms :: m.rooms[k].up == None && m.rooms[k].down == None
    ensures forall a, b | a in m.rooms :: LinkAlong(m, calls).rooms[a].down == Some(b) <==> Called(calls, a, b)
    ensures forall a, b | b in m.rooms :: LinkAlong(m, calls).rooms[b].up == Some(a) <==> Called(calls, a, b)
  {
    if calls != [] {
      var n := |calls| - 1;
      var prefix := calls[..n];
      var last := calls[n];
      FunctionalPrefix(calls);
      LinkAlongMakesExactlyTheCalls(m, prefix);
      var r := LinkAlong(m, prefix);
      assert LinkAlong(m, calls) == VerticalLink(r, last.0, last.1);
      forall a, b | a in m.rooms
        ensures LinkAlong(m, calls).rooms[a].down == Some(b) <==> Called(calls, a, b)
      {
        LastCallDecides(calls, a, b);
      }
      forall a, b | b in m.rooms
        ensures LinkAlong(m, calls).rooms[b].up == Some(a) <==> Called(calls, a, b)
      {
        LastCallDecides(calls, a, b);
      }
    }
  }

  /** `generate_rooms`: create the rooms, then make the horizontal links,
      then the vertical ones, each group in the order the source makes
      them. */
  function GenerateRooms(): Maze {
    CreationOrderIsDistinct();
    CallsStayInTheMaze();
    var m := CreateRooms(CreationOrder);
    LinkAlong(LinkAcross(m, AcrossCalls), AlongCalls)
  }

  // ---------------------------------------------------------------------
  // The maze as drawn beside generate_rooms

  /** One row of the drawn maze; 0 stands for "no neighbour". */
  function Cell(id: RoomId, left: RoomId, right: RoomId, up: RoomId, down: RoomId): Room {
    Room(id, Link(left), Link(right), Link(up), Link(down))
  }

  function Link(id: RoomId): Option<RoomId> {
    if id == 0 then None else Some(id)
  }

  /** The maze as the comment beside `generate_rooms` draws it:
      <pre>
      1 - 2 - 3
          |   |
          4 - 5 - 6 - 7      14
          |       |   |       |
      8 - 9      10 -11 -12 -13
      |           |   |       |
      15-16 -17 -18 -19  20 -21
          |       |           |
         22      23 -24      25
      </pre>
      as (id, left, right, up, down). */
  function Drawn(k: RoomId): Room {
    match k
    case 1 => Cell(1, 0, 2, 0, 0)
    case 2 => Cell(2, 1, 3, 0, 4)
    case 3 => Cell(3, 2, 0, 0, 5)
    case 4 => Cell(4, 0, 5, 2, 9)
    case 5 => Cell(5, 4, 6, 3, 0)
    case 6 => Cell(6, 5, 7, 0, 10)
    case 7 => Cell(7, 6, 0, 0, 11)
    case 14 => Cell(14, 0, 0, 0, 13)
    case 8 => Cell(8, 0, 9, 0, 15)
    case 9 => Cell(9, 8, 0, 4, 0)
    case 10 => Cell(10, 0, 11, 6, 18)
    case 11 => Cell(11, 10, 12, 7, 19)
    case 12 => Cell(12, 11, 13, 0, 0)
    case 13 => Cell(13, 12, 0, 14, 21)
    case 15 => Cell(15, 0, 16, 8, 0)
    case 16 => Cell(16, 15, 17, 0, 22)
    case 17 => Cell(17, 16, 18, 0, 0)
    case 18 => Cell(18, 17, 19, 10, 23)
    case 19 => Cell(19, 18, 0, 11, 0)
    case 20 => Cell(20, 0, 21, 0, 0)
    case 21 => Cell(21, 20, 0, 13, 25)
    case 22 => Cell(22, 0, 0, 16, 0)
    case 23 => Cell(23, 0, 24, 18, 0)
    case 24 => Cell(24, 23, 0, 0, 0)
    case 25 => Cell(25, 0, 0, 21, 0)
    case _ => Cell(k, 0, 0, 0, 0)
  }

  function Drawing(): Maze {
    Maze(CreationOrder, map k | 1 <= k <= 25 :: Drawn(k))
  }

  lemma CreationOrderIsDistinct()
    ensures Distinct(CreationOrder)
    ensures forall k :: k in CreationOrder <==> 1 <= k <= 25
  {
  }

  /** Every call names rooms 1 to 25. */
  lemma CallsNameDrawnRooms()
    ensures forall i | 0 <= i < |AcrossCalls| :: 1 <= AcrossCalls[i].0 <= 25 && 1 <= AcrossCalls[i].1 <= 25
    ensures forall i | 0 <= i < |AlongCalls| :: 1 <= AlongCalls[i].0 <= 25 && 1 <= AlongCalls[i].1 <= 25
  {
  }

  lemma CallsStayInTheMaze()
    ensures Distinct(CreationOrder)
    ensures CallsWithin(CreateRooms(CreationOrder), AcrossCalls)
    ensures CallsWithin(LinkAcross(CreateRooms(CreationOrder), AcrossCalls), AlongCalls)
  {
    CreationOrderIsDistinct();
    CallsNameDrawnRooms();
  }

  /** No side of any room is linked twice to different rooms. */
  lemma CallsAreFunctional()
    ensures Functional(AcrossCalls) && Functional(AlongCalls)
  {
    CallsAreDrawn();
  }

  /** The generated maze holds rooms 1 to 25, created in the source's order. */
  lemma GeneratedRooms()
    ensures forall k :: k in GenerateRooms().rooms <==> 1 <= k <= 25
    ensures GenerateRooms().order == CreationOrder
  {
    CreationOrderIsDistinct();
    CallsStayInTheMaze();
    var m0 := CreateRooms(CreationOrder);
    var m1 := LinkAcross(m0, AcrossCalls);
    assert m1.rooms.Keys == m0.rooms.Keys;
  }

  /** What the two passes of links leave in each room. */
  lemma GeneratedLinks()
    ensures forall k :: k in GenerateRooms().rooms <==> 1 <= k <= 25
    ensures GenerateRooms().order == CreationOrder
    ensures forall k | k in GenerateRooms().rooms :: GenerateRooms().rooms[k].id == k
    ensures forall a, b | a in GenerateRooms().rooms :: GenerateRooms().rooms[a].right == Some(b) <==> Called(AcrossCalls, a, b)
    ensures forall a, b | b in GenerateRooms().rooms :: GenerateRooms().rooms[b].left == Some(a) <==> Called(AcrossCalls, a, b)
    ensures forall a, b | a in GenerateRooms().rooms :: GenerateRooms().rooms[a].down == Some(b) <==> Called(AlongCalls, a, b)
    ensures forall a, b | b in GenerateRooms().rooms :: GenerateRooms().rooms[b].up == Some(a) <==> Called(AlongCalls, a, b)
  {
    CreationOrderIsDistinct();
    CallsStayInTheMaze();
    CallsAreFunctional();
    var m0 := CreateRooms(CreationOrder);
    var m1 := LinkAcross(m0, AcrossCalls);
    LinkAcrossMakesExactlyTheCalls(m0, AcrossCalls);
    LinkAlongMakesExactlyTheCalls(m1, AlongCalls);
  }

  /** Room `r` is room `k` linked exactly as the calls say. */
  ghost predicate LinkedAsCalled(r: Room, k: RoomId, across: seq<(RoomId, RoomId)>, along: seq<(RoomId, RoomId)>) {
    && r.id == k
    && (forall b :: r.right == Some(b) <==> Called(across, k, b))
    && (forall a :: r.left == Some(a) <==> Called(across, a, k))
    && (forall b :: r.down == Some(b) <==> Called(along, k, b))
    && (forall a :: r.up == Some(a) <==> Called(along, a, k))
  }

  /** The calls determine the room. */
  lemma LinkedAsCalledIsUnique(r: Room, e: Room, k: RoomId, across: seq<(RoomId, RoomId)>, along: seq<(RoomId, RoomId)>)
    requires LinkedAsCalled(r, k, across, along) && LinkedAsCalled(e, k, across, along)
    ensures r == e
  {
    assert r.right == e.right by {
      if r.right.Some? {
        assert Called(across, k, r.right.value);
      }
      if e.right.Some? {
        assert Called(across, k, e.right.value);
      }
    }
    assert r.left == e.left by {
      if r.left.Some? {
        assert Called(across, r.left.value, k);
      }
      if e.left.Some? {
        assert Called(across, e.left.value, k);
      }
    }
    assert r.down == e.down by {
      if r.down.Some? {
        assert Called(along, k, r.down.value);
      }
      if e.down.Some? {
        assert Called(along, k, e.down.value);
      }
    }
    assert r.up == e.up by {
      if r.up.Some? {
        assert Called(along, r.up.value, k);
      }
      if e.up.Some? {
        assert Called(along, e.up.value, k);
      }
    }
  }

  /** Room `k` as generated is room `k` as drawn. */
  lemma GeneratedRoomIsDrawn(k: RoomId)
    requires 1 <= k <= 25
    ensures k in GenerateRooms().rooms && GenerateRooms().rooms[k] == Drawn(k)
  {
    GeneratedLinks();
    EveryDrawnRoomAsCalled(k);
    DrawnLinksBack(k);
    var r, e := GenerateRooms().rooms[k], Drawn(k);
    assert LinkedAsCalled(r, k, AcrossCalls, AlongCalls);
    assert LinkedAsCalled(e, k, AcrossCalls, AlongCalls);
    LinkedAsCalledIsUnique(r, e, k, AcrossCalls, AlongCalls);
  }

  /** The drawing holds rooms 1 to 25. */
  lemma DrawnRooms()
    ensures forall k :: k in Drawing().rooms <==> 1 <= k <= 25
  {
  }

  /** The links `generate_rooms` makes are exactly those of the drawing. */
  lemma GenerateRoomsIsDrawing()
    ensures GenerateRooms() == Drawing()
  {
    var g, d := GenerateRooms().rooms, Drawing().rooms;
    assert forall k :: k in g <==> 1 <= k <= 25 by {
      GeneratedRooms();
    }
    assert forall k :: k in d <==> 1 <= k <= 25 by {
      DrawnRooms();
    }
    forall k | 1 <= k <= 25
      ensures k in g && k in d && g[k] == d[k]
    {
      SameRoom(k);
    }
    SameKeysSameRooms(g, d);
    GeneratedRooms();
  }

  /** Two room maps over rooms 1 to 25 that agree on each room are equal. */
  lemma SameKeysSameRooms(g: map<RoomId, Room>, d: map<RoomId, Room>)
    requires forall k :: k in g <==> 1 <= k <= 25
    requires forall k :: k in d <==> 1 <= k <= 25
    requires forall k | 1 <= k <= 25 :: g[k] == d[k]
    ensures g == d
  {
  }

  /** Room `k` is the same in the generated maze and in the drawing. */
  lemma SameRoom(k: RoomId)
    requires 1 <= k <= 25
    ensures k in GenerateRooms().rooms && k in Drawing().rooms
    ensures GenerateRooms().rooms[k] == Drawing().rooms[k]
  {
    GeneratedRoomIsDrawn(k);
    DrawnRooms();
  }

  /** Each drawn room carries its own number and is the way back from each
      of its neighbours. */
  lemma DrawnLinksBack(a: RoomId)
    requires 1 <= a <= 25
    ensures Drawn(a).id == a
    ensures LinksBack(Drawing(), a)
  {
  }

  /** The drawn maze is well formed and all its links are symmetric. */
  lemma DrawingIsSymmetric()
    ensures WellFormed(Drawing()) && Symmetric(Drawing())
  {
    var m := Drawing();
    CreationOrderIsDistinct();
    forall a | a in m.rooms
      ensures LinksBack(m, a) && m.rooms[a].id == a
    {
      DrawnLinksBack(a);
    }
    forall k, d | k in m.rooms && Neighbor(m.rooms[k], d).Some?
      ensures Neighbor(m.rooms[k], d).value in m.rooms
    {
      assert LinksBack(m, k);
    }
  }

  /** `generate_rooms` builds a well-formed maze of rooms 1 to 25 in which
      every neighbour link is symmetric. */
  lemma GeneratedMazeIsSymmetric()
    ensures WellFormed(GenerateRooms()) && Symmetric(GenerateRooms())
    ensures forall k :: k in GenerateRooms().rooms <==> 1 <= k <= 25
  {
    GenerateRoomsIsDrawing();
    DrawingIsSymmetric();
  }

  /** Room `k` of the drawing has exactly the links the calls make. */
  ghost predicate DrawnAsCalled(k: RoomId) {
    && (forall b :: Drawn(k).right == Some(b) <==> Called(AcrossCalls, k, b))
    && (forall a :: Drawn(k).left == Some(a) <==> Called(AcrossCalls, a, k))
    && (forall b :: Drawn(k).down == Some(b) <==> Called(AlongCalls, k, b))
    && (forall a :: Drawn(k).up == Some(a) <==> Called(AlongCalls, a, k))
  }

  lemma EveryDrawnRoomAsCalled(k: RoomId)
    requires 1 <= k <= 25
    ensures DrawnAsCalled(k)
  {
    DrawnAcrossAsCalled(k);
    DrawnAlongAsCalled(k);
  }

  lemma DrawnAcrossAsCalled(k: RoomId)
    requires 1 <= k <= 25
    ensures forall b :: Drawn(k).right == Some(b) <==> Called(AcrossCalls, k, b)
    ensures forall a :: Drawn(k).left == Some(a) <==> Called(AcrossCalls, a, k)
  {
    AcrossCallsAreDrawn();
    DrawnLinksAreCalled(k);
    forall b | Called(AcrossCalls, k, b)
      ensures Drawn(k).right == Some(b)
    {
      var i :| 0 <= i < |AcrossCalls| && AcrossCalls[i] == (k, b);
    }
    forall a | Called(AcrossCalls, a, k)
      ensures Drawn(k).left == Some(a)
    {
      var i :| 0 <= i < |AcrossCalls| && AcrossCalls[i] == (a, k);
    }
  }

  lemma DrawnAlongAsCalled(k: RoomId)
    requires 1 <= k <= 25
    ensures forall b :: Drawn(k).down == Some(b) <==> Called(AlongCalls, k, b)
    ensures forall a :: Drawn(k).up == Some(a) <==> Called(AlongCalls, a, k)
  {
    AlongCallsAreDrawn();
    DrawnLinksAreCalled(k);
    forall b | Called(AlongCalls, k, b)
      ensures Drawn(k).down == Some(b)
    {
      var i :| 0 <= i < |AlongCalls| && AlongCalls[i] == (k, b);
    }
    forall a | Called(AlongCalls, a, k)
      ensures Drawn(k).up == Some(a)
    {
      var i :| 0 <= i < |AlongCalls| && AlongCalls[i] == (a, k);
    }
  }

  /** Every call links two rooms that the drawing shows linked. */
  lemma CallsAreDrawn()
    ensures forall i | 0 <= i < |AcrossCalls| ::
      Drawn(AcrossCalls[i].0).right == Some(AcrossCalls[i].1) && Drawn(AcrossCalls[i].1).left == Some(AcrossCalls[i].0)
    ensures forall i | 0 <= i < |AlongCalls| ::
      Drawn(AlongCalls[i].0).down == Some(AlongCalls[i].1) && Drawn(AlongCalls[i].1).up == Some(AlongCalls[i].0)
  {
    AcrossCallsAreDrawn();
    AlongCallsAreDrawn();
  }

  lemma AcrossCallsAreDrawn()
    ensures forall i | 0 <= i < |AcrossCalls| ::
      Drawn(AcrossCalls[i].0).right == Some(AcrossCalls[i].1) && Drawn(AcrossCalls[i].1).left == Some(AcrossCalls[i].0)
  {
  }

  lemma AlongCallsAreDrawn()
    ensures forall i | 0 <= i < |AlongCalls| ::
      Drawn(AlongCalls[i].0).down == Some(AlongCalls[i].1) && Drawn(AlongCalls[i].1).up == Some(AlongCalls[i].0)
  {
  }

  /** Every link the drawing shows is made by some call. */
  lemma DrawnLinksAreCalled(k: RoomId)
    requires 1 <= k <= 25
    ensures Drawn(k).right.Some? ==> Called(AcrossCalls, k, Drawn(k).right.value)
    ensures Drawn(k).left.Some? ==> Called(AcrossCalls, Drawn(k).left.value, k)
    ensures Drawn(k).down.Some? ==> Called(AlongCalls, k, Drawn(k).down.value)
    ensures Drawn(k).up.Some? ==> Called(AlongCalls, Drawn(k).up.value, k)
  {
  }
}
