/** The game as one machine: the inputs the backend and the observers'
    websocket deliver, one step per input, and runs of steps from the
    empty game. The random choice of a caller's first room is part of the
    `Enter` input. */
module Game {
  import opened RoomGraph
  import opened GameState
  import opened Keypad
  import opened Lifecycle

  /** How a successful `*` ends: as the code is written, going on to
      report an invalid move in direction `*`, or returning after the start
      as evidently intended. Every property below holds for both. */
  datatype StartKey = FallsThrough | Returns

  /** What can happen to the game. */
  datatype Input =
    | Dtmf(channel: ChannelId, digit: char)
    | Enter(channel: ChannelId, arg: string, start: RoomId)
    | Exit(channel: ChannelId)
    | PlaybackFinished(channel: ChannelId)
    | ObserverConnect(observer: ObserverId)

  /** The inputs the backend can deliver in state `s`: keys and hang-ups
      come from channels in the game, a channel enters once, into a room
      of the maze. */
  predicate Admissible(s: State, input: Input) {
    match input
    case Dtmf(ch, _) => ch in s.participants
    case Enter(ch, _, start) => ch !in s.participants && start in s.maze.rooms
    case Exit(ch) => ch in s.participants
    case PlaybackFinished(_) => true
    case ObserverConnect(_) => true
  }

  /** One step of the game; `key` says how a successful `*` ends. */
  function Handle(s: State, input: Input, key: StartKey): (r: Outcome)
    requires Valid(s) && Admissible(s, input)
    ensures Valid(r.state)
  {
    match input
    case Dtmf(ch, digit) =>
      Keys(s, ch, digit, key)
    case Enter(ch, arg, start) =>
      OnEnterKeeps(s, ch, arg, start);
      OnEnter(s, ch, arg, start)
    case Exit(ch) =>
      OnExitUnregisters(s, ch);
      OnExit(s, ch)
    case PlaybackFinished(ch) =>
      QueuesDoNotMatter(s, OnPlaybackFinished(s, ch).state);
      OnPlaybackFinished(s, ch)
    case ObserverConnect(o) =>
      ObserverConnectRebuildsView(s, o);
      OnObserverConnect(s, o)
  }

  /** `onDtmfReceived`, as written or corrected. */
  function Keys(s: State, ch: ChannelId, digit: char, key: StartKey): (r: Outcome)
    requires Valid(s) && ch in s.participants
    ensures Valid(r.state)
    ensures SeeAll(ViewOf(s), Notified(r.effects)) == ViewOf(r.state)
  {
    if key.FallsThrough? then
      OnDtmfAsWrittenKeeps(s, ch, digit);
      OnDtmfAsWritten(s, ch, digit)
    else
      OnDtmfKeeps(s, ch, digit);
      OnDtmf(s, ch, digit)
  }

  /** Every step tells the observers exactly what changed in their
      picture: one who had the picture of `s` and hears the step's
      broadcasts has the picture of the state after it. */
  lemma HandleKeepsObservers(s: State, input: Input, key: StartKey)
    requires Valid(s) && Admissible(s, input)
    ensures SeeAll(ViewOf(s), Notified(Handle(s, input, key).effects)) == ViewOf(Handle(s, input, key).state)
  {
    match input
    case Dtmf(ch, digit) =>
    case Enter(ch, arg, start) =>
      OnEnterKeepsObservers(s, ch, arg, start);
    case Exit(ch) =>
      OnExitKeepsObservers(s, ch);
    case PlaybackFinished(ch) =>
      QueuesDoNotMatter(s, OnPlaybackFinished(s, ch).state);
    case ObserverConnect(o) =>
      ObserverConnectReplays(s, o, o + 1);
      ObserverConnectRebuildsView(s, o);
  }

  /** A step, where an input the backend cannot deliver changes nothing. */
  function Step(s: State, input: Input, key: StartKey): (r: Outcome)
    requires Valid(s)
    ensures Valid(r.state)
    ensures !Admissible(s, input) ==> r == Outcome(s, [])
  {
    if Admissible(s, input) then Handle(s, input, key) else Outcome(s, [])
  }

  /** The state after some inputs, and every event broadcast on the way. */
  datatype History = History(state: State, heard: seq<Event>)

  /** Feed `inputs` to the game in state `s`, in order. */
  function Run(s: State, inputs: seq<Input>, key: StartKey): (h: History)
    requires Valid(s)
    ensures Valid(h.state)
    decreases inputs
  {
    if inputs == [] then History(s, [])
    else
      var r := Step(s, inputs[0], key);
      var rest := Run(r.state, inputs[1..], key);
      History(rest.state, Notified(r.effects) + rest.heard)
  }

  /** An observer that had the picture of `s` and hears every broadcast
      of a run has the picture of the state the run ends in. */
  lemma {:induction false} RunKeepsObservers(s: State, inputs: seq<Input>, key: StartKey)
    requires Valid(s)
    ensures SeeAll(ViewOf(s), Run(s, inputs, key).heard) == ViewOf(Run(s, inputs, key).state)
    decreases inputs
  {
    if inputs != [] {
      var r := Step(s, inputs[0], key);
      var rest := Run(r.state, inputs[1..], key);
      assert SeeAll(ViewOf(s), Notified(r.effects)) == ViewOf(r.state) by {
        if Admissible(s, inputs[0]) {
          HandleKeepsObservers(s, inputs[0], key);
        }
      }
      RunKeepsObservers(r.state, inputs[1..], key);
      SeeAllConcat(ViewOf(s), Notified(r.effects), rest.heard);
    }
  }

  /** An observer connected from the game's start rebuilds, from the
      broadcasts alone, the picture of the state the session is in. */
  lemma FirstObserverFollows(inputs: seq<Input>, key: StartKey)
    ensures SeeAll(map[], Run(Init(), inputs, key).heard) == ViewOf(Run(Init(), inputs, key).state)
  {
    FromNoOne(Init(), inputs, key);
  }

  /** From a valid state with no participant, the broadcasts alone give
      the picture. */
  lemma FromNoOne(s: State, inputs: seq<Input>, key: StartKey)
    requires Valid(s) && s.participants == map[]
    ensures SeeAll(map[], Run(s, inputs, key).heard) == ViewOf(Run(s, inputs, key).state)
  {
    assert ViewOf(s) == map[];
    RunKeepsObservers(s, inputs, key);
  }

  /** An observer that connects at any point of a session is sent a
      replay that, followed by every later broadcast, gives it the picture
      of the state the session ends in; its connecting broadcasts nothing. */
  lemma LateObserverCatchesUp(before: seq<Input>, o: ObserverId, after: seq<Input>, key: StartKey)
    ensures var mid := Run(Init(), before, key).state; var c := Step(mid, ObserverConnect(o), key);
      var end := Run(c.state, after, key);
      && c == OnObserverConnect(mid, o)
      && Notified(c.effects) == []
      && SeeAll(SeeAll(map[], Sent(c.effects, o)), end.heard) == ViewOf(end.state)
  {
    ConnectThenRun(Run(Init(), before, key).state, o, after, key);
  }

  /** Connecting in a valid state, then running on. */
  lemma ConnectThenRun(mid: State, o: ObserverId, after: seq<Input>, key: StartKey)
    requires Valid(mid)
    ensures var c := Step(mid, ObserverConnect(o), key); var end := Run(c.state, after, key);
      && c == OnObserverConnect(mid, o)
      && Notified(c.effects) == []
      && SeeAll(SeeAll(map[], Sent(c.effects, o)), end.heard) == ViewOf(end.state)
  {
    var c := OnObserverConnect(mid, o);
    ObserverConnectReplays(mid, o, o + 1);
    ObserverConnectRebuildsView(mid, o);
    RunKeepsObservers(c.state, after, key);
  }
}
