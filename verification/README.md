# Hide and seek, modelled in Dafny

A model of the game logic of `client.js`, a hide-and-seek game played over the
telephone. Callers enter a fixed maze of 25 numbered rooms as hiders or
seekers. They move between rooms with the keypad (2 up, 8 down, 4 left,
6 right). A seeker starts the game with `*` and catches every hider in its
room with `0`. Observers on a websocket are told of every change and rebuild
the game's picture from those messages.

The model is a set of pure step functions over one immutable `State`:

- the maze (`Maze`: rooms by number, each with up to four neighbours);
- each room's occupant list;
- the participant array (`registry`, kept in order) and the participants by channel;
- the two role counters, the next participant number, and the observers.

Every step returns the new state together with the effects it asks of the
outside world, in order. An effect is a broadcast event (`Notify`), a prompt
played on a channel or in a room's bridge, a channel added to a bridge, or an
event sent to one observer.

Modules, following the structure of the source:

- `JsArray`: `indexOf` and `splice(i, 1)` with JavaScript's semantics, including `indexOf` answering -1.
- `RoomGraph`: `horizontal_link`, `vertical_link` and the maze `generate_rooms` builds.
- `Playback`: the per-caller prompt queue of `play_sound` as an idle/playing machine.
- `GameState`: the state, its invariants, and the observers' picture (`ViewOf`, `See`).
- `Transitions`: `play_sound`, `play_sound_all` and `joinRoom`.
- `Keypad`: `onDtmfReceived`.
- `Lifecycle`: `onStasisStart`, `onStasisEnd`, the end of a prompt, and `onObserverConnect`.
- `Game`: all inputs as one machine, and runs of inputs from the empty game, for `*` as written and as corrected.

The state invariant `Valid` says four things:

- The maze is well formed.
- The registry lists each participant once, with distinct numbers below the next one.
- A participant is in a room's occupant list exactly when its `room` is that room.
- The counters equal the tallies of hiders and seekers in the registry, and every participant is in a room.

`Consistent` is the same invariant without the clause that every participant
is in a room. It holds in the
middle of `joinRoom`, while the caller is between rooms.

## Model

| member | source | states |
|---|---|---|
| JsArray.IndexOf | client.js:211 | `indexOf` gives the first position holding the element, and -1 exactly when it is absent |
| JsArray.Splice1 | client.js:212 | `splice(i, 1)` with `i` inside the array removes one element and keeps the multiset of the rest; with `i == -1` it removes the last element; past the end it removes nothing |
| JsArray.RemovePresent | client.js:211-212 | removing a present element deletes its first occurrence, keeps the order of the rest, and takes exactly one copy out of the multiset |
| JsArray.RemoveAbsentDropsLast | client.js:352-353 | the removal idiom on an absent element drops the array's last element |
| JsArray.RemoveDistinct | client.js:211-212 | in an array without repeats, removal leaves exactly the other elements, still without repeats |
| RoomGraph.AddRoom | client.js:109-110 | a new room has no neighbours; it is appended to the creation order; no other room changes |
| RoomGraph.HorizontalLink | client.js:85-88 | `horizontal_link(a, b)` sets `a.right == b` and `b.left == a` and changes no other side of any room |
| RoomGraph.VerticalLink | client.js:90-93 | `vertical_link(a, b)` sets `a.down == b` and `b.up == a` and changes no other side of any room |
| RoomGraph.HorizontalLinkKeepsSymmetry | client.js:85-88 | linking two distinct rooms whose facing sides are free keeps every link two-way |
| RoomGraph.VerticalLinkKeepsSymmetry | client.js:90-93 | the same for vertical links |
| RoomGraph.CreateRooms | client.js:109-185 | creating the rooms gives each listed number one room with no neighbours, in creation order |
| RoomGraph.LinkAcross | client.js:85-88 | horizontal links never change a room's up or down side, and neither add nor remove rooms |
| RoomGraph.LinkAlong | client.js:90-93 | vertical links never change a room's left or right side, and neither add nor remove rooms |
| RoomGraph.LinkAcrossMakesExactlyTheCalls | client.js:115-187 | a run of horizontal links that never links one side twice leaves `a.right == b` exactly when `(a, b)` was among the calls, whatever their order |
| RoomGraph.LinkAlongMakesExactlyTheCalls | client.js:131-190 | the same for vertical links |
| RoomGraph.GeneratedLinks | client.js:106-193 | the generated maze has exactly the rooms 1 to 25, listed in the order the source creates them (14 before 8); a room has a neighbour on a side exactly when a link call put it there |
| RoomGraph.GenerateRoomsIsDrawing | client.js:95-193 | the generated maze is the maze drawn in the comment above `generate_rooms` |
| RoomGraph.GeneratedMazeIsSymmetric | client.js:106-193 | the generated maze is well formed and every neighbour link in it goes both ways |
| Playback.Enqueue | client.js:36-37 | `play_sound` appends the prompt to the tail; it starts playing exactly when the queue's length becomes 1 |
| Playback.Finish | client.js:39-55 | the end of a playback drops the head; the new head starts exactly when there is one; an empty queue stays empty |
| Playback.RunIsFifo | client.js:36-69 | after any signals, the completed prompts followed by the queue are the pushed prompts in order, and the prompts started are the completed ones plus at most the head |
| Playback.ThreePromptsPlayInTurn | client.js:327-331 | three prompts pushed back to back start one at a time, each when the previous one finishes |
| GameState.Init | client.js:200-206 | the game starts valid, on the generated maze, with no participant, no observer, both counters at 0, and participant numbers starting at 1 |
| GameState.CountForget | client.js:342-353 | forgetting a registered participant lowers exactly its own role's tally, by one |
| GameState.QueuesDoNotMatter | client.js:36-69 | a change to prompt queues alone keeps the invariant and the observers' picture |
| Transitions.PlaySound | client.js:36-69 | `play_sound` changes only the caller's queue, appending the prompt, and plays it at once exactly when the queue was empty |
| Transitions.ThreePromptsQueued | client.js:327-331 | three prompts for an idle caller are queued in order; only the first plays at once |
| Transitions.BridgePlays | client.js:71-77 | `play_sound_all` plays the prompt in a room exactly when the room is listed and has occupants |
| Transitions.BridgePlaysOnce | client.js:71-77 | no room is played in twice, and nothing is broadcast |
| Transitions.PlaySoundAll | client.js:71-77 | `play_sound_all` over every room of the maze plays the prompt exactly in the occupied rooms, once each, and broadcasts nothing |
| Transitions.Place | client.js:218-229 | entering a room puts the caller there, appends the room number to its queue, and broadcasts exactly one `join_room` |
| Transitions.PlaceSounds | client.js:222-225 | entering a room adds the caller to that room's bridge, first playing `confbridge-join` there exactly when the caller is a seeker; no other bridge is touched |
| Transitions.Leave | client.js:209-217 | leaving a room leaves the caller in no room |
| Transitions.LeaveSounds | client.js:213-215 | `confbridge-leave` is played in the room left exactly when the caller was in a room and is a seeker; nothing else is played |
| Transitions.JoinRoom | client.js:208-230 | `joinRoom(r, p)` leaves `p` in room `r`, or in no room when `r` is null |
| Transitions.RemovalsFindTheirTarget | client.js:352-353 | the participant leaving the game is always in the participant array, and one leaving a room is always in its occupant list, so `indexOf` never answers -1 there and the quirk of `RemoveAbsentDropsLast` never occurs |
| Transitions.LeaveKeeps | client.js:209-217 | leaving a room keeps the invariant, takes the caller out of its room, and changes no other room, participant or counter |
| Transitions.PlaceKeeps | client.js:218-229 | entering a room keeps the invariant, appends the caller to that room's occupants, and changes no other room, participant or counter |
| Transitions.JoinRoomKeeps | client.js:208-230 | after `joinRoom(r, p)`: `p.room == r`; `p` is in a room's occupants exactly when that room is `r`; rooms other than the old room and `r` are unchanged; the invariant holds |
| Transitions.JoinRoomValid | client.js:208-230 | moving a caller of a valid state into a room of the maze keeps the state valid |
| Transitions.LeaveEvents | client.js:209-217 | leaving broadcasts `leave_room` exactly when the caller was in a room |
| Transitions.JoinRoomEvents | client.js:208-230 | `joinRoom` broadcasts `leave_room` only if the caller was in a room, then `join_room` only if the target exists |
| Transitions.JoinRoomKeepsObservers | client.js:208-230 | an observer with the picture before `joinRoom` who hears its broadcasts has the picture after it |
| Keypad.BlockedChangesNoRoom | client.js:305-310 | a move with no room behind it changes only the presser's queue, which gains `oops1`, and broadcasts exactly one `invalid_room_move` carrying the key |
| Keypad.MoveGoesThroughTheDoor | client.js:250-265 | a move key takes the presser to the neighbouring room when there is one; otherwise no room changes; the counters never change and validity is kept |
| Keypad.MoveIsHeard | client.js:305-312 | a move broadcasts the leave and the join, or the invalid move, and observers' pictures follow |
| Keypad.StartAnnouncesOnlyWithHiders | client.js:238-249 | `*` broadcasts `game_started` exactly when a seeker presses it while there are hiders, and then beeps in every occupied room and changes nothing; otherwise the presser's queue gains `beeperr` and nothing is broadcast |
| Keypad.StartAsWrittenReportsInvalidMove | client.js:238-310 | as written, a successful `*` first does all the corrected start does, `game_started` and a `beep` in exactly the occupied rooms, then also broadcasts an `invalid_room_move` in direction `*` and queues `oops1` for the seeker |
| Keypad.StartAsWrittenBeginsAsStart | client.js:238-249 | as written, a successful `*` first does all the corrected start does, so `beep` sounds in exactly the occupied rooms (client.js:249) |
| Keypad.StartAsWrittenFailsAsStart | client.js:238-249 | the code as written and the corrected code give the same outcome exactly when `*` fails, that is, when the presser is a hider or no hider is left; they differ only on a successful start |
| Keypad.StartedIsHeard | client.js:246-249 | a successful start broadcasts `game_started` and nothing else |
| Keypad.SweepConverts | client.js:277-286 | the catch turns exactly the hiders in the room into seekers; `hiders` drops and `seekers` rises by their number; nothing else changes |
| Keypad.SweepKeeps | client.js:277-286 | the catch keeps the invariant |
| Keypad.SweepCatchesTheHiders | client.js:277-286 | the catch keeps the invariant and turns exactly the listed hiders into seekers, moving the counters by their number |
| Keypad.SweepEvents | client.js:285 | one `hider_caught` is broadcast per caught hider, in occupant order |
| Keypad.CaughtAreTheHiders | client.js:277-280 | the caught are exactly the hiders among the room's occupants |
| Keypad.ConvertKeeps | client.js:282-284 | turning one hider into a seeker keeps the invariant |
| Keypad.AfterCatchEvents | client.js:290-297 | after a catch, `game_ended` is broadcast exactly when no hider is left; then `beeperr` sounds in exactly the occupied rooms; otherwise the seeker's room alone hears `beep` |
| Keypad.CaptureCatchesTheRoom | client.js:266-297 | `0` from a non-seeker does nothing; from a seeker it converts the room's hiders, keeps the sum of the counters, and keeps validity |
| Keypad.CaptureEvents | client.js:275-297 | a seeker's `0` broadcasts `catch_attempt`, one `hider_caught` per hider caught, then `game_ended` exactly when no hider is left |
| Keypad.CaptureKeepsObservers | client.js:266-297 | an observer's picture follows a catch |
| Keypad.OnDtmfKeeps | client.js:232-313 | with the corrected `*`, every key keeps validity and the observers' picture; a key other than `*`, 2, 8, 4, 6 and 0 changes nothing and broadcasts nothing |
| Keypad.OnDtmfAsWrittenKeeps | client.js:232-313 | the same for the keys exactly as written: with the fall-through after a successful `*`, every key still keeps validity and the observers' picture, and any other key changes nothing |
| Keypad.StartedAsWrittenKeeps | client.js:238-310 | a successful `*` as written keeps validity, and its `game_started` and `invalid_room_move` move nobody in any observer's picture |
| Lifecycle.RoleOf | client.js:318 | the role is seeker or hider exactly when the argument says so; any other argument is kept as given |
| Lifecycle.Greet | client.js:321-331 | entry registers and counts the caller, queues greeting, number and `conf-enteringno` with only the greeting playing, and broadcasts `join_game` with the role in the id field |
| Lifecycle.GreetKeeps | client.js:318-331 | the greeted caller keeps the invariant, while not yet in a room |
| Lifecycle.OnEnterRegisters | client.js:315-333 | entry appends the caller to the registry with the next number, in its start room, and raises exactly its own role's counter |
| Lifecycle.OnEnterPlaces | client.js:332 | the entering caller is in its start room and in no other, and no other room changes |
| Lifecycle.OnEnterKeeps | client.js:315-333 | entry keeps validity |
| Lifecycle.OnEnterEvents | client.js:327-332 | entry broadcasts `join_game`, then `join_room` with the caller's number; the first prompt starts at once |
| Lifecycle.OnEnterKeepsObservers | client.js:315-333 | an observer's picture follows an entry |
| Lifecycle.Ending | client.js:355-359 | `game_ended` is broadcast exactly when no hider or no seeker is left, and then the beep sounds in exactly the occupied rooms |
| Lifecycle.OnExitUnregisters | client.js:336-353 | exit removes the caller from the registry and from every room, lowers exactly its own role's counter, changes no other room, and keeps validity |
| Lifecycle.OnExitEvents | client.js:336-359 | exit broadcasts `leave_room`, `leave_game`, then `game_ended` exactly when a counter is 0 |
| Lifecycle.OnExitKeepsObservers | client.js:336-359 | an observer's picture follows an exit |
| Lifecycle.OnPlaybackFinished | client.js:39-55 | the end of a prompt changes only that caller's queue and broadcasts nothing; an unknown channel changes nothing |
| Lifecycle.PlaybackFinishedAdvances | client.js:39-55 | the queue loses its head, the new head (if any) starts and nothing else does; validity and pictures are kept |
| Lifecycle.Replay | client.js:370-373 | the replay has two events per registered participant |
| Lifecycle.OnObserverConnect | client.js:362-374 | connecting changes nothing but the list of observers, which gains the new one; from what it is sent alone, the new observer has the game's picture; no other observer is sent anything and nothing is broadcast |
| Lifecycle.SentSendAll | client.js:370-373 | the new observer receives exactly the replay; others receive nothing; nothing is broadcast |
| Lifecycle.ReplayView | client.js:370-373 | the replay builds, from an empty picture, the picture of the participants it lists |
| Lifecycle.ReplayAt | client.js:370-373 | the `i`th participant's replay is `join_game` then `join_room` with its role and current room, and no number |
| Lifecycle.ObserverConnectReplays | client.js:368-373 | a new observer is sent one `join_game` and one `join_room` per participant, in registry order; nobody else is sent anything |
| Lifecycle.ObserverConnectRebuildsView | client.js:362-374 | from the replay alone a new observer has the game's picture |
| Game.Keys | client.js:232-313 | a key press, with `*` handled as written or corrected, keeps validity and carries the observers' picture |
| Game.Handle | client.js:392-397 | every input the backend can deliver keeps the state valid, with `*` as written or corrected |
| Game.HandleKeepsObservers | client.js:79-83 | an observer with the picture before any step who hears the step's broadcasts has the picture after it, whichever handling of `*` the machine runs |
| Game.Step | client.js:392-397 | a step keeps validity, and an input the backend cannot deliver changes nothing, for the program as written and as corrected |
| Game.Run | client.js:392-397 | any run of inputs from a valid state ends valid, for the program as written and as corrected |
| Game.RunKeepsObservers | client.js:79-83 | over any run, the broadcasts carry an observer's picture from the first state to the last, for the program as written and as corrected |
| Game.FirstObserverFollows | client.js:79-83 | an observer present from the start has, after any run, the picture of the state the run ends in, for the program as written and as corrected |
| Game.LateObserverCatchesUp | client.js:362-374 | an observer that connects at any point is sent a replay that, with the later broadcasts, gives it the picture of the state the session ends in, for the program as written and as corrected |

## Left out

- Playing media and adding channels to bridges become effects the steps return, in order. Nothing is modelled of what the backend does with them.
- Answering a channel (client.js:316) and creating each room's bridge (client.js:20-21): these calls are dropped. A room's bridge is named by the room's number, and a channel by its id.
- The websocket and HTTP servers, and `onObserverDisconnect` (client.js:376-381): these are transport plumbing. Observers are only remembered in a list.
- JSON serialisation and `console.log`: events are a datatype with the fields each message carries.
- `get_random_room` (client.js:195-198): the start room is a parameter of `OnEnter`, required to be a room of the maze.
- Promise continuations (`.then`, `PlaybackFinished` handlers): the end of a prompt is an explicit input, `OnPlaybackFinished`. For a channel that is no longer a participant, the source's closure acts on a detached object; the model changes nothing.
- A key press or an exit for a channel that is not a participant. For `*`, 2, 8, 4, 6 and 0, and for an exit, the source reads fields of `undefined` (client.js:239, 253-265, 268, 342). For any other key it only logs (client.js:300-303). The key and exit steps require the participant to exist, and `Game.Step` ignores all such inputs. For other keys the two agree, since the source changes nothing either.
- An entry on a channel already in the game: the backend gives each call a fresh channel id, so `OnEnter` requires one.
- `generate_rooms` creates rooms and links them in interleaved groups. The model creates all rooms first, then makes the horizontal links, then the vertical ones, each in the source's order. `LinkAcrossMakesExactlyTheCalls` and `LinkAlongMakesExactlyTheCalls` show that the order of the links does not change the result.
- `onStasisEnd` lowers the counter before `joinRoom(null)`. The model lowers it afterwards. `joinRoom` does not read the counters, so the result is the same.
- The game has no "started" state in the code: `game_started` changes nothing but what observers hear. The model follows the code.
- `Lifecycle.OnExitEvents`: states that the beep sounds in every occupied room when the game ends, but not the converse. The converse is in `Lifecycle.Ending`.
- `Playback.ThreePromptsPlayInTurn`: an example with three prompts. The general order property is `Playback.RunIsFifo`.

## Findings

| source | as written | input that shows it | evidently intended | confidence | as-written member | corrected member |
|---|---|---|---|---|---|---|
| client.js:238-249 | a successful `*` has no `return`, so it continues to the check at 305-310 with no room chosen; it queues `oops1` for the seeker and broadcasts `invalid_room_move` with direction `*` after `game_started` | a seeker presses `*` while `hiders > 0` | return after announcing the start and beeping | not executed | Keypad.StartAsWrittenReportsInvalidMove | Keypad.StartAnnouncesOnlyWithHiders |

`Keypad.OnDtmf` is the dispatcher with the corrected `Keypad.Start`, and
`Keypad.OnDtmfAsWritten` is the dispatcher as written. The whole game
(`Game.Handle`, `Game.Step`, `Game.Run`) takes the handling of `*` as a
parameter, `Game.StartKey`. Every property in `Game` is proved for both:
the program as written (`FallsThrough`) and as evidently intended (`Returns`).
