# Group game server: a Dafny model of its session registry

The server (`server.js`) coordinates small multiplayer sessions over
socket.io. A client sends `join-group` to either create a new group or join an
existing one. It is acknowledged with its player id, the group id and the
group's state document. After that it sends `state`, which is merged into the
group's state and relayed to the other members, or `transcient`, which is only
relayed. When the client's socket disconnects, a `player left` event goes out.
The client's player entry is deleted, and so is its group when it was the
last member.

The model keeps the server's process-wide state in one object,
`Server.Registry`. Its fields are:

- `players`: socket to player;
- `groups`: group id to group;
- `nextPlayerId`: the player-id counter;
- `rooms`: the transport's room membership, per socket.

`Server.Group` has a constant id and a mutable state document.
`Server.Player` has a constant socket, group and id. The four socket event
handlers are methods on the registry. They change its fields and return what
the server would emit.

Each method states its whole new state, and everything it does keeps the
registry invariant `Valid()`. The invariant says:

- the counter is in range;
- every group is stored under its own id;
- every player is stored under its own socket, with an id the counter issued
  (so never 0), and its group is live;
- every player's socket has joined its group's room.

Modelling choices:

- **JavaScript values.** `JsValue.Value` stands for the dynamically typed
  values involved: group ids, state documents and payloads. It comes with
  JavaScript truthiness and with the own enumerable properties that
  `Object.assign` copies. For an object those are its fields. For an array or
  a string they are the elements under the keys "0", "1", and so on.
- **Assertions.** A failing `assert` in the server throws; the model turns it
  into a failure outcome (`Threw`, `JoinThrew`), named by `Server.Failure`.
  Every change the handler made before the throw is kept.
- **Acknowledgements.** `serverError(message)` is the `ServerError` reply.
  The successful acknowledgement is `Joined`.
- **Random draws.** `Math.random` is replaced by a sequence of candidate
  group ids that the caller supplies. It holds at least ten entries, each in
  0..1000000.
- **Broadcasts.** A broadcast is returned as a value: channel, the set of
  recipient sockets, and the payload.
- **Disconnect.** When a socket disconnects, the transport removes it from
  every room. The disconnect handler models this removal as its last step.

Behaviour of the code a reader may not expect:

- Every joiner's state is merged into the group's state, not only the first
  joiner's. So a later `{turn: 99}` overwrites an earlier `{turn: 1}`
  (`Scenario.LaterJoinerMergesState`).
- A group id of 0 is falsy, so it asks for a new group.
- A partial state that is not an object is not refused. A string or an array
  merges its index keys, and any other falsy or primitive value changes
  nothing.
- The sender's id is carried in the payload as `player_id`.
- A second join on a socket that already has a player does not detach it from
  its group. The Player constructor throws instead, but only after three side
  effects:
  - the socket has joined the new room;
  - the counter has stepped;
  - the state has been merged.

  If the join asked for a new group, that group stays registered with no
  members (`Server.Registry.OnJoinGroup`'s new-group postcondition,
  `Scenario.DuplicateCreateLeavesEmptyGroup`).

The module `Scenario` traces short sessions through the handlers' contracts
alone, starting from a fresh registry:

- create a group;
- join it from a second socket;
- a state update reaching the other member;
- a second join on a registered socket, which leaves an empty group behind;
- the last member leaving, which deletes the group.

## Model

| member | source | states |
|---|---|---|
| JsValue.NatToStringShape | server.js:194-196 | the decimal spelling of a group id is never empty; it is one digit exactly below ten; it has no sign; it starts with '0' only for zero |
| JsValue.NatToStringInjective | server.js:194-196 | different natural numbers have different decimal spellings |
| JsValue.IntToStringInjective | server.js:194-196 | different integers have different spellings, so `'room' + id` tells group ids apart |
| JsValue.Truthy | server.js:22 | definition of JavaScript truthiness, used by the `if (group_id)` and `if (state)` tests (line 181 too); FalsyValues states which values are falsy |
| JsValue.FalsyValues | server.js:181 | the falsy values are exactly undefined, null, false, 0 and the empty string |
| JsValue.IntToString | server.js:195 | definition of the decimal spelling `'room' + id` and the error message at line 31 use; its facts are in NatToStringShape and IntToStringInjective |
| JsValue.OwnProps | server.js:182 | definition of what `Object.assign` copies: an object's fields, and an array's or a string's elements under their index keys; its facts are in IndexedProps and MergeString |
| JsValue.IndexedProps | server.js:182 | an array-like value of n elements owns n distinct keys: no two indices share a key, every index key maps to its element and no other key is present |
| JsValue.IndexMapSnoc | server.js:182 | adding the next element under its index key keeps the keys distinct, since that key is not yet present |
| StateMerge.Merge | server.js:180-184 | a falsy partial leaves the state as it was; otherwise the new keys are the union of both key sets, every key the partial owns takes the partial's value, and every other key keeps its old value |
| StateMerge.MergeIdempotent | server.js:180-184 | merging the same partial twice gives what merging it once gave |
| StateMerge.MergeLastWriteWins | server.js:180-184 | of two successive merges that write one key, the later value is the one kept |
| StateMerge.MergeExampleLastWriteWins | server.js:180-184 | after merging {a: 1} and then {a: 2}, a is 2 |
| StateMerge.MergeCompose | server.js:180-184 | two successive object merges equal one merge of the two objects combined, the later winning |
| StateMerge.MergeString | server.js:180-184 | a non-empty string is truthy and merges each character under its index key |
| Ids.NextPlayerIdAfter | server.js:94-104 | the result stays in 1..MAX_SAFE_INTEGER-1; it is the counter plus one, except that reaching MAX_SAFE_INTEGER resets it to 1; it exceeds the old counter exactly when no reset happens |
| Ids.CounterAfter | server.js:94-104 | any number of calls keeps the counter in 1..MAX_SAFE_INTEGER-1 |
| Ids.IssuedIdsCountUp | server.js:94-104 | from a fresh counter the k-th id issued is k+1, so the first id is 2, until the counter wraps |
| Ids.IssuedIdsDistinct | server.js:94-104 | ids issued before the counter wraps strictly increase and are therefore distinct |
| Ids.IssuedIdsWrap | server.js:98-101 | the call after the one that returned MAX_SAFE_INTEGER-1 resets the counter to 1, so a later id can repeat an earlier one |
| Ids.FirstUnused | server.js:159-169 | there is no result exactly when every candidate is taken; a result is not taken, and it is the candidate at the first index whose predecessors are all taken |
| Ids.FirstUnusedAt | server.js:162-166 | the candidate at the first free index is the one chosen |
| Ids.AllocatorExhausted | server.js:161-168 | when every id in 0..1000000 is live, no draw is free and allocation fails |
| Server.RoomName | server.js:194-196 | definition of `'room' + id`; RoomNameInjective states that it tells ids apart |
| Server.Group.Room | server.js:194-196 | definition of `room()` as the room name of the group's id; GroupsHaveDistinctRooms states that live groups' rooms differ |
| Server.RoomNameInjective | server.js:194-196 | groups with different ids have different room names |
| Server.Group.constructor | server.js:171-178 | a new group has the given id and an empty state |
| Server.Group.MergeState | server.js:180-184 | the group's state becomes the merge of its old state with the argument |
| Server.Player.constructor | server.js:106-112 | a new player records its socket, its group and its id |
| Server.Registry.constructor | server.js:78-79 | the process starts with no players, no groups, no room membership and the counter at 1, and the invariant holds |
| Server.Registry.RoomMembers | server.js:141 | the audience of a group's room includes every registered player of that group, when the invariant holds |
| Server.Registry.GetPlayerId | server.js:94-104 | returns and stores the next counter value, and keeps the invariant |
| Server.Registry.UnusedGroupId | server.js:159-169 | returns the first candidate among the first ten that is not a live group id; that id lies in 0..1000000; fails exactly when all ten are taken |
| Server.Registry.NewGroup | server.js:171-178 | on success registers a fresh group with empty state under the first free candidate and adds nothing else; fails exactly when allocation fails, changing nothing |
| Server.Registry.Members | server.js:198-202 | the members of a group are exactly the registered players whose group it is; there are none exactly when no registered player belongs to it |
| Server.Registry.NewPlayer | server.js:106-120 | the socket always joins the group's room and the counter always steps; it throws exactly when the socket already has a player, leaving players unchanged; otherwise it registers one fresh player with that socket, group and the new id |
| Server.Registry.DeletePlayer | server.js:145-156 | throws exactly when the player's socket has no entry, changing nothing; otherwise removes that entry and removes the group exactly when it has no members left; the invariant is kept |
| Server.Registry.GetPlayerUnchecked | server.js:205-207 | returns the socket's player exactly when there is one; under the invariant its group is live |
| Server.Registry.GetPlayer | server.js:208-214 | fails with "player not found" when the socket has no player, and with "no id" when the player's id is falsy; otherwise returns the registered player |
| Server.Registry.GetGroup | server.js:216-218 | returns the group stored under the id exactly when there is one; under the invariant it carries that id |
| Server.Registry.BroadcastToGroup | server.js:134-142 | the event goes exactly to the sockets in the sender's group room other than the sender; the payload is the data (or an empty object) with `player_id` set to the sender's id |
| Server.Registry.BroadcastReachesGroup | server.js:134-142 | every other registered member of the sender's group is a recipient |
| Server.Registry.GroupsHaveDistinctRooms | server.js:194-196 | two different live groups have different rooms |
| Server.Registry.JoinFoundGroup | server.js:35-45 | merges the caller's state into the group, creates the player and, when that did not throw, tells the rest of the room and acknowledges with the new player id, the group id and the merged state |
| Server.Registry.JoinExistingGroup | server.js:22-33 | an unknown id resolves with "Could not join group <id>" and changes nothing; a known id joins that group, and no other group's state changes |
| Server.Registry.JoinNewGroup | server.js:25-38 | when no candidate is free it throws and changes nothing; otherwise it registers a fresh group with empty state under the first free candidate and joins it |
| Server.Registry.OnJoinGroup | server.js:20-46 | a truthy non-number id throws, an unknown id resolves with a server error, and exhausted allocation throws, each changing nothing; otherwise the merge, the room join, the counter step and any new group happen. A socket that already has a player then throws; a new socket is registered, the room hears "player joined" and the caller gets its ids and the merged state |
| Server.Registry.OnDisconnect | server.js:48-54 | a registered socket's room hears "player left" with its id, its entry is deleted, and its group is deleted exactly when no player remains in it; an unregistered socket changes no entry; the socket leaves every room and the counter stays |
| Server.Registry.OnState | server.js:56-63 | an unknown sender throws with nothing changed; a registered sender never throws, since its id is never 0; otherwise only the sender's group merges the data, and the rest of its room receives `{state, player_id}` |
| Server.Registry.OnTranscient | server.js:65-70 | an unknown sender throws; a registered sender never throws; otherwise the rest of its room receives `{transcient, player_id}`, and nothing changes |
| Scenario.StartGroup | server.js:20-46 | on a fresh registry the first join, with all draws 7, creates group 7 with the caller's state, issues player id 2 and tells nobody |
| Scenario.JoinSecond | server.js:20-46 | a second socket joining group 7 becomes player 3, the merged state is returned, both sockets are in room 7 and only the first hears the join |

## Left out

- HTTP serving, static files and `listen` are outside the session registry.
- Socket.io delivery is outside the model. A broadcast is returned as data, not delivered.
- `console.log` output is not modelled, and neither are the texts of the thrown errors. The errors are named by `Failure`.
- `Math.random` is replaced by candidate ids supplied by the caller.
- Numbers are integers only. Fractions, NaN and the exponent notation `String` uses from 1e21 up are not modelled. A truthy non-integer group id would find no group, as in the server.
- The `__proto__` key, which `Object.assign` treats specially, is not modelled.
- Array and object keys are not ordered.
- Calling a `resolve` that is not a function is not modelled.
- Crashing the process on an uncaught throw is not modelled. The failure outcome is where the model stops.
- Server.Registry.BroadcastToGroup: its data is an optional object, since every caller passes either nothing or an object literal. The `typeof data == "object"` assertion therefore always holds and is not modelled.
- Strings are sequences of Unicode scalar values, not UTF-16 code units. A state string with characters outside the Basic Multilingual Plane therefore merges fewer index keys than the server, which copies one key per code unit.
- Server.Registry.NewPlayer: the Player constructor's assertions that a socket and a Group were passed always hold at its one call site, so they are not modelled.
- Server.Registry.GetPlayer: the "player has a group" assertion always holds, because a Player is always built with a group.
- Sharing of state objects by reference is not modelled. The acknowledgement carries the group's state document as a value.
- The browser client under `public/` is not part of this model.
