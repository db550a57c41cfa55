# Alkkagi: the authoritative engine and the room state machine

This project models the two sequential cores of an authoritative server for
alkkagi, a two-player, turn-based stone-flicking game, and proves properties
of both models.

**engine.js, `AlkkagiEngine`.** The engine runs on a 360 x 640 rectangular
board. Its state is a list of pucks (id, team `cat` or `dog`, position,
velocity, radius, `out` flag) and the team to move.
- Module `Physics` (physics.dfy) gives that state and every step of the
  engine as values and pure functions: one tick (`Step`), the rest loop
  (`ToRest`), the observers and the starting layout.
- Module `Engine` (engine.dfy) holds the class `AlkkagiEngine`. Its fields
  `pucks` and `turn` are updated in place by loops that mirror the source.
  Each method is proved equal to the matching `Physics` function.

The properties proved are:
- elimination is one-way, and an out puck never moves again;
- "out implies zero velocity" holds and is preserved;
- every velocity component is snapped after integration;
- a collision conserves the summed position and the momentum of the pair, and the whole pair pass conserves the totals;
- a closing pair has its normal speed reversed when the normal is a unit vector;
- `computeToRest` always ends at rest within max(maxSteps, 0) ticks;
- a rejected impulse changes nothing;
- the alive counts add up;
- the snapshot round trip keeps ids, teams and out flags;
- the facts of the mirrored 5 + 5 layout.

**server.js, the room table.** Each room holds at most two players, an
optional game (stones on a circular board of radius 250 centred in a 500 x 500
canvas, the turn, and the seats) and whether a simulation interval runs.
- Module `Rooms` (rooms.dfy) gives the data, the lookups, the starting layout,
  one integration pass, the elimination filter and the settle rule, with
  their lemmas.
- Module `Server` (server.dfy) holds the class `GameServer`, whose field
  `rooms` is the `gameRooms` dictionary. These are its methods:
  - the socket handlers `createRoom`, `joinRoom`, `playerReady`, `shoot` and `disconnect`;
  - `startGame`;
  - the guard of `runSimulation`;
  - one run of the interval body.

  Every method keeps the invariant `Valid()`:
  - every room is filed under its own id;
  - a room holds one or two players;
  - a game exists only with two seats matching the players, the cat first;
  - the turn is 0 or 1;
  - stone ids ascend;
  - every stone's `isCat` agrees with its owner;
  - a simulation runs only on a game.

  Each method also states the whole new table.

Module `Reals` (reals.dfy) holds `Abs`, shared by both models; module `Options` (options.dfy) holds the optional value.

Things that cannot be seen from here are parameters:
- `Math.hypot` is a function `hypot: (real, real) -> real`;
- `toFixed(3)` is a function `round3`;
- the random room id is a `roomId` argument;
- the random first turn is a `coin` argument.

Where the code departs from the game's intended rules, the model follows the code:
- **A shot is checked against the turn and the stone id only.** Stone ownership is not checked. A shot is also accepted while a simulation already runs: the guard keeps a second interval from starting, but the stone's velocity is still overwritten.
- **No cats and no dogs at the same settle:** the dog seat wins, because the cat count is tested first.
- **Eliminated stones are removed.** On the server they are deleted from the list by the circle filter, where the engine only flags them `out`.
- **The server's interval has no tick ceiling.** Only the engine's `computeToRest` has one.
- **Readying again restarts the game.** A player may un-ready and ready again at any time. When both are ready again, `startGame` reinstalls the layout, even during a running game.
- **Creating a room on a taken id replaces that room.** The random id is assigned without checking whether a room already has it.

## Model

| member | source | states |
|---|---|---|
| `Engine.AlkkagiEngine.constructor` | engine.js:24-31 | A new engine holds the starting layout with `cat` to move. |
| `Engine.AlkkagiEngine.Reset` | engine.js:33-49 | The two push loops build exactly the ten-puck starting layout; the turn becomes `cat`. |
| `Physics.InitialLayoutFacts` | engine.js:33-49 | The layout has 10 pucks with ids C0..C4 (team cat) then D0..D4 (team dog), all distinct, five per team. All are in play, at rest, with radius 18. Dog puck i has cat puck i's x and the mirrored y = 640 - y. No other team appears and nothing moves. |
| `Physics.LayoutEntry` | engine.js:37-46 | Puck k of the layout has its id and team, is at rest and in play with radius 18, and for k < 5 the dog puck k + 5 mirrors it. |
| `Physics.LayoutIdsDistinct` | engine.js:37-46 | No two pucks of the layout share an id. |
| `Physics.LayoutTeamCounts` | engine.js:37-47 | The layout holds exactly five cat pucks and five dog pucks. |
| `Physics.AnyMoving` | engine.js:51-54 | True exactly when some puck in play has a velocity component of magnitude above 0.02. |
| `Engine.AlkkagiEngine.Update` | engine.js:56-93 | One tick equals `Step` of the old pucks. Ids, teams and radii are kept, out pucks stay out and unchanged, and "out implies still" is preserved. |
| `Physics.Step` | engine.js:56-93 | A tick keeps the roster and never brings a puck back into play. It leaves out pucks untouched and preserves "out implies zero velocity". |
| `Engine.AlkkagiEngine.IntegrateStep` | engine.js:58-69 | The first loop leaves every puck as `IntegratePuck` of its old value. |
| `Physics.IntegratePuck` | engine.js:59-68 | An out puck is skipped. A puck in play moves by v·dt. It becomes out exactly when the new position is outside the board widened by its radius, and then has zero velocity. Otherwise each velocity component is the old one times 0.992, or 0 exactly when that product is below 0.01 in magnitude. |
| `Physics.Snap` | engine.js:62-63 | A snapped component is the old one or 0, is 0 or at least 0.01 in magnitude, and is kept whenever it was at least 0.01. |
| `Physics.IntegrateAllKeeps` | engine.js:58-69 | The integration pass keeps ids, teams and radii, leaves out pucks unchanged, preserves "out implies still" and snaps every puck in play. |
| `Engine.AlkkagiEngine.CollideStep` | engine.js:71-92 | The nested pair loop leaves exactly `CollidePairs` from pair (0, 1). |
| `Engine.AlkkagiEngine.CollideRow` | engine.js:72-91 | The inner loop for puck i does the pairs (i, i+1) … (i, n-1) of `CollidePairs`. |
| `Engine.AlkkagiEngine.ResolvePairAt` | engine.js:73-90 | The in-place field updates of one pair give exactly `Resolve` of the pair, written back at i and j. |
| `Physics.Resolve` | engine.js:73-90 | A pair not both in play, or not at distance strictly between 0 and the radius sum, is untouched. A touching pair keeps ids, teams, radii and out flags, keeps the summed position and summed velocity, and gets the velocities of `Impulse` along the normal. |
| `Physics.Impulse` | engine.js:83-89 | The impulse keeps the summed velocity and changes nothing when the pair is not closing (sep >= 0). |
| `Physics.ImpulseReflects` | engine.js:83-89 | For a unit normal, a closing normal speed s becomes -s, a full elastic exchange along the normal. |
| `Physics.CollidePairs` | engine.js:71-92 | The pair pass keeps the roster and every out flag and leaves out pucks unchanged. |
| `Physics.CollideConserves` | engine.js:71-92 | The pair pass leaves the sum of all positions and the total momentum unchanged. |
| `Physics.ResolveAtConserves` | engine.js:78-89 | Resolving one pair in place keeps the sum of positions and the total momentum of the whole list. |
| `Engine.AlkkagiEngine.ApplyImpulseById` | engine.js:95-100 | It returns true exactly when some puck in play has the id. It then adds `vec` to the velocity of the first such puck and changes nothing else. On false nothing changes. Roster, out flags, "out implies still" and the turn are kept. |
| `Physics.FirstInPlay` | engine.js:96 | None exactly when no puck in play has the id. Otherwise the index of the first one. |
| `Engine.AlkkagiEngine.ComputeToRest` | engine.js:102-112 | It ends with nothing moving, after 0 ≤ steps ≤ max(maxSteps, 0) ticks. It equals `ToRest` of the old pucks, keeps the roster, only adds eliminations, preserves "out implies still" and keeps the turn. |
| `Physics.RunSteps` | engine.js:103-107 | The loop counts up from `steps`. It stops below the ceiling only at rest, and pucks still move at the end only if the ceiling was reached. |
| `Physics.ToRest` | engine.js:102-112 | The loop followed by the forced zeroing always ends at rest, within max(maxSteps, 0) ticks. |
| `Physics.RunStepsKeeps` | engine.js:104-107 | Repeated ticks keep the roster, leave out pucks unchanged and preserve "out implies still". |
| `Physics.ToRestKeeps` | engine.js:102-112 | `computeToRest` keeps the roster, never un-eliminates a puck and preserves "out implies still". |
| `Engine.AlkkagiEngine.ZeroVelocities` | engine.js:108-110 | The zeroing loop sets every velocity to (0, 0) and changes nothing else. |
| `Physics.ZeroAllRests` | engine.js:108-110 | After zeroing nothing moves, "out implies still" holds, and the roster and out flags are kept. |
| `Physics.CountAlive` | engine.js:115-116 | The count of pucks of one team in play is at most the number of pucks. |
| `Physics.GetAliveCounts` | engine.js:114-118 | When every puck is cat or dog, the cat count plus the dog count is the number of pucks in play, so at most the number of pucks. |
| `Physics.AliveCountsCover` | engine.js:114-118 | When every puck is cat or dog, the cat count plus the dog count is the number of pucks in play. |
| `Physics.TakeSnapshot` | engine.js:120-130 | The snapshot has one entry per puck, and its turn is `nextTurn` when given and the current turn otherwise. |
| `Physics.Restore` | engine.js:133-137 | One rebuilt puck per snapshot entry. |
| `Physics.SnapshotRoundTrip` | engine.js:120-140 | Restoring a snapshot gives back the ids, teams and out flags in order, the rounded positions, radius 18 and zero velocities. Nothing moves, and "out implies still" holds. |
| `Engine.AlkkagiEngine.ApplySnapshot` | engine.js:132-140 | The pucks become the snapshot's pucks rebuilt at rest and the turn becomes the snapshot's. Nothing moves and "out implies still" holds. |
| `Server.GameServer.constructor` | server.js:21 | The room table starts empty and valid. |
| `Server.GameServer.CreateRoom` | server.js:171-182 | It files, under the given id, a room holding only the sender, not ready, with no game and no simulation. The invariant is kept. |
| `Server.GameServer.JoinRoom` | server.js:184-193 | A missing room gives NoSuchRoom and a room with two players gives RoomFull, both with nothing changed. Otherwise the sender is appended, not ready, and the answer is Joined. No room ever exceeds two players. |
| `Server.GameServer.PlayerReady` | server.js:195-208 | With no room or no matching player nothing changes. Otherwise only the first matching player's ready flag flips. The game starts, with the fresh layout, exactly when the room then has two players who are all ready. |
| `Rooms.Toggle` | server.js:198-200 | Only player k's ready flag changes, and every id stays. |
| `Rooms.ToggleKeepsGame` | server.js:198-206 | A ready toggle keeps a running game's seats valid. |
| `Rooms.FirstIndex` | server.js:215 | `findIndex`: -1 exactly when no element satisfies the test. Otherwise the index of the first one that does. The player lookups by socket id and the seat lookups by side are instances. |
| `Server.GameServer.StartGame` | server.js:28-59 | Without exactly two players nothing changes. Otherwise the stone loop installs `NewGame`: the ten-stone layout, seats (player 0 cat, player 1 dog) and turn 1 or 0 by the coin. The invariant is kept. |
| `Rooms.InitialStonesFacts` | server.js:44-59 | The start has ten stones with ids 0..9 in ascending order. Owners alternate 0, 1. `isCat` holds exactly for owner 0 and the radius is 25. All stones are at rest and strictly inside the board, five cats and five dogs. |
| `Rooms.LayoutOnBoard` | server.js:46-58 | Every starting stone lies strictly inside the circle. |
| `Rooms.NewGameOk` | server.js:35-59 | The installed game satisfies the room invariant when the first turn is 0 or 1. |
| `Server.GameServer.RunSimulation` | server.js:70-74 | An interval starts exactly when the room exists and none is running, so a room never has two loops. Otherwise nothing changes. |
| `Server.GameServer.Shoot` | server.js:211-225 | It is accepted exactly when the room exists, the sender's player index equals the turn and some stone has the id. Then that first stone's velocity becomes the force and the simulation flag is set. Otherwise nothing changes. Ownership is not checked. |
| `Rooms.StoneIndex` | server.js:218 | None exactly when no stone has the id. Otherwise the index of the first one. |
| `Server.GameServer.Tick` | server.js:75-158 | Stones drift, stones off the circle are dropped, and a moving board keeps running. When it settles, the result is `Outcome`: a win deletes the room, and otherwise the turn flips and the simulation stops. The invariant is kept. |
| `Rooms.DriftStones` | server.js:76-89 | The forEach loop leaves every stone as `Drift` of its old value. `isMoving` is true exactly when some stone still has a nonzero velocity component. |
| `Rooms.Drift` | server.js:80-87 | The stone moves by its old velocity and keeps id, owner, side and radius. Each new velocity component is the old one times 0.985, or 0 exactly when that product is below 0.05 in magnitude. |
| `Rooms.StopSlow` | server.js:86-87 | A stopped component is the old one or 0, is 0 or at least 0.05 in magnitude, and is kept when it was at least 0.05. |
| `Rooms.DriftAtRest` | server.js:79-89 | A stone at rest does not change. |
| `Rooms.DriftAllAtRest` | server.js:79-89 | When nothing moves, another pass changes nothing. |
| `Rooms.KeepOnBoard` | server.js:128-131 | A stone is kept exactly when it was present and lies strictly inside the circle. |
| `Rooms.KeepOnBoardOrdered` | server.js:128-131 | The kept stones are a subsequence of the input: their order is kept. |
| `Rooms.KeepOnBoardAscending` | server.js:128-131 | Filtering keeps stone ids ascending. |
| `Rooms.TickKeepsGame` | server.js:75-131 | Drift and filter keep a game well formed, with its seats and turn. |
| `Rooms.CountCats` | server.js:142 | The cat count is at most the number of stones. |
| `Rooms.CountDogs` | server.js:143 | The dog count is at most the number of stones. |
| `Rooms.CountsCover` | server.js:142-143 | The cat count plus the dog count is the number of stones. |
| `Rooms.NoCatsMeansAllDogs` | server.js:142-146 | The cat count is 0 exactly when every remaining stone is a dog. |
| `Rooms.NoDogsMeansAllCats` | server.js:143-150 | The dog count is 0 exactly when every remaining stone is a cat. |
| `Rooms.OutcomeMeaning` | server.js:137-157 | Seat 1 (dog) wins exactly when no cat stone is left, including the empty board. Seat 0 (cat) wins exactly when cats remain and no dog does. Otherwise the turn changes, stays 0 or 1, and both sides still have stones. |
| `Server.GameServer.Disconnect` | server.js:227-245 | If the socket sits in no room nothing changes. Otherwise one room containing it is deleted, and the seat notified is `Opponent` of the socket in that room. |
| `Rooms.Opponent` | server.js:232-238 | The notified seat is 1 - index when a player sits there, which is never the leaver's index. In a two-player room that is always the other seat. Nobody is notified when the socket is absent or alone. |

## Left out

- The server's collision block (server.js:92-125) is not modelled. It uses `atan2`, `sin` and `cos`. Its line 110 destructure-assigns into `const` bindings, so as written it throws a TypeError whenever two stones overlap. The engine's normal-impulse collision is the collision that is modelled.
- Server.GameServer.Tick: behaves as if the collision block were absent. It does not model the exception that the code as written raises on the first tick in which two stones overlap.
- Timers and transport are not modelled: `setInterval`/`clearInterval` timing, every `io.to(...).emit` and `socket.emit`, `socket.join`, `console.log`, the static file server and `server.listen`. They are scheduling and I/O; the `simulating` flag stands for a live interval handle.
- `Math.random` is not modelled. The room id (`CreateRoom`'s `roomId`) and the rounded first turn (`coin`) are parameters.
- `Math.hypot` is not modelled. It is the parameter `hypot`. The contact test uses it exactly as the source does. ImpulseReflects assumes a unit normal, which holds only when `hypot` is the Euclidean norm. The exact "just touching" position after correction is not proved.
- The server filter's `Math.sqrt` is not modelled. Its test, distance from the centre < 250, is stated on the squared distance (< 62500), which is equivalent for the non-negative distances involved.
- `toFixed(3)` in `snapshot` is not modelled; it is the parameter `round3`.
- IEEE-754 arithmetic is not modelled; positions and velocities are exact reals.
- The `Vec` helpers `len`, `normalize` and `copy` are not modelled separately. `add`/`mul`/`set` mutate a vector owned by a single puck, and the model replaces that vector by its new value, which is observably the same since no vector is shared.
- A non-integer `maxSteps` is not modelled: ComputeToRest takes an integer, with default `DefaultMaxSteps` (8000) as in the source.
- A missing game is not modelled as behaviour. `shoot` on a room whose game has not started dereferences a null `gameState` and throws. Shoot and RunSimulation require a game whenever the room exists. Tick requires a live simulation of an existing room.
- Orphaned intervals are not modelled, in two cases. The interval keeps ticking on the detached room record when `disconnect` deletes a room whose simulation is still running. The same happens when `createRoom` replaces a room filed under the same id. In the second case, a win settled by the old interval runs `delete gameRooms[roomId]` (server.js:148), which deletes the new room. The model's Tick applies only to the room currently in the table.
- Server.GameServer.Disconnect: the source visits rooms in the object's key order (integer-like ids first, in ascending order, then the others in insertion order) and deletes the first room containing the socket. The model deletes some room containing the socket, without fixing which when there are several.
- Message validation is not modelled: a `stoneId` of another JavaScript type compared with `===`, or a `force` missing `x` or `y` (giving `undefined`). stoneId is an integer and the force two reals.
