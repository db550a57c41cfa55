/**
 * The room table of server.js as an object: `rooms` is the `gameRooms`
 * dictionary, and each socket handler, startGame, the runSimulation guard and
 * one run of the interval body are methods that update it in place. Every
 * method keeps the invariant Valid() and states the whole new table.
 */
module Server {
  import opened Options
  import opened Rooms

  class GameServer {
    var rooms: map<string, Room>

    /** Every room is filed under its own id and satisfies the room invariant. */
    ghost predicate Valid()
      reads this
    {
      forall key :: key in rooms ==> RoomOk(key, rooms[key])
    }

    constructor ()
      ensures Valid() && rooms == map[]
    {
      rooms := map[];
    }

    /**
     * createRoom: files a new room holding only the sender, not ready, with no
     * game and no simulation. `roomId` is the random five-character id; a room
     * already filed under it is replaced, as the assignment in the source does.
     */
    method CreateRoom(roomId: string, socketId: string)
      requires Valid()
      modifies this
      ensures Valid()
      ensures rooms == old(rooms)[roomId := Room(roomId, [Player(socketId, false)], None, false)]
    {
      rooms := rooms[roomId := Room(roomId, [Player(socketId, false)], None, false)];
    }

    /** joinRoom: appends the sender to an existing room with fewer than two players. */
    method JoinRoom(roomId: string, socketId: string) returns (res: JoinResult)
      requires Valid()
      modifies this
      ensures Valid()
      ensures roomId !in old(rooms) ==> res == NoSuchRoom && rooms == old(rooms)
      ensures roomId in old(rooms) && |old(rooms)[roomId].players| >= 2 ==>
                res == RoomFull && rooms == old(rooms)
      ensures roomId in old(rooms) && |old(rooms)[roomId].players| < 2 ==>
                var r := old(rooms)[roomId];
                res == Joined && rooms == old(rooms)[roomId := r.(players := r.players + [Player(socketId, false)])]
    {
      if roomId in rooms && |rooms[roomId].players| < 2 {
        var r := rooms[roomId];
        rooms := rooms[roomId := r.(players := r.players + [Player(socketId, false)])];
        return Joined;
      }
      res := if roomId in rooms then RoomFull else NoSuchRoom;
    }

    /**
     * playerReady: flips the ready flag of the first player with the sender's
     * id, then starts the game exactly when the room holds two players and
     * both are ready. `coin` is the random first turn (true for seat 1).
     */
    method PlayerReady(roomId: string, socketId: string, coin: bool) returns (started: bool)
      requires Valid()
      modifies this
      ensures Valid()
      ensures roomId !in old(rooms) || PlayerIndex(old(rooms)[roomId].players, socketId) == -1 ==>
                !started && rooms == old(rooms)
      ensures roomId in old(rooms) && PlayerIndex(old(rooms)[roomId].players, socketId) != -1 ==>
                var r := old(rooms)[roomId];
                var ps := Toggle(r.players, PlayerIndex(r.players, socketId));
                (started <==> |ps| == 2 && AllReady(ps)) &&
                rooms == old(rooms)[roomId := r.(players := ps,
                                                 gameState := if started then Some(NewGame(ps, if coin then 1 else 0))
                                                              else r.gameState)]
    {
      started := false;
      if roomId !in rooms {
        return;
      }
      var r := rooms[roomId];
      var k := PlayerIndex(r.players, socketId);
      if k == -1 {
        return;
      }
      if r.gameState.Some? {
        ToggleKeepsGame(r.players, k, r.gameState.value);
      }
      var ps := Toggle(r.players, k);
      rooms := rooms[roomId := r.(players := ps)];
      if |ps| == 2 && AllReady(ps) {
        StartGame(roomId, coin);
        started := true;
      }
    }

    /**
     * startGame: with exactly two players, installs the ten-stone layout, the
     * seats (player 0 the cat, player 1 the dog) and the random first turn;
     * otherwise does nothing. Players and the simulation flag are kept.
     */
    method StartGame(roomId: string, coin: bool)
      requires Valid()
      modifies this
      ensures Valid()
      ensures roomId in old(rooms) && |old(rooms)[roomId].players| == 2 ==>
                var r := old(rooms)[roomId];
                rooms == old(rooms)[roomId := r.(gameState := Some(NewGame(r.players, if coin then 1 else 0)))]
      ensures roomId !in old(rooms) || |old(rooms)[roomId].players| != 2 ==> rooms == old(rooms)
    {
      if roomId !in rooms || |rooms[roomId].players| != 2 {
        return;
      }
      var r := rooms[roomId];
      var stones: seq<Stone> := [];
      var counter := 0;
      for i := 0 to 5
        invariant counter == 2 * i
        invariant stones == seq(2 * i, k requires 0 <= k < 2 * i => LayoutStone(k))
      {
        var y := (CanvasSize / 6.0) * ((i + 1) as real);
        stones := stones + [Stone(counter, 0, true, CanvasSize / 4.0, y, 0.0, 0.0, StoneRadius)];
        counter := counter + 1;
        stones := stones + [Stone(counter, 1, false, CanvasSize * 3.0 / 4.0, y, 0.0, 0.0, StoneRadius)];
        counter := counter + 1;
      }
      var turn := if coin then 1 else 0;
      var g := GameState(stones, turn, [Seat(r.players[0].id, true), Seat(r.players[1].id, false)]);
      assert g == NewGame(r.players, turn);
      NewGameOk(r.players, turn);
      rooms := rooms[roomId := r.(gameState := Some(g))];
    }

    /**
     * runSimulation's guard: starts the interval only for an existing room
     * that has none running, so a room never has two loops.
     */
    method RunSimulation(roomId: string) returns (started: bool)
      requires Valid() && (roomId in rooms ==> rooms[roomId].gameState.Some?)
      modifies this
      ensures Valid()
      ensures started <==> roomId in old(rooms) && !old(rooms)[roomId].simulating
      ensures started ==> rooms == old(rooms)[roomId := old(rooms)[roomId].(simulating := true)]
      ensures !started ==> rooms == old(rooms)
    {
      if roomId !in rooms || rooms[roomId].simulating {
        return false;
      }
      rooms := rooms[roomId := rooms[roomId].(simulating := true)];
      return true;
    }

    /**
     * shoot: accepted only when the sender's index among the room's players is
     * the current turn and a stone with that id exists; the first such stone
     * gets velocity (fx, fy) and the simulation is started if none runs.
     * Stone ownership is not checked.
     */
    method Shoot(roomId: string, socketId: string, stoneId: int, fx: real, fy: real) returns (accepted: bool)
      requires Valid() && (roomId in rooms ==> rooms[roomId].gameState.Some?)
      modifies this
      ensures Valid()
      ensures accepted <==> roomId in old(rooms) &&
                            old(rooms)[roomId].gameState.value.turn == PlayerIndex(old(rooms)[roomId].players, socketId) &&
                            StoneIndex(old(rooms)[roomId].gameState.value.stones, stoneId).Some?
      ensures accepted ==>
                var r := old(rooms)[roomId];
                var g := r.gameState.value;
                var k := StoneIndex(g.stones, stoneId).value;
                rooms == old(rooms)[roomId := r.(gameState := Some(g.(stones := g.stones[k := g.stones[k].(vx := fx, vy := fy)])),
                                                 simulating := true)]
      ensures !accepted ==> rooms == old(rooms)
    {
      if roomId !in rooms {
        return false;
      }
      var r := rooms[roomId];
      var g := r.gameState.value;
      if g.turn != PlayerIndex(r.players, socketId) {
        return false;
      }
      var found := StoneIndex(g.stones, stoneId);
      if found.None? {
        return false;
      }
      var k := found.value;
      var g' := g.(stones := g.stones[k := g.stones[k].(vx := fx, vy := fy)]);
      assert GameOk(r.players, g') by {
        assert forall i :: 0 <= i < |g'.stones| ==> g'.stones[i].id == g.stones[i].id;
      }
      rooms := rooms[roomId := r.(gameState := Some(g'))];
      var _ := RunSimulation(roomId);
      accepted := true;
    }

    /**
     * One run of the interval body, collisions excepted: every stone drifts,
     * stones off the circle are dropped, and when nothing moved the interval
     * stops and the room either ends (winner's seat returned, room deleted)
     * or passes the turn.
     */
    method Tick(roomId: string) returns (res: TickResult)
      requires Valid() && roomId in rooms && rooms[roomId].simulating
      modifies this
      ensures Valid()
      ensures var r := old(rooms)[roomId];
              var g := r.gameState.value;
              var kept := KeepOnBoard(DriftAll(g.stones));
              if AnyMoving(DriftAll(g.stones)) then
                res == Running && rooms == old(rooms)[roomId := r.(gameState := Some(g.(stones := kept)))]
              else
                res == Outcome(kept, g.players, g.turn) &&
                (res.GameOver? ==> rooms == old(rooms) - {roomId}) &&
                (res.TurnChanged? ==>
                   rooms == old(rooms)[roomId := r.(gameState := Some(g.(stones := kept, turn := res.turn)),
                                                    simulating := false)])
    {
      var r := rooms[roomId];
      var g := r.gameState.value;
      TickKeepsGame(r.players, g);
      var drifted, isMoving := DriftStones(g.stones);
      var kept := KeepOnBoard(drifted);
      if isMoving {
        rooms := rooms[roomId := r.(gameState := Some(g.(stones := kept)))];
        return Running;
      }
      OutcomeMeaning(r.players, g.(stones := kept));
      if CountCats(kept) == 0 {
        res := GameOver(SeatIndex(g.players, false));
        rooms := rooms - {roomId};
      } else if CountDogs(kept) == 0 {
        res := GameOver(SeatIndex(g.players, true));
        rooms := rooms - {roomId};
      } else {
        var turn := 1 - g.turn;
        rooms := rooms[roomId := r.(gameState := Some(g.(stones := kept, turn := turn)), simulating := false)];
        res := TurnChanged(turn);
      }
    }

    /**
     * disconnect: deletes one room in which the socket is a player and returns
     * the seat told that it won, if an opponent sits there; with no such room
     * nothing changes. Which of several such rooms goes first is the
     * dictionary's iteration order, left unspecified.
     */
    method Disconnect(socketId: string) returns (notified: Option<int>)
      requires Valid()
      modifies this
      ensures Valid()
      ensures (forall key :: key in old(rooms) ==> PlayerIndex(old(rooms)[key].players, socketId) == -1) ==>
                notified == None && rooms == old(rooms)
      ensures (exists key :: key in old(rooms) && PlayerIndex(old(rooms)[key].players, socketId) != -1) ==>
                exists key :: key in old(rooms) && PlayerIndex(old(rooms)[key].players, socketId) != -1 &&
                              notified == Opponent(old(rooms)[key].players, socketId) &&
                              rooms == old(rooms) - {key}
    {
      if key :| key in rooms && PlayerIndex(rooms[key].players, socketId) != -1 {
        notified := Opponent(rooms[key].players, socketId);
        rooms := rooms - {key};
      } else {
        notified := None;
      }
    }
  }
}
