/**
 * The value-level model of the circular-board server: players, stones, the
 * game record and the room record, the starting layout, one integration pass,
 * the elimination filter and the settle rule. The room state machine in
 * module Server is proved against these definitions.
 */
module Rooms {
  import opened Options
  import opened Reals

  /** Canvas size shared with the clients; the board is the circle inscribed in it. */
  const CanvasSize: real := 500.0
  /** Radius of every stone, a twentieth of the canvas. */
  const StoneRadius: real := CanvasSize / 20.0
  /** Per-tick velocity factor of the server simulation. */
  const Friction: real := 0.985
  /** After friction, a velocity component below this magnitude is set to zero. */
  const StopEps: real := 0.05
  /** Centre coordinate of the board, on both axes. */
  const Centre: real := CanvasSize / 2.0
  /** Square of the board radius. */
  const BoardRadiusSq: real := (CanvasSize / 2.0) * (CanvasSize / 2.0)

  /** A lobby entry: a socket id and its ready flag. */
  datatype Player = Player(id: string, ready: bool)

  /** A stone on the board, owned by player 0 (cat) or player 1 (dog). */
  datatype Stone = Stone(id: int, ownerIndex: int, isCat: bool,
                         x: real, y: real, vx: real, vy: real, radius: real)

  /** A seat of a running game: which socket plays which side. */
  datatype Seat = Seat(id: string, isCat: bool)

  datatype GameState = GameState(stones: seq<Stone>, turn: int, players: seq<Seat>)

  /** A room; `simulating` stands for a live simulation interval. */
  datatype Room = Room(id: string, players: seq<Player>, gameState: Option<GameState>, simulating: bool)

  /** The answer to a join request. */
  datatype JoinResult = Joined | RoomFull | NoSuchRoom

  /** What one simulation tick ends in: still running, a turn change, or a game over with the winner's seat. */
  datatype TickResult = Running | TurnChanged(turn: int) | GameOver(winner: int)

  // ---------------------------------------------------------------------------
  // Lookups with the meaning of Array.prototype.findIndex / find

  /** Array.prototype.findIndex: the index of the first element satisfying f, or -1. */
  function FirstIndex<T>(xs: seq<T>, f: T -> bool): (k: int)
    ensures -1 <= k < |xs|
    ensures k == -1 <==> forall i :: 0 <= i < |xs| ==> !f(xs[i])
    ensures k >= 0 ==> f(xs[k]) && forall i :: 0 <= i < k ==> !f(xs[i])
  {
    if |xs| == 0 then -1
    else if f(xs[0]) then 0
    else
      var k := FirstIndex(xs[1..], f);
      assert forall i :: 1 <= i < |xs| ==> xs[i] == xs[1..][i - 1];
      if k == -1 then -1 else k + 1
  }

  /** Index of the first player with that socket id, or -1. */
  function PlayerIndex(ps: seq<Player>, id: string): int
  {
    FirstIndex(ps, (p: Player) => p.id == id)
  }

  /** Index of the first seat on the given side, or -1. */
  function SeatIndex(ss: seq<Seat>, isCat: bool): int
  {
    FirstIndex(ss, (s: Seat) => s.isCat == isCat)
  }

  /** Index of the first stone with that id, if any. */
  function StoneIndex(ss: seq<Stone>, id: int): (r: Option<nat>)
    ensures r.None? <==> forall i :: 0 <= i < |ss| ==> ss[i].id != id
    ensures r.Some? ==> r.value < |ss| && ss[r.value].id == id &&
                        forall i :: 0 <= i < r.value ==> ss[i].id != id
  {
    if |ss| == 0 then None
    else if ss[0].id == id then Some(0)
    else
      var r := StoneIndex(ss[1..], id);
      if r.None? then None else Some(r.value + 1)
  }

  /** Every player in the room has pressed ready. */
  predicate AllReady(ps: seq<Player>)
  {
    forall i :: 0 <= i < |ps| ==> ps[i].ready
  }

  // ---------------------------------------------------------------------------
  // The invariant of a room

  /** Stone ids strictly increase along the list. */
  predicate Ascending(ss: seq<Stone>)
  {
    forall i, j :: 0 <= i < j < |ss| ==> ss[i].id < ss[j].id
  }

  /** A stone as startGame makes it, apart from position and velocity. */
  predicate WellFormed(s: Stone)
  {
    (s.ownerIndex == 0 || s.ownerIndex == 1) && (s.isCat <==> s.ownerIndex == 0) && s.radius == StoneRadius
  }

  /** The seats of a game are the room's two players, player 0 the cat, player 1 the dog. */
  predicate SeatsOf(ps: seq<Player>, seats: seq<Seat>)
  {
    |ps| == 2 && seats == [Seat(ps[0].id, true), Seat(ps[1].id, false)]
  }

  predicate GameOk(ps: seq<Player>, g: GameState)
  {
    SeatsOf(ps, g.players) && (g.turn == 0 || g.turn == 1) && Ascending(g.stones) &&
    forall i :: 0 <= i < |g.stones| ==> WellFormed(g.stones[i])
  }

  /**
   * What every room in the table satisfies: it is filed under its own id, it
   * holds one or two players, a game exists only with two seated players,
   * and a simulation runs only on a game.
   */
  predicate RoomOk(key: string, r: Room)
  {
    r.id == key && 1 <= |r.players| <= 2 &&
    (r.gameState.Some? ==> GameOk(r.players, r.gameState.value)) &&
    (r.simulating ==> r.gameState.Some?)
  }

  // ---------------------------------------------------------------------------
  // startGame's layout

  /**
   * Stone k of the starting position: the loop pushes, for row i, the cat
   * stone 2i at a quarter of the width and the dog stone 2i+1 at three
   * quarters, both at height (size / 6) * (i + 1).
   */
  function LayoutStone(k: nat): Stone
  {
    var row := (k / 2 + 1) as real;
    if k % 2 == 0 then Stone(k, 0, true, CanvasSize / 4.0, (CanvasSize / 6.0) * row, 0.0, 0.0, StoneRadius)
    else Stone(k, 1, false, CanvasSize * 3.0 / 4.0, (CanvasSize / 6.0) * row, 0.0, 0.0, StoneRadius)
  }

  function InitialStones(): seq<Stone>
  {
    seq(10, k requires 0 <= k < 10 => LayoutStone(k))
  }

  /** The game record startGame installs; `turn` is the rounded random number. */
  function NewGame(ps: seq<Player>, firstTurn: int): GameState
    requires |ps| == 2
  {
    GameState(InitialStones(), firstTurn, [Seat(ps[0].id, true), Seat(ps[1].id, false)])
  }

  /** Strict inside test of the circle board, on the squared distance from the centre. */
  predicate OnBoard(s: Stone)
  {
    (s.x - Centre) * (s.x - Centre) + (s.y - Centre) * (s.y - Centre) < BoardRadiusSq
  }

  predicate AtRest(s: Stone)
  {
    s.vx == 0.0 && s.vy == 0.0
  }

  lemma InitialStonesFacts()
    ensures |InitialStones()| == 10
    ensures forall k :: 0 <= k < 10 ==> InitialStones()[k].id == k
    ensures Ascending(InitialStones())
    ensures forall k :: 0 <= k < 10 ==> InitialStones()[k].ownerIndex == k % 2
    ensures forall k :: 0 <= k < 10 ==> WellFormed(InitialStones()[k])
    ensures forall k :: 0 <= k < 10 ==> AtRest(InitialStones()[k]) && OnBoard(InitialStones()[k])
    ensures CountCats(InitialStones()) == 5 && CountDogs(InitialStones()) == 5
  {
    var ss := InitialStones();
    forall k | 0 <= k < 10
      ensures OnBoard(ss[k])
    {
      LayoutOnBoard(k);
    }
    assert ss == [ss[0], ss[1], ss[2], ss[3], ss[4], ss[5], ss[6], ss[7], ss[8], ss[9]];
  }

  /** Each starting stone lies strictly inside the board circle. */
  lemma LayoutOnBoard(k: nat)
    requires k < 10
    ensures OnBoard(LayoutStone(k))
  {
    var s := LayoutStone(k);
    var dy := s.y - Centre;
    assert (s.x - Centre) * (s.x - Centre) == 15625.0;
    assert dy * dy <= 27778.0 by {
      assert -(500.0 / 3.0) <= dy <= 500.0 / 3.0;
      Square166(dy);
    }
  }

  lemma Square166(d: real)
    requires -(500.0 / 3.0) <= d <= 500.0 / 3.0
    ensures d * d <= 27778.0
  {
    if d >= 0.0 {
      assert d * d <= d * (500.0 / 3.0);
    } else {
      assert d * d <= -d * (500.0 / 3.0);
    }
  }

  // ---------------------------------------------------------------------------
  // One integration pass of the simulation interval

  function StopSlow(c: real): (s: real)
    ensures s == c || s == 0.0
    ensures s == 0.0 || Abs(s) >= StopEps
    ensures Abs(c) >= StopEps ==> s == c
  {
    if Abs(c) < StopEps then 0.0 else c
  }

  /** One stone after `x += vx; y += vy`, friction and snapping. */
  function Drift(s: Stone): (t: Stone)
    ensures t.id == s.id && t.ownerIndex == s.ownerIndex && t.isCat == s.isCat && t.radius == s.radius
    ensures t.x == s.x + s.vx && t.y == s.y + s.vy
    ensures (t.vx == 0.0 || Abs(t.vx) >= StopEps) && (t.vy == 0.0 || Abs(t.vy) >= StopEps)
    ensures Abs(s.vx * Friction) >= StopEps ==> t.vx == s.vx * Friction
    ensures Abs(s.vx * Friction) < StopEps ==> t.vx == 0.0
    ensures Abs(s.vy * Friction) >= StopEps ==> t.vy == s.vy * Friction
    ensures Abs(s.vy * Friction) < StopEps ==> t.vy == 0.0
  {
    s.(x := s.x + s.vx, y := s.y + s.vy, vx := StopSlow(s.vx * Friction), vy := StopSlow(s.vy * Friction))
  }

  /** A stone at rest stays where it is and at rest. */
  lemma DriftAtRest(s: Stone)
    requires AtRest(s)
    ensures Drift(s) == s
  {
  }

  function DriftAll(ss: seq<Stone>): (ts: seq<Stone>)
    ensures |ts| == |ss|
    ensures forall k :: 0 <= k < |ss| ==> ts[k] == Drift(ss[k])
  {
    seq(|ss|, k requires 0 <= k < |ss| => Drift(ss[k]))
  }

  /** The `isMoving` flag as the pass leaves it: some stone has a nonzero velocity component. */
  predicate AnyMoving(ss: seq<Stone>)
  {
    exists k :: 0 <= k < |ss| && !AtRest(ss[k])
  }

  /**
   * The forEach loop of the interval body: every stone drifts in place, and
   * `isMoving` ends true exactly when a stone still moves after snapping.
   */
  method DriftStones(ss: seq<Stone>) returns (ts: seq<Stone>, isMoving: bool)
    ensures ts == DriftAll(ss)
    ensures isMoving <==> AnyMoving(ts)
  {
    ts := ss;
    isMoving := false;
    for i := 0 to |ts|
      invariant |ts| == |ss|
      invariant forall k :: 0 <= k < i ==> ts[k] == Drift(ss[k])
      invariant forall k :: i <= k < |ts| ==> ts[k] == ss[k]
      invariant isMoving <==> exists k :: 0 <= k < i && !AtRest(ts[k])
    {
      var s := ts[i];
      s := s.(x := s.x + s.vx, y := s.y + s.vy);
      s := s.(vx := s.vx * Friction, vy := s.vy * Friction);
      if Abs(s.vx) < StopEps { s := s.(vx := 0.0); }
      if Abs(s.vy) < StopEps { s := s.(vy := 0.0); }
      if s.vx != 0.0 || s.vy != 0.0 { isMoving := true; }
      ts := ts[i := s];
    }
  }

  /** When nothing moves, another pass changes nothing. */
  lemma DriftAllAtRest(ss: seq<Stone>)
    requires !AnyMoving(ss)
    ensures DriftAll(ss) == ss
  {
    forall k | 0 <= k < |ss|
      ensures DriftAll(ss)[k] == ss[k]
    {
      DriftAtRest(ss[k]);
    }
  }

  // ---------------------------------------------------------------------------
  // Elimination by filtering

  /** `a` is `b` with some elements dropped, order kept. */
  predicate Subsequence<T(==)>(a: seq<T>, b: seq<T>)
    decreases |b|
  {
    if |a| == 0 then true
    else if |b| == 0 then false
    else (a[0] == b[0] && Subsequence(a[1..], b[1..])) || Subsequence(a, b[1..])
  }

  /** The filter of the interval body: the stones strictly inside the circle, in order. */
  function KeepOnBoard(ss: seq<Stone>): (ts: seq<Stone>)
    ensures |ts| <= |ss|
    ensures forall s :: s in ts <==> s in ss && OnBoard(s)
  {
    if |ss| == 0 then []
    else if OnBoard(ss[0]) then [ss[0]] + KeepOnBoard(ss[1..])
    else KeepOnBoard(ss[1..])
  }

  /** The filter keeps its survivors in their original order. */
  lemma {:induction false} KeepOnBoardOrdered(ss: seq<Stone>)
    ensures Subsequence(KeepOnBoard(ss), ss)
    decreases |ss|
  {
    if |ss| != 0 {
      KeepOnBoardOrdered(ss[1..]);
      var rest := KeepOnBoard(ss[1..]);
      if OnBoard(ss[0]) {
        assert ([ss[0]] + rest)[1..] == rest;
      }
    }
  }

  /** The filter keeps stone ids ascending. */
  lemma {:induction false} KeepOnBoardAscending(ss: seq<Stone>)
    requires Ascending(ss)
    ensures Ascending(KeepOnBoard(ss))
    decreases |ss|
  {
    if |ss| != 0 {
      var tail := ss[1..];
      assert Ascending(tail);
      KeepOnBoardAscending(tail);
      var rest := KeepOnBoard(tail);
      if OnBoard(ss[0]) {
        var ts := [ss[0]] + rest;
        forall i, j | 0 <= i < j < |ts|
          ensures ts[i].id < ts[j].id
        {
          if i == 0 {
            assert ts[j] in rest;
            assert ts[j] in tail;
          }
        }
      }
    }
  }

  // ---------------------------------------------------------------------------
  // Settling: counts, win and turn change

  function CountCats(ss: seq<Stone>): (n: nat)
    ensures n <= |ss|
  {
    if |ss| == 0 then 0 else (if ss[0].isCat then 1 else 0) + CountCats(ss[1..])
  }

  function CountDogs(ss: seq<Stone>): (n: nat)
    ensures n <= |ss|
  {
    if |ss| == 0 then 0 else (if !ss[0].isCat then 1 else 0) + CountDogs(ss[1..])
  }

  /** Every stone is a cat or a dog, so the two filters partition the list. */
  lemma {:induction false} CountsCover(ss: seq<Stone>)
    ensures CountCats(ss) + CountDogs(ss) == |ss|
  {
    if |ss| != 0 {
      CountsCover(ss[1..]);
    }
  }

  lemma {:induction false} NoCatsMeansAllDogs(ss: seq<Stone>)
    ensures CountCats(ss) == 0 <==> forall i :: 0 <= i < |ss| ==> !ss[i].isCat
  {
    if |ss| != 0 {
      NoCatsMeansAllDogs(ss[1..]);
      assert forall i :: 1 <= i < |ss| ==> ss[i] == ss[1..][i - 1];
    }
  }

  lemma {:induction false} NoDogsMeansAllCats(ss: seq<Stone>)
    ensures CountDogs(ss) == 0 <==> forall i :: 0 <= i < |ss| ==> ss[i].isCat
  {
    if |ss| != 0 {
      NoDogsMeansAllCats(ss[1..]);
      assert forall i :: 1 <= i < |ss| ==> ss[i] == ss[1..][i - 1];
    }
  }

  /**
   * The settle rule once nothing moves: no cat stone left means the dog seat
   * wins (checked first, so it also decides a board emptied on both sides);
   * otherwise no dog stone left means the cat seat wins; otherwise the turn
   * passes to the other seat.
   */
  function Outcome(ss: seq<Stone>, seats: seq<Seat>, turn: int): TickResult
  {
    if CountCats(ss) == 0 then GameOver(SeatIndex(seats, false))
    else if CountDogs(ss) == 0 then GameOver(SeatIndex(seats, true))
    else TurnChanged(1 - turn)
  }

  /** With the seats startGame makes, the outcome means what the game promises. */
  lemma OutcomeMeaning(ps: seq<Player>, g: GameState)
    requires GameOk(ps, g)
    ensures Outcome(g.stones, g.players, g.turn) == GameOver(1) <==>
              forall i :: 0 <= i < |g.stones| ==> !g.stones[i].isCat
    ensures Outcome(g.stones, g.players, g.turn) == GameOver(0) <==>
              (exists i :: 0 <= i < |g.stones| && g.stones[i].isCat) &&
              forall i :: 0 <= i < |g.stones| ==> g.stones[i].isCat
    ensures Outcome(g.stones, g.players, g.turn).TurnChanged? ==>
              var t := Outcome(g.stones, g.players, g.turn).turn;
              (t == 0 || t == 1) && t != g.turn &&
              (exists i :: 0 <= i < |g.stones| && g.stones[i].isCat) &&
              (exists i :: 0 <= i < |g.stones| && !g.stones[i].isCat)
  {
    NoCatsMeansAllDogs(g.stones);
    NoDogsMeansAllCats(g.stones);
    assert SeatIndex(g.players, false) == 1 by {
      assert g.players[0].isCat && !g.players[1].isCat;
    }
    assert SeatIndex(g.players, true) == 0;
  }

  // ---------------------------------------------------------------------------
  // Facts the room state machine relies on

  /** The game startGame installs satisfies the room invariant when the first turn is 0 or 1. */
  lemma NewGameOk(ps: seq<Player>, firstTurn: int)
    requires |ps| == 2 && (firstTurn == 0 || firstTurn == 1)
    ensures GameOk(ps, NewGame(ps, firstTurn))
  {
    InitialStonesFacts();
  }

  /** One integration pass and the filter keep a game well formed, with its seats and turn. */
  lemma {:induction false} TickKeepsGame(ps: seq<Player>, g: GameState)
    requires GameOk(ps, g)
    ensures GameOk(ps, g.(stones := KeepOnBoard(DriftAll(g.stones))))
  {
    var ds := DriftAll(g.stones);
    assert Ascending(ds);
    KeepOnBoardAscending(ds);
    var kept := KeepOnBoard(ds);
    forall i | 0 <= i < |kept|
      ensures WellFormed(kept[i])
    {
      assert kept[i] in ds;
    }
  }

  /** The ready toggle of player k: only that flag changes. */
  function Toggle(ps: seq<Player>, k: nat): (qs: seq<Player>)
    requires k < |ps|
    ensures |qs| == |ps| && qs[k].ready == !ps[k].ready
    ensures forall i :: 0 <= i < |ps| ==> qs[i].id == ps[i].id
    ensures forall i :: 0 <= i < |ps| && i != k ==> qs[i] == ps[i]
  {
    ps[k := ps[k].(ready := !ps[k].ready)]
  }

  /** Toggling a ready flag keeps the seats of a running game valid. */
  lemma ToggleKeepsGame(ps: seq<Player>, k: nat, g: GameState)
    requires k < |ps| && GameOk(ps, g)
    ensures GameOk(Toggle(ps, k), g)
  {
    var qs := Toggle(ps, k);
    assert qs[0].id == ps[0].id && qs[1].id == ps[1].id;
  }

  /**
   * The seat disconnect notifies: `1 - playerIndex`, when a player sits
   * there; None when the leaving socket is in no seat or is alone.
   */
  function Opponent(ps: seq<Player>, id: string): (r: Option<int>)
    requires |ps| <= 2
    ensures r.Some? ==> 0 <= r.value < |ps| && r.value != PlayerIndex(ps, id) && PlayerIndex(ps, id) != -1
    ensures r.None? <==> PlayerIndex(ps, id) == -1 || |ps| < 2
    ensures |ps| == 2 && PlayerIndex(ps, id) != -1 ==> r == Some(1 - PlayerIndex(ps, id))
  {
    var k := PlayerIndex(ps, id);
    if k == -1 then None
    else
      var o := 1 - k;
      if 0 <= o < |ps| then Some(o) else None
  }
}
