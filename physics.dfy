/**
 * The value-level model of the rectangular-board engine: vectors, pucks, one
 * physics tick (integration, friction, snapping, out-of-bounds elimination,
 * pairwise collision), the rest loop, the observers and the starting layout.
 * The imperative engine in module Engine is proved against these functions.
 */
module Physics {
  import opened Options
  import opened Reals

  /** Board size shared with the clients. */
  const W: real := 360.0
  const H: real := 640.0
  /** Per-tick velocity factor. */
  const Friction: real := 0.992
  /** Fixed time step of one tick. */
  const Dt: real := 1.0
  /** Radius every puck is created with. */
  const DefaultRadius: real := 18.0
  /** After friction, a velocity component below this magnitude is set to zero. */
  const SnapEps: real := 0.01
  /** A puck in play with a velocity component above this magnitude is moving. */
  const RestEps: real := 0.02
  /** Default step ceiling of the rest loop. */
  const DefaultMaxSteps: int := 8000

  datatype Vec = Vec(x: real, y: real)

  const Zero: Vec := Vec(0.0, 0.0)

  function Add(a: Vec, b: Vec): Vec { Vec(a.x + b.x, a.y + b.y) }

  function Scale(a: Vec, s: real): Vec { Vec(a.x * s, a.y * s) }

  /** A disc with identity, team, position p, velocity v, radius r and the eliminated flag. */
  datatype Puck = Puck(id: string, team: string, p: Vec, v: Vec, r: real, out: bool)

  /** The source's Puck constructor: at rest, default radius, in play. */
  function NewPuck(id: string, team: string, x: real, y: real): Puck
  {
    Puck(id, team, Vec(x, y), Zero, DefaultRadius, false)
  }

  /** The invariant "an eliminated puck has zero velocity". */
  predicate OutStill(ps: seq<Puck>)
  {
    forall k :: 0 <= k < |ps| && ps[k].out ==> ps[k].v == Zero
  }

  /** qs lists the same pucks as ps: same length, ids, teams and radii, position by position. */
  predicate SameRoster(ps: seq<Puck>, qs: seq<Puck>)
  {
    |ps| == |qs| &&
    forall k :: 0 <= k < |ps| ==>
      qs[k].id == ps[k].id && qs[k].team == ps[k].team && qs[k].r == ps[k].r
  }

  /** Elimination is one-way: every puck out in ps is out in qs. */
  predicate OutGrows(ps: seq<Puck>, qs: seq<Puck>)
  {
    |ps| == |qs| && forall k :: 0 <= k < |ps| && ps[k].out ==> qs[k].out
  }

  /** No puck that is out in ps changed at all in qs. */
  predicate OutFrozen(ps: seq<Puck>, qs: seq<Puck>)
  {
    |ps| == |qs| && forall k :: 0 <= k < |ps| && ps[k].out ==> qs[k] == ps[k]
  }

  /** Both components of v are zero or of magnitude at least SnapEps. */
  predicate Snapped(v: Vec)
  {
    (v.x == 0.0 || Abs(v.x) >= SnapEps) && (v.y == 0.0 || Abs(v.y) >= SnapEps)
  }

  // ---------------------------------------------------------------------------
  // Integration, friction, snapping and elimination of one puck

  function Snap(c: real): (s: real)
    ensures s == c || s == 0.0
    ensures s == 0.0 || Abs(s) >= SnapEps
    ensures Abs(c) >= SnapEps ==> s == c
  {
    if Abs(c) < SnapEps then 0.0 else c
  }

  /** The rectangle test: the board expanded outward by the puck's radius. */
  predicate OutOfBounds(p: Vec, r: real)
  {
    p.x < -r || p.x > W + r || p.y < -r || p.y > H + r
  }

  /** The body of the first loop of update() for one puck. */
  function IntegratePuck(a: Puck): (b: Puck)
    ensures b.id == a.id && b.team == a.team && b.r == a.r
    ensures a.out ==> b == a
    ensures !a.out ==> b.p == Add(a.p, Scale(a.v, Dt))
    ensures b.out <==> a.out || OutOfBounds(Add(a.p, Scale(a.v, Dt)), a.r)
    ensures b.out && !a.out ==> b.v == Zero
    ensures !a.out ==> Snapped(b.v)
    ensures !b.out && Abs(a.v.x * Friction) >= SnapEps ==> b.v.x == a.v.x * Friction
    ensures !b.out && Abs(a.v.x * Friction) < SnapEps ==> b.v.x == 0.0
    ensures !b.out && Abs(a.v.y * Friction) >= SnapEps ==> b.v.y == a.v.y * Friction
    ensures !b.out && Abs(a.v.y * Friction) < SnapEps ==> b.v.y == 0.0
  {
    if a.out then a
    else
      var p := Add(a.p, Scale(a.v, Dt));
      var f := Scale(a.v, Friction);
      var v := Vec(Snap(f.x), Snap(f.y));
      if OutOfBounds(p, a.r) then a.(p := p, v := Zero, out := true)
      else a.(p := p, v := v)
  }

  function IntegrateAll(ps: seq<Puck>): (qs: seq<Puck>)
    ensures |qs| == |ps|
    ensures forall k :: 0 <= k < |ps| ==> qs[k] == IntegratePuck(ps[k])
  {
    seq(|ps|, k requires 0 <= k < |ps| => IntegratePuck(ps[k]))
  }

  lemma IntegrateAllKeeps(ps: seq<Puck>)
    ensures SameRoster(ps, IntegrateAll(ps)) && OutFrozen(ps, IntegrateAll(ps))
    ensures OutStill(ps) ==> OutStill(IntegrateAll(ps))
    ensures forall k :: 0 <= k < |ps| && !ps[k].out ==> Snapped(IntegrateAll(ps)[k].v)
  {
  }

  // ---------------------------------------------------------------------------
  // Collision of one pair

  /** Math.hypot is not modelled: hypot(dx, dy) stands for the centre distance. */
  type Norm = (real, real) -> real

  function Dist(a: Puck, b: Puck, hypot: Norm): real
  {
    hypot(b.p.x - a.p.x, b.p.y - a.p.y)
  }

  /** Both in play and overlapping, exact coincidence excluded. */
  predicate InContact(a: Puck, b: Puck, hypot: Norm)
  {
    !a.out && !b.out && 0.0 < Dist(a, b, hypot) < a.r + b.r
  }

  /** The unit normal from a to b. */
  function Normal(a: Puck, b: Puck, hypot: Norm): Vec
    requires Dist(a, b, hypot) != 0.0
  {
    Vec((b.p.x - a.p.x) / Dist(a, b, hypot), (b.p.y - a.p.y) / Dist(a, b, hypot))
  }

  /** The velocity vb relative to va along n; negative means closing. */
  function NormalSpeed(va: Vec, vb: Vec, n: Vec): real
  {
    (vb.x - va.x) * n.x + (vb.y - va.y) * n.y
  }

  /**
   * The velocity response: when the pair is closing along n, an impulse of
   * the closing speed is taken from va and given to vb along n.
   */
  function Impulse(va: Vec, vb: Vec, n: Vec): (res: (Vec, Vec))
    ensures Add(res.0, res.1) == Add(va, vb)
    ensures NormalSpeed(va, vb, n) >= 0.0 ==> res == (va, vb)
  {
    var sep := NormalSpeed(va, vb, n);
    if sep < 0.0 then
      var imp := -(1.0) * sep;
      (Vec(va.x - imp * n.x, va.y - imp * n.y), Vec(vb.x + imp * n.x, vb.y + imp * n.y))
    else (va, vb)
  }

  /**
   * With a unit normal the impulse is a full elastic exchange along it: a
   * closing normal speed s becomes -s. (The normal is a unit vector exactly
   * when hypot is the Euclidean norm; that is assumed here, not derived.)
   */
  lemma ImpulseReflects(va: Vec, vb: Vec, n: Vec)
    requires n.x * n.x + n.y * n.y == 1.0
    requires NormalSpeed(va, vb, n) < 0.0
    ensures var res := Impulse(va, vb, n); NormalSpeed(res.0, res.1, n) == -NormalSpeed(va, vb, n)
  {
    var imp := -(1.0) * NormalSpeed(va, vb, n);
    var rx, ry := vb.x - va.x, vb.y - va.y;
    assert (vb.x + imp * n.x) - (va.x - imp * n.x) == rx + 2.0 * imp * n.x;
    assert (vb.y + imp * n.y) - (va.y - imp * n.y) == ry + 2.0 * imp * n.y;
    Reflect(rx, ry, n.x, n.y, imp);
  }

  lemma Reflect(rx: real, ry: real, nx: real, ny: real, imp: real)
    requires nx * nx + ny * ny == 1.0
    requires imp == -(1.0) * (rx * nx + ry * ny)
    ensures (rx + 2.0 * imp * nx) * nx + (ry + 2.0 * imp * ny) * ny == -(rx * nx + ry * ny)
  {
    assert (rx + 2.0 * imp * nx) * nx + (ry + 2.0 * imp * ny) * ny
        == (rx * nx + ry * ny) + 2.0 * imp * (nx * nx + ny * ny);
  }

  /** The body of the pair loop of update() for pucks a and b. */
  function Resolve(a: Puck, b: Puck, hypot: Norm): (res: (Puck, Puck))
    ensures res.0.id == a.id && res.0.team == a.team && res.0.r == a.r && res.0.out == a.out
    ensures res.1.id == b.id && res.1.team == b.team && res.1.r == b.r && res.1.out == b.out
    ensures Add(res.0.p, res.1.p) == Add(a.p, b.p)
    ensures Add(res.0.v, res.1.v) == Add(a.v, b.v)
    ensures !InContact(a, b, hypot) ==> res == (a, b)
    ensures InContact(a, b, hypot) ==> (res.0.v, res.1.v) == Impulse(a.v, b.v, Normal(a, b, hypot))
  {
    if !InContact(a, b, hypot) then (a, b)
    else
      var dist := Dist(a, b, hypot);
      var n := Normal(a, b, hypot);
      var overlap := a.r + b.r - dist;
      var v := Impulse(a.v, b.v, n);
      (a.(p := Vec(a.p.x - n.x * overlap / 2.0, a.p.y - n.y * overlap / 2.0), v := v.0),
       b.(p := Vec(b.p.x + n.x * overlap / 2.0, b.p.y + n.y * overlap / 2.0), v := v.1))
  }

  /** Resolve pair (i, j) of the sequence in place. */
  function ResolveAt(ps: seq<Puck>, i: nat, j: nat, hypot: Norm): (qs: seq<Puck>)
    requires i < j < |ps|
  {
    var res := Resolve(ps[i], ps[j], hypot);
    ps[i := res.0][j := res.1]
  }

  /**
   * The pair loop of update() from pair (i, j) on: pairs are visited in the
   * order (0,1), (0,2), ..., (1,2), ... and each sees the pucks as left by the
   * pairs before it.
   */
  function CollidePairs(ps: seq<Puck>, i: nat, j: nat, hypot: Norm): (qs: seq<Puck>)
    requires i < j
    ensures SameRoster(ps, qs) && OutFrozen(ps, qs)
    ensures forall k :: 0 <= k < |ps| ==> qs[k].out == ps[k].out
    decreases |ps| - i, |ps| - j
  {
    if i >= |ps| then ps
    else if j >= |ps| then CollidePairs(ps, i + 1, i + 2, hypot)
    else CollidePairs(ResolveAt(ps, i, j, hypot), i, j + 1, hypot)
  }

  /** One tick of update(): the integration pass followed by the pair pass. */
  function Step(ps: seq<Puck>, hypot: Norm): (qs: seq<Puck>)
    ensures SameRoster(ps, qs) && OutFrozen(ps, qs) && OutGrows(ps, qs)
    ensures OutStill(ps) ==> OutStill(qs)
  {
    IntegrateAllKeeps(ps);
    CollidePairs(IntegrateAll(ps), 0, 1, hypot)
  }

  // ---------------------------------------------------------------------------
  // Conservation by the pair pass

  /** Sum of all positions; with equal masses, a multiple of the centre of mass. */
  function PositionSum(ps: seq<Puck>): Vec
  {
    if ps == [] then Zero else Add(ps[0].p, PositionSum(ps[1..]))
  }

  /** Sum of all velocities: the total momentum of equal-mass pucks. */
  function Momentum(ps: seq<Puck>): Vec
  {
    if ps == [] then Zero else Add(ps[0].v, Momentum(ps[1..]))
  }

  lemma {:induction false} PositionSumUpdate(ps: seq<Puck>, k: nat, q: Puck)
    requires k < |ps|
    ensures PositionSum(ps[k := q]).x == PositionSum(ps).x - ps[k].p.x + q.p.x
    ensures PositionSum(ps[k := q]).y == PositionSum(ps).y - ps[k].p.y + q.p.y
  {
    if k > 0 {
      PositionSumUpdate(ps[1..], k - 1, q);
      assert ps[k := q][1..] == ps[1..][k - 1 := q];
    }
  }

  lemma {:induction false} MomentumUpdate(ps: seq<Puck>, k: nat, q: Puck)
    requires k < |ps|
    ensures Momentum(ps[k := q]).x == Momentum(ps).x - ps[k].v.x + q.v.x
    ensures Momentum(ps[k := q]).y == Momentum(ps).y - ps[k].v.y + q.v.y
  {
    if k > 0 {
      MomentumUpdate(ps[1..], k - 1, q);
      assert ps[k := q][1..] == ps[1..][k - 1 := q];
    }
  }

  lemma ResolveAtConserves(ps: seq<Puck>, i: nat, j: nat, hypot: Norm)
    requires i < j < |ps|
    ensures PositionSum(ResolveAt(ps, i, j, hypot)) == PositionSum(ps)
    ensures Momentum(ResolveAt(ps, i, j, hypot)) == Momentum(ps)
  {
    var res := Resolve(ps[i], ps[j], hypot);
    assert Add(res.0.p, res.1.p) == Add(ps[i].p, ps[j].p);
    assert Add(res.0.v, res.1.v) == Add(ps[i].v, ps[j].v);
    PairUpdateConserves(ps, i, j, res.0, res.1);
  }

  lemma PairUpdateConserves(ps: seq<Puck>, i: nat, j: nat, a: Puck, b: Puck)
    requires i < j < |ps|
    requires Add(a.p, b.p) == Add(ps[i].p, ps[j].p)
    requires Add(a.v, b.v) == Add(ps[i].v, ps[j].v)
    ensures PositionSum(ps[i := a][j := b]) == PositionSum(ps)
    ensures Momentum(ps[i := a][j := b]) == Momentum(ps)
  {
    var mid := ps[i := a];
    assert mid[j] == ps[j];
    PositionSumUpdate(ps, i, a);
    PositionSumUpdate(mid, j, b);
    MomentumUpdate(ps, i, a);
    MomentumUpdate(mid, j, b);
  }

  /** The pair pass leaves the summed position and the total momentum unchanged. */
  lemma {:induction false} CollideConserves(ps: seq<Puck>, i: nat, j: nat, hypot: Norm)
    requires i < j
    ensures PositionSum(CollidePairs(ps, i, j, hypot)) == PositionSum(ps)
    ensures Momentum(CollidePairs(ps, i, j, hypot)) == Momentum(ps)
    decreases |ps| - i, |ps| - j
  {
    if i >= |ps| {
    } else if j >= |ps| {
      CollideConserves(ps, i + 1, i + 2, hypot);
    } else {
      ResolveAtConserves(ps, i, j, hypot);
      CollideConserves(ResolveAt(ps, i, j, hypot), i, j + 1, hypot);
    }
  }

  // ---------------------------------------------------------------------------
  // Rest detection and the rest loop

  predicate Moving(q: Puck)
  {
    !q.out && (Abs(q.v.x) > RestEps || Abs(q.v.y) > RestEps)
  }

  /** anyMoving(): `some` over the pucks. */
  function AnyMoving(ps: seq<Puck>): (b: bool)
    ensures b <==> exists k :: 0 <= k < |ps| && Moving(ps[k])
  {
    if ps == [] then false
    else if Moving(ps[0]) then true
    else
      var rest := AnyMoving(ps[1..]);
      assert forall k :: 1 <= k < |ps| ==> ps[k] == ps[1..][k - 1];
      rest
  }

  /** Every velocity set to (0, 0). */
  function ZeroAll(ps: seq<Puck>): (qs: seq<Puck>)
    ensures |qs| == |ps|
    ensures forall k :: 0 <= k < |ps| ==> qs[k] == ps[k].(v := Zero)
  {
    seq(|ps|, k requires 0 <= k < |ps| => ps[k].(v := Zero))
  }

  lemma ZeroAllRests(ps: seq<Puck>)
    ensures !AnyMoving(ZeroAll(ps)) && OutStill(ZeroAll(ps))
    ensures SameRoster(ps, ZeroAll(ps)) && OutGrows(ps, ZeroAll(ps))
  {
  }

  /** The while loop of computeToRest: tick while moving and below the ceiling. */
  function RunSteps(ps: seq<Puck>, steps: nat, maxSteps: int, hypot: Norm): (r: (seq<Puck>, nat))
    ensures steps <= r.1
    ensures r.1 == steps || r.1 <= maxSteps
    ensures AnyMoving(r.0) ==> r.1 >= maxSteps
    decreases maxSteps - steps
  {
    if AnyMoving(ps) && steps < maxSteps then RunSteps(Step(ps, hypot), steps + 1, maxSteps, hypot)
    else (ps, steps)
  }

  function Max0(n: int): nat { if n < 0 then 0 else n }

  /**
   * computeToRest(maxSteps): the ticks run and the state they leave, with all
   * velocities forced to zero when the ceiling stopped the loop.
   */
  function ToRest(ps: seq<Puck>, maxSteps: int, hypot: Norm): (r: (seq<Puck>, nat))
    ensures !AnyMoving(r.0)
    ensures r.1 <= Max0(maxSteps)
  {
    var run := RunSteps(ps, 0, maxSteps, hypot);
    if AnyMoving(run.0) then
      ZeroAllRests(run.0);
      (ZeroAll(run.0), run.1)
    else run
  }

  lemma {:induction false} RunStepsKeeps(ps: seq<Puck>, steps: nat, maxSteps: int, hypot: Norm)
    ensures SameRoster(ps, RunSteps(ps, steps, maxSteps, hypot).0)
    ensures OutFrozen(ps, RunSteps(ps, steps, maxSteps, hypot).0)
    ensures OutStill(ps) ==> OutStill(RunSteps(ps, steps, maxSteps, hypot).0)
    decreases maxSteps - steps
  {
    if AnyMoving(ps) && steps < maxSteps {
      var next := Step(ps, hypot);
      RunStepsKeeps(next, steps + 1, maxSteps, hypot);
    }
  }

  /** The rest loop only ever eliminates pucks and keeps "out implies still". */
  lemma ToRestKeeps(ps: seq<Puck>, maxSteps: int, hypot: Norm)
    ensures SameRoster(ps, ToRest(ps, maxSteps, hypot).0)
    ensures OutGrows(ps, ToRest(ps, maxSteps, hypot).0)
    ensures OutStill(ps) ==> OutStill(ToRest(ps, maxSteps, hypot).0)
  {
    RunStepsKeeps(ps, 0, maxSteps, hypot);
    var run := RunSteps(ps, 0, maxSteps, hypot);
    ZeroAllRests(run.0);
  }

  // ---------------------------------------------------------------------------
  // Shots

  predicate Shootable(q: Puck, id: string)
  {
    q.id == id && !q.out
  }

  /** `find` of the first puck in play with the given id. */
  function FirstInPlay(ps: seq<Puck>, id: string): (r: Option<nat>)
    ensures r.None? <==> forall k :: 0 <= k < |ps| ==> !Shootable(ps[k], id)
    ensures r.Some? ==> r.value < |ps| && Shootable(ps[r.value], id) &&
                        forall k :: 0 <= k < r.value ==> !Shootable(ps[k], id)
  {
    if ps == [] then None
    else if Shootable(ps[0], id) then Some(0)
    else
      match FirstInPlay(ps[1..], id)
      case None =>
        assert forall k :: 1 <= k < |ps| ==> ps[k] == ps[1..][k - 1];
        None
      case Some(k) =>
        assert forall m :: 1 <= m < k + 1 ==> ps[m] == ps[1..][m - 1];
        Some(k + 1)
  }

  // ---------------------------------------------------------------------------
  // Counting

  /** filter(p => p.team === team && !p.out).length */
  function CountAlive(ps: seq<Puck>, team: string): (n: nat)
    ensures n <= |ps|
  {
    if ps == [] then 0
    else (if ps[0].team == team && !ps[0].out then 1 else 0) + CountAlive(ps[1..], team)
  }

  function CountInPlay(ps: seq<Puck>): (n: nat)
    ensures n <= |ps|
  {
    if ps == [] then 0 else (if !ps[0].out then 1 else 0) + CountInPlay(ps[1..])
  }

  function CountTeam(ps: seq<Puck>, team: string): nat
  {
    if ps == [] then 0 else (if ps[0].team == team then 1 else 0) + CountTeam(ps[1..], team)
  }

  datatype AliveCounts = AliveCounts(cat: nat, dog: nat)

  /** getAliveCounts() */
  function GetAliveCounts(ps: seq<Puck>): (c: AliveCounts)
    ensures TwoTeams(ps) ==> c.cat + c.dog == CountInPlay(ps) <= |ps|
  {
    var c := AliveCounts(CountAlive(ps, "cat"), CountAlive(ps, "dog"));
    if TwoTeams(ps) then AliveCountsCover(ps); c else c
  }

  predicate TwoTeams(ps: seq<Puck>)
  {
    forall k :: 0 <= k < |ps| ==> ps[k].team == "cat" || ps[k].team == "dog"
  }

  /** With only the two teams present, the two alive counts add up to the pucks in play. */
  lemma {:induction false} AliveCountsCover(ps: seq<Puck>)
    requires TwoTeams(ps)
    ensures CountAlive(ps, "cat") + CountAlive(ps, "dog") == CountInPlay(ps)
  {
    if ps != [] {
      assert "cat" != "dog" by { assert "cat"[0] != "dog"[0]; }
      assert TwoTeams(ps[1..]) by {
        forall k | 0 <= k < |ps[1..]| ensures ps[1..][k].team == "cat" || ps[1..][k].team == "dog" {
          assert ps[1..][k] == ps[k + 1];
        }
      }
      AliveCountsCover(ps[1..]);
    }
  }

  // ---------------------------------------------------------------------------
  // Snapshots

  datatype SnapPuck = SnapPuck(id: string, team: string, x: real, y: real, out: bool)
  datatype Snapshot = Snapshot(pucks: seq<SnapPuck>, turn: string)

  /**
   * snapshot(nextTurn): toFixed(3) is not modelled and stands as round3; the
   * turn is nextTurn when given and the current turn otherwise.
   */
  function TakeSnapshot(ps: seq<Puck>, turn: string, nextTurn: Option<string>,
                        round3: real -> real): (s: Snapshot)
    ensures |s.pucks| == |ps|
    ensures s.turn == (if nextTurn.Some? then nextTurn.value else turn)
  {
    Snapshot(seq(|ps|, k requires 0 <= k < |ps| =>
               SnapPuck(ps[k].id, ps[k].team, round3(ps[k].p.x), round3(ps[k].p.y), ps[k].out)),
             if nextTurn.Some? then nextTurn.value else turn)
  }

  /** The pucks applySnapshot rebuilds: new pucks at rest, with the recorded out flags. */
  function Restore(sp: seq<SnapPuck>): (ps: seq<Puck>)
    ensures |ps| == |sp|
  {
    seq(|sp|, k requires 0 <= k < |sp| => NewPuck(sp[k].id, sp[k].team, sp[k].x, sp[k].y).(out := sp[k].out))
  }

  /**
   * Restoring a snapshot gives back the ids, teams and out flags in order, the
   * rounded positions, the default radius and zero velocities.
   */
  lemma SnapshotRoundTrip(ps: seq<Puck>, turn: string, nextTurn: Option<string>, round3: real -> real)
    ensures var qs := Restore(TakeSnapshot(ps, turn, nextTurn, round3).pucks);
            |qs| == |ps| &&
            (forall k :: 0 <= k < |ps| ==>
               qs[k].id == ps[k].id && qs[k].team == ps[k].team && qs[k].out == ps[k].out &&
               qs[k].p == Vec(round3(ps[k].p.x), round3(ps[k].p.y)) &&
               qs[k].v == Zero && qs[k].r == DefaultRadius) &&
            OutStill(qs) && !AnyMoving(qs)
  {
  }

  // ---------------------------------------------------------------------------
  // Starting layout

  /** Layout constants of reset(). */
  const Cols: int := 3
  const Gap: real := 52.0
  const OffY: real := 120.0

  function Digit(i: nat): char
    requires i < 10
  {
    ('0' as int + i) as char
  }

  function CatPuck(i: nat): Puck
    requires i < 5
  {
    NewPuck("C" + [Digit(i)], "cat", W * 0.5 + ((i % Cols - 1) as real) * Gap,
            OffY + ((i / Cols) as real) * Gap)
  }

  function DogPuck(i: nat): Puck
    requires i < 5
  {
    NewPuck("D" + [Digit(i)], "dog", W * 0.5 + ((i % Cols - 1) as real) * Gap,
            H - OffY - ((i / Cols) as real) * Gap)
  }

  /** The five cat pucks (top) followed by the five dog pucks (bottom). */
  function InitialLayout(): seq<Puck>
  {
    seq(5, i requires 0 <= i < 5 => CatPuck(i)) + seq(5, i requires 0 <= i < 5 => DogPuck(i))
  }

  lemma {:induction false} CountTeamAppend(a: seq<Puck>, b: seq<Puck>, team: string)
    ensures CountTeam(a + b, team) == CountTeam(a, team) + CountTeam(b, team)
  {
    if a == [] {
      assert a + b == b;
    } else {
      assert (a + b)[0] == a[0];
      assert (a + b)[1..] == a[1..] + b;
      CountTeamAppend(a[1..], b, team);
    }
  }

  lemma {:induction false} CountTeamAll(ps: seq<Puck>, team: string)
    requires forall k :: 0 <= k < |ps| ==> ps[k].team == team
    ensures CountTeam(ps, team) == |ps|
  {
    if ps != [] {
      CountTeamAll(ps[1..], team);
    }
  }

  lemma {:induction false} CountTeamNone(ps: seq<Puck>, team: string)
    requires forall k :: 0 <= k < |ps| ==> ps[k].team != team
    ensures CountTeam(ps, team) == 0
  {
    if ps != [] {
      CountTeamNone(ps[1..], team);
    }
  }

  lemma LayoutAt(k: nat)
    requires k < 10
    ensures |InitialLayout()| == 10
    ensures k < 5 ==> InitialLayout()[k] == CatPuck(k)
    ensures k >= 5 ==> InitialLayout()[k] == DogPuck(k - 5)
  {
  }

  /** Puck k of the layout: its id and team, at rest in play, and its mirror image. */
  lemma LayoutEntry(k: nat)
    requires k < 10
    ensures var ps := InitialLayout();
            |ps| == 10 &&
            (k < 5 ==> ps[k].id == "C" + [Digit(k)] && ps[k].team == "cat") &&
            (k >= 5 ==> ps[k].id == "D" + [Digit(k - 5)] && ps[k].team == "dog") &&
            !ps[k].out && ps[k].v == Zero && ps[k].r == DefaultRadius &&
            (k < 5 ==> ps[k + 5].p.x == ps[k].p.x && ps[k + 5].p.y == H - ps[k].p.y)
  {
    LayoutAt(k);
    if k < 5 {
      LayoutAt(k + 5);
    }
  }

  lemma LayoutIdsDistinct(k: nat, m: nat)
    requires k < m < 10
    ensures InitialLayout()[k].id != InitialLayout()[m].id
  {
    LayoutAt(k);
    LayoutAt(m);
    var a, b := InitialLayout()[k].id, InitialLayout()[m].id;
    if k < 5 && m >= 5 {
      assert a[0] != b[0];
    } else {
      assert a[1] != b[1];
    }
  }

  lemma LayoutTeamCounts()
    ensures CountTeam(InitialLayout(), "cat") == 5 && CountTeam(InitialLayout(), "dog") == 5
  {
    var cats := seq(5, i requires 0 <= i < 5 => CatPuck(i));
    var dogs := seq(5, i requires 0 <= i < 5 => DogPuck(i));
    assert "cat" != "dog" by { assert "cat"[0] != "dog"[0]; }
    assert InitialLayout() == cats + dogs;
    CountTeamAppend(cats, dogs, "cat");
    CountTeamAppend(cats, dogs, "dog");
    CountTeamAll(cats, "cat");
    CountTeamNone(dogs, "cat");
    CountTeamAll(dogs, "dog");
    CountTeamNone(cats, "dog");
  }

  /**
   * reset(): ten pucks with distinct ids C0..C4, D0..D4, five per team, all in
   * play and at rest, each dog puck mirroring the cat puck of the same index.
   */
  lemma InitialLayoutFacts()
    ensures var ps := InitialLayout();
            |ps| == 10 &&
            (forall k :: 0 <= k < 5 ==> ps[k].id == "C" + [Digit(k)] && ps[k].team == "cat") &&
            (forall k :: 5 <= k < 10 ==> ps[k].id == "D" + [Digit(k - 5)] && ps[k].team == "dog") &&
            (forall k, m :: 0 <= k < m < 10 ==> ps[k].id != ps[m].id) &&
            CountTeam(ps, "cat") == 5 && CountTeam(ps, "dog") == 5 &&
            (forall k :: 0 <= k < 10 ==> !ps[k].out && ps[k].v == Zero && ps[k].r == DefaultRadius) &&
            (forall k :: 0 <= k < 5 ==> ps[k + 5].p.x == ps[k].p.x && ps[k + 5].p.y == H - ps[k].p.y) &&
            OutStill(ps) && TwoTeams(ps) && !AnyMoving(ps)
  {
    var ps := InitialLayout();
    forall k | 0 <= k < 10
      ensures k < 5 ==> ps[k].id == "C" + [Digit(k)] && ps[k].team == "cat"
      ensures k >= 5 ==> ps[k].id == "D" + [Digit(k - 5)] && ps[k].team == "dog"
      ensures !ps[k].out && ps[k].v == Zero && ps[k].r == DefaultRadius
      ensures k < 5 ==> ps[k + 5].p.x == ps[k].p.x && ps[k + 5].p.y == H - ps[k].p.y
    {
      LayoutEntry(k);
    }
    forall k, m | 0 <= k < m < 10 ensures ps[k].id != ps[m].id {
      LayoutIdsDistinct(k, m);
    }
    LayoutTeamCounts();
  }
}
