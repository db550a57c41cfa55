/**
 * The authoritative engine of engine.js as an object: the puck list and the
 * turn are fields that its methods update in place. Every method is proved
 * against the value-level functions of module Physics.
 */
module Engine {
  import opened Options
  import opened Physics
  import opened Reals

  class AlkkagiEngine {
    var pucks: seq<Puck>
    var turn: string

    constructor ()
      ensures pucks == InitialLayout() && turn == "cat"
    {
      pucks := [];
      turn := "cat";
      new;
      Reset();
    }

    /** reset(): the mirrored 5 + 5 layout, cat to move. */
    method Reset()
      modifies this
      ensures pucks == InitialLayout() && turn == "cat"
    {
      pucks := [];
      for i := 0 to 5
        invariant pucks == seq(i, k requires 0 <= k < i => CatPuck(k))
      {
        var x := W * 0.5 + ((i % Cols - 1) as real) * Gap;
        var y := OffY + ((i / Cols) as real) * Gap;
        pucks := pucks + [NewPuck("C" + [Digit(i)], "cat", x, y)];
      }
      ghost var cats := pucks;
      for i := 0 to 5
        invariant pucks == cats + seq(i, k requires 0 <= k < i => DogPuck(k))
      {
        var x := W * 0.5 + ((i % Cols - 1) as real) * Gap;
        var y := H - OffY - ((i / Cols) as real) * Gap;
        pucks := pucks + [NewPuck("D" + [Digit(i)], "dog", x, y)];
      }
      turn := "cat";
    }

    /**
     * update(): one tick. The first loop integrates, applies friction, snaps
     * small components and eliminates pucks off the board; the second resolves
     * every pair i < j in order.
     */
    method Update(hypot: Norm)
      modifies this
      ensures pucks == Step(old(pucks), hypot)
      ensures SameRoster(old(pucks), pucks) && OutGrows(old(pucks), pucks) && OutFrozen(old(pucks), pucks)
      ensures OutStill(old(pucks)) ==> OutStill(pucks)
      ensures turn == old(turn)
    {
      IntegrateStep();
      CollideStep(hypot);
    }

    /** The first loop of update(). */
    method IntegrateStep()
      modifies this
      ensures pucks == IntegrateAll(old(pucks))
      ensures turn == old(turn)
    {
      var n := |pucks|;
      for i := 0 to n
        invariant |pucks| == n && turn == old(turn)
        invariant forall k :: 0 <= k < i ==> pucks[k] == IntegratePuck(old(pucks)[k])
        invariant forall k :: i <= k < n ==> pucks[k] == old(pucks)[k]
      {
        var q := pucks[i];
        if !q.out {
          q := q.(p := Add(q.p, Scale(q.v, Dt)));
          q := q.(v := Scale(q.v, Friction));
          if Abs(q.v.x) < SnapEps { q := q.(v := q.v.(x := 0.0)); }
          if Abs(q.v.y) < SnapEps { q := q.(v := q.v.(y := 0.0)); }
          if q.p.x < -q.r || q.p.x > W + q.r || q.p.y < -q.r || q.p.y > H + q.r {
            q := q.(out := true, v := Zero);
          }
          pucks := pucks[i := q];
        }
      }
      assert pucks == IntegrateAll(old(pucks));
    }

    /** The pair loop of update(). */
    method CollideStep(hypot: Norm)
      modifies this
      ensures pucks == CollidePairs(old(pucks), 0, 1, hypot)
      ensures turn == old(turn)
    {
      var n := |pucks|;
      for i := 0 to n
        invariant |pucks| == n && turn == old(turn)
        invariant CollidePairs(pucks, i, i + 1, hypot) == CollidePairs(old(pucks), 0, 1, hypot)
      {
        CollideRow(i, hypot);
      }
    }

    /** The inner loop of the pair pass: puck i against every later puck j. */
    method CollideRow(i: nat, hypot: Norm)
      requires i < |pucks|
      modifies this
      ensures |pucks| == |old(pucks)| && turn == old(turn)
      ensures CollidePairs(pucks, i + 1, i + 2, hypot) == CollidePairs(old(pucks), i, i + 1, hypot)
    {
      var n := |pucks|;
      for j := i + 1 to n
        invariant |pucks| == n && turn == old(turn)
        invariant CollidePairs(pucks, i, j, hypot) == CollidePairs(old(pucks), i, i + 1, hypot)
      {
        ResolvePairAt(i, j, hypot);
      }
    }

    /** One pass of the inner pair loop: pucks i and j after positional correction and impulse. */
    method ResolvePairAt(i: nat, j: nat, hypot: Norm)
      requires i < j < |pucks|
      modifies this
      ensures pucks == ResolveAt(old(pucks), i, j, hypot)
      ensures turn == old(turn)
    {
      var a, b := pucks[i], pucks[j];
      if a.out || b.out {
        assert pucks[i := a][j := b] == pucks;
        return;
      }
      var dx, dy := b.p.x - a.p.x, b.p.y - a.p.y;
      var dist := hypot(dx, dy);
      var min := a.r + b.r;
      if dist > 0.0 && dist < min {
        ghost var a0, b0 := a, b;
        ghost var res := Resolve(a0, b0, hypot);
        var nx, ny := dx / dist, dy / dist;
        var overlap := min - dist;
        a := a.(p := Vec(a.p.x - nx * overlap / 2.0, a.p.y - ny * overlap / 2.0));
        b := b.(p := Vec(b.p.x + nx * overlap / 2.0, b.p.y + ny * overlap / 2.0));
        var rvx, rvy := b.v.x - a.v.x, b.v.y - a.v.y;
        var sep := rvx * nx + rvy * ny;
        assert sep == NormalSpeed(a0.v, b0.v, Vec(nx, ny));
        ghost var kick := Impulse(a0.v, b0.v, Vec(nx, ny));
        if sep < 0.0 {
          var imp := -(1.0) * sep;
          a := a.(v := Vec(a.v.x - imp * nx, a.v.y - imp * ny));
          b := b.(v := Vec(b.v.x + imp * nx, b.v.y + imp * ny));
          assert kick.0 == Vec(a0.v.x - imp * nx, a0.v.y - imp * ny);
        }
        assert (a.v, b.v) == kick;
        assert a.p == res.0.p && b.p == res.1.p;
        assert (a, b) == res;
        pucks := pucks[i := a][j := b];
      } else {
        assert pucks[i := a][j := b] == pucks;
      }
    }

    /**
     * applyImpulseById(pieceId, vec): adds vec to the first puck in play with
     * that id; refuses, changing nothing, when there is none.
     */
    method ApplyImpulseById(pieceId: string, vec: Vec) returns (ok: bool)
      modifies this
      ensures ok <==> exists k :: 0 <= k < |old(pucks)| && Shootable(old(pucks)[k], pieceId)
      ensures !ok ==> pucks == old(pucks)
      ensures ok ==> var k := FirstInPlay(old(pucks), pieceId).value;
                     pucks == old(pucks)[k := old(pucks)[k].(v := Add(old(pucks)[k].v, vec))]
      ensures SameRoster(old(pucks), pucks) && OutFrozen(old(pucks), pucks)
      ensures forall k :: 0 <= k < |pucks| ==> pucks[k].out == old(pucks)[k].out
      ensures OutStill(old(pucks)) ==> OutStill(pucks)
      ensures turn == old(turn)
    {
      var found := FirstInPlay(pucks, pieceId);
      if found.None? {
        return false;
      }
      var k := found.value;
      var p := pucks[k];
      pucks := pucks[k := p.(v := Vec(p.v.x + vec.x, p.v.y + vec.y))];
      return true;
    }

    /** The loop `for (const p of this.pucks) p.v.set(0,0)`. */
    method ZeroVelocities()
      modifies this
      ensures pucks == ZeroAll(old(pucks))
      ensures turn == old(turn)
    {
      for i := 0 to |pucks|
        invariant |pucks| == |old(pucks)| && turn == old(turn)
        invariant forall k :: 0 <= k < i ==> pucks[k] == old(pucks)[k].(v := Zero)
        invariant forall k :: i <= k < |pucks| ==> pucks[k] == old(pucks)[k]
      {
        pucks := pucks[i := pucks[i].(v := Zero)];
      }
      assert pucks == ZeroAll(old(pucks));
    }

    /**
     * computeToRest(maxSteps): ticks while anything moves and fewer than
     * maxSteps ticks ran, then forces every velocity to zero if the ceiling
     * was hit with pucks still moving. Returns the number of ticks run.
     */
    method ComputeToRest(hypot: Norm, maxSteps: int := DefaultMaxSteps) returns (steps: int)
      modifies this
      ensures !AnyMoving(pucks)
      ensures 0 <= steps <= Max0(maxSteps)
      ensures (pucks, steps) == ToRest(old(pucks), maxSteps, hypot)
      ensures OutGrows(old(pucks), pucks) && SameRoster(old(pucks), pucks)
      ensures OutStill(old(pucks)) ==> OutStill(pucks)
      ensures turn == old(turn)
    {
      ToRestKeeps(pucks, maxSteps, hypot);
      steps := 0;
      while AnyMoving(pucks) && steps < maxSteps
        invariant 0 <= steps
        invariant turn == old(turn)
        invariant RunSteps(pucks, steps, maxSteps, hypot) == RunSteps(old(pucks), 0, maxSteps, hypot)
        decreases maxSteps - steps
      {
        Update(hypot);
        steps := steps + 1;
      }
      if AnyMoving(pucks) {
        ZeroVelocities();
      }
    }

    /** applySnapshot(s): new pucks at rest from the snapshot's entries, and its turn. */
    method ApplySnapshot(s: Snapshot)
      modifies this
      ensures pucks == Restore(s.pucks) && turn == s.turn
      ensures OutStill(pucks) && !AnyMoving(pucks)
    {
      pucks := seq(|s.pucks|, k requires 0 <= k < |s.pucks| =>
                 NewPuck(s.pucks[k].id, s.pucks[k].team, s.pucks[k].x, s.pucks[k].y).(out := s.pucks[k].out));
      turn := s.turn;
      ZeroVelocities();
      assert ZeroAll(Restore(s.pucks)) == Restore(s.pucks);
      ZeroAllRests(Restore(s.pucks));
    }
  }
}
