/**
 * World.simulateOutsideOfGrid on values: the independent pass over the
 * world's entities, then simulateFlock for every flock of the flock map, in
 * the map's iteration order.
 */
module Simulation {
  import opened Wrappers
  import opened Vectors
  import opened Entities
  import opened Tick
  import opened Flocking

  /** A flock as a value: its members' uuids in list order and its goal state. */
  datatype FlockValue = FlockValue(members: seq<Uuid>, state: FlockState)

  /** Every flock can be simulated on t. */
  predicate FlocksReady(t: Table, flocks: seq<FlockValue>) {
    forall f :: 0 <= f < |flocks| ==> FlockReady(t, flocks[f].members)
  }

  /** The draws the flocks use: one FlockDraws per flock and one BoidDraws per member. */
  predicate FlockDrawsFit(flocks: seq<FlockValue>, fdraws: seq<FlockDraws>, bdraws: seq<seq<BoidDraws>>) {
    |fdraws| == |flocks| && |bdraws| == |flocks| &&
    forall f :: 0 <= f < |flocks| ==> |bdraws[f]| == |flocks[f].members|
  }

  /**
   * Members are only ever touched by their own flock's step: keys are kept,
   * non-members are unchanged, and a member keeps its kind, velocity being
   * present, and maximum speed. So any flock still ready stays ready.
   */
  lemma {:induction false} FlockReadyAfterFlock(t0: Table, r: Table, a: seq<Uuid>, b: seq<Uuid>, sqrt: real -> real)
    requires FlockReady(t0, a) && FlownSoFar(t0, r, a, |a|, sqrt)
    requires FlockReady(t0, b)
    ensures FlockReady(r, b)
  {
    forall k | 0 <= k < |b|
      ensures r[b[k]].kind == BeingKind && r[b[k]].velocity.Some? && 0.0 <= r[b[k]].maxSpeed
    {
      if b[k] in a {
        var j :| 0 <= j < |a| && a[j] == b[k];
        assert Flew(t0[a[j]], r[a[j]], j < |a|, sqrt);
      }
    }
  }

  /** b is b0, or b0 is a being that has only flown: new velocity, position and goal, within both speed limits. */
  predicate MovedOnly(b0: Body, b: Body, sqrt: real -> real) {
    b == b0 ||
    (b0.kind == BeingKind &&
     b == b0.(velocity := b.velocity, position := b.position, goal := b.goal) &&
     b.velocity.Some? && Magnitude(b.velocity.value, sqrt) <= FlockMaxSpeed &&
     Magnitude(b.velocity.value, sqrt) <= b0.maxSpeed)
  }

  /** Everything the flocks do: a member only flies, non-members keep their state. */
  predicate FlocksSoFar(t0: Table, t: Table, sqrt: real -> real) {
    t.Keys == t0.Keys && forall u :: u in t0 ==> MovedOnly(t0[u], t[u], sqrt)
  }

  /** Flying once more after having only flown is still having only flown. */
  lemma {:induction false} MovedOnlyFlew(b0: Body, b: Body, c: Body, sqrt: real -> real)
    requires MovedOnly(b0, b, sqrt) && b.kind == BeingKind && Flew(b, c, true, sqrt)
    ensures MovedOnly(b0, c, sqrt)
  {
  }

  /** The first n flocks, one after another; returns the table and the flocks' new states. */
  function FlocksPrefix(t0: Table, order: seq<Uuid>, flocks: seq<FlockValue>, n: nat, range: int,
                        minP: Vector2, maxP: Vector2, fdraws: seq<FlockDraws>, bdraws: seq<seq<BoidDraws>>,
                        sqrt: real -> real): (r: (Table, seq<FlockState>))
    requires IsSqrt(sqrt) && n <= |flocks| && FlocksReady(t0, flocks) && FlockDrawsFit(flocks, fdraws, bdraws)
    requires forall j :: 0 <= j < |order| ==> order[j] in t0
    ensures |r.1| == n
    ensures FlocksSoFar(t0, r.0, sqrt) && FlocksReady(r.0, flocks)
    decreases n
  {
    if n == 0 then (t0, [])
    else
      var prior := FlocksPrefix(t0, order, flocks, n - 1, range, minP, maxP, fdraws, bdraws, sqrt);
      var f := flocks[n - 1];
      var step := SimulateFlock(prior.0, order, f.members, f.state, fdraws[n - 1], range, minP, maxP,
                                bdraws[n - 1], sqrt);
      FlockStepKeeps(t0, prior.0, step.0, f.members, flocks, sqrt);
      (step.0, prior.1 + [step.1])
  }

  /**
   * The states of the flock loop in advance: plan[n] is the world and the
   * flocks' new goal states after the first n flocks. A loop that follows
   * it compares its state with one entry at a time.
   */
  ghost predicate FlocksPlanned(plan: seq<(Table, seq<FlockState>)>, t0: Table, order: seq<Uuid>,
                                flocks: seq<FlockValue>, range: int, minP: Vector2, maxP: Vector2,
                                fdraws: seq<FlockDraws>, bdraws: seq<seq<BoidDraws>>, sqrt: real -> real) {
    IsSqrt(sqrt) && FlocksReady(t0, flocks) && FlockDrawsFit(flocks, fdraws, bdraws) &&
    (forall j :: 0 <= j < |order| ==> order[j] in t0) && |plan| == |flocks| + 1 &&
    plan[0] == (t0, []) && (forall n :: 0 <= n <= |flocks| ==> |plan[n].1| == n) &&
    forall n {:trigger FlocksPrefix(t0, order, flocks, n, range, minP, maxP, fdraws, bdraws, sqrt)} ::
      0 <= n <= |flocks| ==> plan[n] == FlocksPrefix(t0, order, flocks, n, range, minP, maxP, fdraws, bdraws, sqrt)
  }

  /** The plan of the flock loop from t0. */
  ghost function FlocksPlanOf(t0: Table, order: seq<Uuid>, flocks: seq<FlockValue>, range: int,
                              minP: Vector2, maxP: Vector2, fdraws: seq<FlockDraws>, bdraws: seq<seq<BoidDraws>>,
                              sqrt: real -> real): (plan: seq<(Table, seq<FlockState>)>)
    requires IsSqrt(sqrt) && FlocksReady(t0, flocks) && FlockDrawsFit(flocks, fdraws, bdraws)
    requires forall j :: 0 <= j < |order| ==> order[j] in t0
    ensures FlocksPlanned(plan, t0, order, flocks, range, minP, maxP, fdraws, bdraws, sqrt)
  {
    seq(|flocks| + 1, n requires 0 <= n <= |flocks| =>
        FlocksPrefix(t0, order, flocks, n, range, minP, maxP, fdraws, bdraws, sqrt))
  }

  /** The plan's next entry is flock n's simulateFlock on the entry before it. */
  lemma {:induction false} FlocksPlanNext(plan: seq<(Table, seq<FlockState>)>, t0: Table, order: seq<Uuid>, flocks: seq<FlockValue>,
                       n: nat, range: int, minP: Vector2, maxP: Vector2, fdraws: seq<FlockDraws>,
                       bdraws: seq<seq<BoidDraws>>, sqrt: real -> real)
    requires FlocksPlanned(plan, t0, order, flocks, range, minP, maxP, fdraws, bdraws, sqrt) && n < |flocks|
    ensures FlockReady(plan[n].0, flocks[n].members) && (forall j :: 0 <= j < |order| ==> order[j] in plan[n].0)
    ensures |bdraws[n]| == |flocks[n].members| && |plan[n].1| == n
    ensures var step := SimulateFlock(plan[n].0, order, flocks[n].members, flocks[n].state, fdraws[n], range,
                                      minP, maxP, bdraws[n], sqrt);
      plan[n + 1] == (step.0, plan[n].1 + [step.1])
  {
    assert plan[n] == FlocksPrefix(t0, order, flocks, n, range, minP, maxP, fdraws, bdraws, sqrt);
    assert plan[n + 1] == FlocksPrefix(t0, order, flocks, n + 1, range, minP, maxP, fdraws, bdraws, sqrt);
  }

  /** One more flock extends FlocksSoFar and keeps every flock ready. */
  lemma {:induction false} FlockStepKeeps(t0: Table, t: Table, r: Table, members: seq<Uuid>, flocks: seq<FlockValue>,
                       sqrt: real -> real)
    requires FlocksSoFar(t0, t, sqrt) && FlocksReady(t, flocks)
    requires FlockReady(t, members) && FlownSoFar(t, r, members, |members|, sqrt)
    ensures FlocksSoFar(t0, r, sqrt) && FlocksReady(r, flocks)
  {
    forall f | 0 <= f < |flocks|
      ensures FlockReady(r, flocks[f].members)
    {
      FlockReadyAfterFlock(t, r, members, flocks[f].members, sqrt);
    }
    FlocksSoFarExtended(t0, t, r, members, sqrt);
  }

  /** A flock's step on top of earlier flocks' steps is still FlocksSoFar from the start. */
  lemma {:induction false} FlocksSoFarExtended(t0: Table, t: Table, r: Table, members: seq<Uuid>, sqrt: real -> real)
    requires FlocksSoFar(t0, t, sqrt)
    requires FlockReady(t, members) && FlownSoFar(t, r, members, |members|, sqrt)
    ensures FlocksSoFar(t0, r, sqrt)
  {
    forall u | u in t0
      ensures MovedOnly(t0[u], r[u], sqrt)
    {
      if u in members {
        var j :| 0 <= j < |members| && members[j] == u;
        assert Flew(t[u], r[u], j < |members|, sqrt);
        MovedOnlyFlew(t0[u], t[u], r[u], sqrt);
      }
    }
  }

  /** The independent pass keeps every flock ready: it never removes a velocity or changes a kind. */
  lemma {:induction false} PassKeepsFlocksReady(t0: Table, order: seq<Uuid>, draws: seq<BeingDraws>, range: int,
                             flocks: seq<FlockValue>, sqrt: real -> real)
    requires IsSqrt(sqrt) && Ready(t0, order, draws) && FlocksReady(t0, flocks)
    ensures FlocksReady(IndependentPass(t0, order, draws, range, sqrt), flocks)
  {
    var r := IndependentPass(t0, order, draws, range, sqrt);
    forall f, k | 0 <= f < |flocks| && 0 <= k < |flocks[f].members|
      ensures r[flocks[f].members[k]].velocity.Some?
    {
      PassEffects(t0, order, draws, range, sqrt, flocks[f].members[k]);
    }
    forall f, k | 0 <= f < |flocks| && 0 <= k < |flocks[f].members|
      ensures r[flocks[f].members[k]].kind == BeingKind && 0.0 <= r[flocks[f].members[k]].maxSpeed
    {
      assert order[..|order|] == order;
      var u := flocks[f].members[k];
      assert Follows(t0[u], r[u], u in order[..|order|], sqrt);
    }
  }

  /** simulateOutsideOfGrid: the independent pass, then every flock. */
  function SimulateOutsideOfGrid(t0: Table, order: seq<Uuid>, draws: seq<BeingDraws>, range: int,
                                 flocks: seq<FlockValue>, minP: Vector2, maxP: Vector2,
                                 fdraws: seq<FlockDraws>, bdraws: seq<seq<BoidDraws>>,
                                 sqrt: real -> real): (r: (Table, seq<FlockState>))
    requires IsSqrt(sqrt) && Ready(t0, order, draws) && FlocksReady(t0, flocks)
    requires FlockDrawsFit(flocks, fdraws, bdraws)
    ensures r.0.Keys == t0.Keys && |r.1| == |flocks|
  {
    var passed := IndependentPass(t0, order, draws, range, sqrt);
    PassKeepsFlocksReady(t0, order, draws, range, flocks, sqrt);
    FlocksPrefix(passed, order, flocks, |flocks|, range, minP, maxP, fdraws, bdraws, sqrt)
  }

  /** The plan of the flock loop that follows the independent pass, ending where simulateOutsideOfGrid does. */
  lemma {:induction false} OutsidePlan(t0: Table, order: seq<Uuid>, draws: seq<BeingDraws>, range: int,
                    flocks: seq<FlockValue>, minP: Vector2, maxP: Vector2,
                    fdraws: seq<FlockDraws>, bdraws: seq<seq<BoidDraws>>, sqrt: real -> real)
    returns (plan: seq<(Table, seq<FlockState>)>)
    requires IsSqrt(sqrt) && Ready(t0, order, draws) && FlocksReady(t0, flocks)
    requires FlockDrawsFit(flocks, fdraws, bdraws)
    ensures FlocksPlanned(plan, IndependentPass(t0, order, draws, range, sqrt), order, flocks, range, minP, maxP,
                          fdraws, bdraws, sqrt)
    ensures plan[|flocks|] == SimulateOutsideOfGrid(t0, order, draws, range, flocks, minP, maxP, fdraws, bdraws, sqrt)
  {
    var passed := IndependentPass(t0, order, draws, range, sqrt);
    PassKeepsFlocksReady(t0, order, draws, range, flocks, sqrt);
    plan := FlocksPlanOf(passed, order, flocks, range, minP, maxP, fdraws, bdraws, sqrt);
    assert plan[|flocks|] == FlocksPrefix(passed, order, flocks, |flocks|, range, minP, maxP, fdraws, bdraws, sqrt);
  }

  /**
   * Over a whole tick no entry is added or removed, dead beings stay dead,
   * and food and obstacles never move: only their energy may drop to 0.
   */
  lemma {:induction false} TickEffects(t0: Table, order: seq<Uuid>, draws: seq<BeingDraws>, range: int,
                    flocks: seq<FlockValue>, minP: Vector2, maxP: Vector2,
                    fdraws: seq<FlockDraws>, bdraws: seq<seq<BoidDraws>>, sqrt: real -> real, u: Uuid)
    requires IsSqrt(sqrt) && Ready(t0, order, draws) && FlocksReady(t0, flocks)
    requires FlockDrawsFit(flocks, fdraws, bdraws) && u in t0
    ensures var r := SimulateOutsideOfGrid(t0, order, draws, range, flocks, minP, maxP, fdraws, bdraws, sqrt).0;
      r.Keys == t0.Keys && r[u].kind == t0[u].kind &&
      (t0[u].dead ==> r[u].dead) &&
      (t0[u].kind != BeingKind ==>
         r[u] == t0[u].(energy := r[u].energy) && (r[u].energy == t0[u].energy || r[u].energy == 0.0))
  {
    var passed := IndependentPass(t0, order, draws, range, sqrt);
    PassEffects(t0, order, draws, range, sqrt, u);
    PassKeepsFlocksReady(t0, order, draws, range, flocks, sqrt);
    var r := FlocksPrefix(passed, order, flocks, |flocks|, range, minP, maxP, fdraws, bdraws, sqrt).0;
    assert FlocksSoFar(passed, r, sqrt);
    assert r[u] == passed[u] || passed[u].kind == BeingKind;
  }
}
