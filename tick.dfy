/**
 * The independent part of World.simulateOutsideOfGrid on values: one pass
 * over the world's entities in iteration order. A living being with no
 * energy left is marked dead; a being that is neither dead nor in a flock
 * either heads for the food it smells or wanders, and then steps by its new
 * velocity; every living being then eats (World.removeEatenFood).
 *
 * The random draws and clock readings one visit uses are a `BeingDraws`,
 * one per position in the iteration order.
 *
 * `Pass` is the loop as written. Its contract `Evolved` is what the pass
 * guarantees about every entity, proved step by step.
 */
module Tick {
  import opened Wrappers
  import opened Vectors
  import opened Entities
  import opened Feeding
  import opened Numerics

  /** A being picks a new random goal when more than this many milliseconds have passed. */
  const WanderInterval := 5000

  /**
   * What one visit reads from the clock and from java.util.Random: the time
   * compared with the last random movement, the time then stored, the two
   * goal coordinates, and the two nextInt(5) draws used when the step toward
   * food is blocked.
   */
  datatype BeingDraws = BeingDraws(checkTime: int, stampTime: int, goalX: int, goalY: int,
                                   jitterX: int, jitterY: int)

  predicate Expired(b: Body, d: BeingDraws) {
    d.checkTime - b.lastRandomMovement > WanderInterval
  }

  /** The goal draws are nextInt((int) maxX) and nextInt((int) maxY): in [0, n) each. */
  predicate GoalDrawsFit(d: BeingDraws, maxP: Vector2) {
    0 <= d.goalX < DoubleToInt(maxP.x) && 0 <= d.goalY < DoubleToInt(maxP.y)
  }

  /** The blocked-step draws are rng.nextInt(5) twice: in [0, 5) each. */
  predicate JitterFits(d: BeingDraws) {
    0 <= d.jitterX < JitterBound && 0 <= d.jitterY < JitterBound
  }

  /** A being the pass moves: alive, not in a flock, energy above 0. */
  predicate Active(b: Body) {
    b.kind == BeingKind && !b.flock && !b.dead && b.energy > 0.0
  }

  /** Every entity the order names is in the table. */
  predicate InTable(t: Table, order: seq<Uuid>) {
    forall i :: 0 <= i < |order| ==> order[i] in t
  }

  /** No food with energy lies exactly where p is (smelling it would divide by a zero distance). */
  predicate NoFoodAt(t: Table, p: Vector2) {
    forall v :: v in t && IsLiveFood(t[v]) ==> t[v].position != p
  }

  /**
   * What the model asks of moving being u: a velocity (Java reads it only
   * when chasing food, and throws on null there), a goal or an expired timer
   * (Java throws on a null goal), a non-negative maximum speed (Java only
   * ever sets 1.5 or 5), and no live food under it.
   */
  predicate MoveReady(t: Table, u: Uuid, d: BeingDraws)
    requires u in t
  {
    t[u].velocity.Some? && 0.0 <= t[u].maxSpeed && (t[u].goal.Some? || Expired(t[u], d)) &&
    NoFoodAt(t, t[u].position)
  }

  /**
   * moveEntityInRandomDirection: after more than 5000 ms a new goal from the
   * draws and a new timestamp; then the velocity heads for the goal (through
   * setVelocity's clamp) and the energy drops by the depletion value.
   */
  function Wander(b: Body, d: BeingDraws, sqrt: real -> real): (r: Body)
    requires IsSqrt(sqrt) && 0.0 <= b.maxSpeed
    requires b.goal.Some? || Expired(b, d)
    ensures r.goal.Some?
    ensures Expired(b, d) ==> r.goal == Some(Vector2(d.goalX as real, d.goalY as real)) &&
                              r.lastRandomMovement == d.stampTime
    ensures !Expired(b, d) ==> r.goal == b.goal && r.lastRandomMovement == b.lastRandomMovement
    ensures r.velocity.Some? && Magnitude(r.velocity.value, sqrt) <= b.maxSpeed
    ensures r.velocity == Some(ClampSpeed(r.goal.value.Subtract(b.position), b.maxSpeed, sqrt))
    ensures r.energy == b.energy - b.energyDepletionValue
    ensures r == b.(goal := r.goal, lastRandomMovement := r.lastRandomMovement,
                    velocity := r.velocity, energy := r.energy)
  {
    var timed := if Expired(b, d) then
                   b.(goal := Some(Vector2(d.goalX as real, d.goalY as real)), lastRandomMovement := d.stampTime)
                 else b;
    var headed := timed.(velocity := Some(ClampSpeed(timed.goal.value.Subtract(timed.position), timed.maxSpeed, sqrt)));
    headed.(energy := headed.energy - headed.energyDepletionValue)
  }

  /** A goal drawn from nextInt over the world's maximum position lies in [0, maxX) x [0, maxY). */
  lemma {:induction false} WanderGoalInBounds(b: Body, d: BeingDraws, maxP: Vector2, sqrt: real -> real)
    requires IsSqrt(sqrt) && 0.0 <= b.maxSpeed && Expired(b, d) && GoalDrawsFit(d, maxP)
    ensures var g := Wander(b, d, sqrt).goal.value;
      0.0 <= g.x < maxP.x && 0.0 <= g.y < maxP.y
  {
  }

  /**
   * The food branch of a visit: calculateVectorToFood, whose result is added
   * to the velocity once more before setVelocity clamps it. The energy is
   * charged only when the step is not blocked.
   */
  function Chase(b: Body, food: Vector2, scene: seq<Body>, d: BeingDraws, sqrt: real -> real): (r: Body)
    requires IsSqrt(sqrt) && b.velocity.Some? && 0.0 <= b.maxSpeed && b.position != food
    ensures r == b.(energy := r.energy, velocity := r.velocity)
    ensures r.velocity.Some? && Magnitude(r.velocity.value, sqrt) <= b.maxSpeed
    ensures var u := UnitToward(b.position, food, sqrt); var v := b.velocity.value;
      !BlockedAt(scene, b.position.Add(u).x, b.position.Add(u).y) ==>
        r.velocity == Some(ClampSpeed(v.Add(v.Add(u)), b.maxSpeed, sqrt)) &&
        r.energy == b.energy - b.energyDepletionValue
    ensures var u := UnitToward(b.position, food, sqrt); var v := b.velocity.value;
      BlockedAt(scene, b.position.Add(u).x, b.position.Add(u).y) ==>
        r.velocity == Some(ClampSpeed(v.Add(v.Add(Vector2(d.jitterX as real, d.jitterY as real))), b.maxSpeed, sqrt)) &&
        r.energy == b.energy
  {
    var step := StepTowardFood(b, food, scene, d.jitterX, d.jitterY, sqrt);
    var v := b.velocity.value;
    var jitter := Vector2(d.jitterX as real, d.jitterY as real);
    assert step.1 == b || step.1 == b.(energy := b.energy - b.energyDepletionValue);
    assert step.0.Subtract(v) == jitter ==> step.0 == v.Add(jitter);
    step.1.(velocity := Some(ClampSpeed(v.Add(step.0), b.maxSpeed, sqrt)))
  }

  /**
   * A blocked chase under in-range draws steers by v + (v + j) for a
   * whole-number jitter j in [0, 5) x [0, 5).
   */
  lemma {:induction false} ChaseJitterInRange(b: Body, food: Vector2, scene: seq<Body>, d: BeingDraws,
                                              sqrt: real -> real)
    requires IsSqrt(sqrt) && b.velocity.Some? && 0.0 <= b.maxSpeed && b.position != food && JitterFits(d)
    requires var u := UnitToward(b.position, food, sqrt); BlockedAt(scene, b.position.Add(u).x, b.position.Add(u).y)
    ensures var j := Vector2(d.jitterX as real, d.jitterY as real); var v := b.velocity.value;
      Chase(b, food, scene, d, sqrt).velocity == Some(ClampSpeed(v.Add(v.Add(j)), b.maxSpeed, sqrt)) &&
      0.0 <= j.x < JitterBound as real && 0.0 <= j.y < JitterBound as real &&
      j.x == j.x.Floor as real && j.y == j.y.Floor as real
  {
    BlockedJitterInRange(b, food, scene, d.jitterX, d.jitterY, sqrt);
  }

  /**
   * Moving an active being: toward the nearest food within range if it
   * smells one, else a wander; then position += velocity.
   */
  function Move(t: Table, order: seq<Uuid>, u: Uuid, range: int, d: BeingDraws, sqrt: real -> real): (r: Body)
    requires IsSqrt(sqrt) && InTable(t, order) && u in t && MoveReady(t, u, d)
    ensures r.velocity.Some? && Magnitude(r.velocity.value, sqrt) <= t[u].maxSpeed
    ensures r.position == t[u].position.Add(r.velocity.value)
    ensures r == t[u].(energy := r.energy, position := r.position, velocity := r.velocity,
                       goal := r.goal, lastRandomMovement := r.lastRandomMovement)
  {
    var b := t[u];
    var scene := SceneOf(t, order);
    var smelled := Smell(b.position, scene, range, sqrt);
    var headed := if smelled.Some? then Chase(b, scene[smelled.value].position, scene, d, sqrt)
                  else Wander(b, d, sqrt);
    headed.(position := headed.position.Add(headed.velocity.value))
  }

  /**
   * One iteration of the loop of simulateOutsideOfGrid, for the entity at
   * position i of the order. When the being is active its energy is above 0,
   * so it is not marked dead and `marked` is `t`.
   */
  function Visit(t: Table, order: seq<Uuid>, i: nat, range: int, d: BeingDraws, sqrt: real -> real): Table
    requires IsSqrt(sqrt) && InTable(t, order) && i < |order|
    requires Active(t[order[i]]) ==> MoveReady(t, order[i], d)
  {
    var u := order[i];
    if t[u].kind != BeingKind then t
    else EatFold(t[u := Prepared(t, order, i, range, d, sqrt)], u, order)
  }

  /**
   * The living being at position i before it eats: marked dead when its
   * energy is gone, moved when it is active, else as it was.
   */
  function Prepared(t: Table, order: seq<Uuid>, i: nat, range: int, d: BeingDraws, sqrt: real -> real): Body
    requires IsSqrt(sqrt) && InTable(t, order) && i < |order|
    requires Active(t[order[i]]) ==> MoveReady(t, order[i], d)
  {
    var b := t[order[i]];
    if Active(b) then Move(t, order, order[i], range, d, sqrt)
    else if b.energy <= 0.0 then b.(dead := true)
    else b
  }

  /** What the whole pass needs of the starting table, the order and the draws. */
  predicate Ready(t0: Table, order: seq<Uuid>, draws: seq<BeingDraws>) {
    IsOrder(order, t0.Keys) && |draws| == |order| &&
    (forall u :: u in t0 ==> 0.0 <= t0[u].maxSpeed) &&
    forall i :: 0 <= i < |order| && Active(t0[order[i]]) ==> MoveReady(t0, order[i], draws[i])
  }

  /**
   * A visited being b0 that now reads b: a being with no energy at the start
   * or already dead is dead; a dead or flocking being has changed in energy
   * and the dead flag only; any other has stepped by its new velocity, which
   * is within its maximum speed, and has changed nothing else but energy,
   * goal and timestamp.
   */
  predicate Settled(b0: Body, b: Body, sqrt: real -> real) {
    ((b0.dead || b0.energy <= 0.0) ==> b.dead) &&
    (b0.dead ==> b.dead) &&
    if b0.flock || b.dead then b == b0.(energy := b.energy, dead := b.dead)
    else
      b == b0.(energy := b.energy, position := b.position, velocity := b.velocity,
               goal := b.goal, lastRandomMovement := b.lastRandomMovement) &&
      b.velocity.Some? && b.position == b0.position.Add(b.velocity.value) &&
      Magnitude(b.velocity.value, sqrt) <= b0.maxSpeed
  }

  /**
   * How entity b0 may have changed into b during the pass: an entity that is
   * not a living being, or one not yet visited, has only seen its energy
   * kept or set to 0 by someone eating it; a visited being is Settled.
   */
  predicate Follows(b0: Body, b: Body, visited: bool, sqrt: real -> real) {
    if b0.kind == BeingKind && visited then Settled(b0, b, sqrt)
    else b == b0.(energy := b.energy) && (b.energy == b0.energy || b.energy == 0.0)
  }

  /** The pass invariant after k visits. */
  predicate Evolved(t0: Table, t: Table, order: seq<Uuid>, k: nat, sqrt: real -> real)
    requires k <= |order|
  {
    t.Keys == t0.Keys &&
    forall u :: u in t0 ==> Follows(t0[u], t[u], u in order[..k], sqrt)
  }

  /** The first k iterations of the loop. */
  function Pass(t0: Table, order: seq<Uuid>, draws: seq<BeingDraws>, k: nat, range: int,
                sqrt: real -> real): (r: Table)
    requires IsSqrt(sqrt) && Ready(t0, order, draws) && k <= |order|
    ensures Evolved(t0, r, order, k, sqrt)
    decreases k
  {
    if k == 0 then t0
    else
      var p := Pass(t0, order, draws, k - 1, range, sqrt);
      Visited(t0, p, order, draws, k - 1, range, sqrt)
  }

  /** The visit at position k, from a table that satisfies the invariant after k visits, keeps it. */
  function Visited(t0: Table, p: Table, order: seq<Uuid>, draws: seq<BeingDraws>, k: nat, range: int,
                   sqrt: real -> real): (r: Table)
    requires IsSqrt(sqrt) && Ready(t0, order, draws) && k < |order|
    requires Evolved(t0, p, order, k, sqrt)
    ensures Evolved(t0, r, order, k + 1, sqrt)
  {
    VisitStep(t0, p, order, draws, k, range, sqrt);
    Visit(p, order, k, range, draws[k], sqrt)
  }

  /** The whole independent pass of simulateOutsideOfGrid. */
  function IndependentPass(t0: Table, order: seq<Uuid>, draws: seq<BeingDraws>, range: int,
                           sqrt: real -> real): (r: Table)
    requires IsSqrt(sqrt) && Ready(t0, order, draws)
    ensures Evolved(t0, r, order, |order|, sqrt)
  {
    Pass(t0, order, draws, |order|, range, sqrt)
  }

  /** Settled says nothing about the energy, which later eating may change. */
  lemma {:induction false} SettledIgnoresEnergy(b0: Body, b: Body, e: real, sqrt: real -> real)
    requires Settled(b0, b, sqrt)
    ensures Settled(b0, b.(energy := e), sqrt)
  {
  }

  /** The visit at position k, from a table that satisfies the invariant after k visits. */
  lemma {:induction false} VisitStep(t0: Table, p: Table, order: seq<Uuid>, draws: seq<BeingDraws>, k: nat, range: int,
                  sqrt: real -> real)
    requires IsSqrt(sqrt) && Ready(t0, order, draws) && k < |order|
    requires Evolved(t0, p, order, k, sqrt)
    ensures InTable(p, order)
    ensures Active(p[order[k]]) ==> MoveReady(p, order[k], draws[k])
    ensures Evolved(t0, Visit(p, order, k, range, draws[k], sqrt), order, k + 1, sqrt)
  {
    var u := order[k];
    assert u !in order[..k];
    var b := p[u];
    assert b == t0[u].(energy := b.energy) && (b.energy == t0[u].energy || b.energy == 0.0);
    if Active(b) {
      PendingReady(t0, p, order, k, draws[k], sqrt);
    }
    if b.kind == BeingKind {
      VisitBeing(t0, p, order, draws[k], k, range, sqrt);
    } else {
      EvolvedExtend(t0, p, p, order, k, sqrt);
    }
  }

  /** The visit of a being: marking or moving settles it, and its eating keeps the invariant. */
  lemma {:induction false} VisitBeing(t0: Table, p: Table, order: seq<Uuid>, d: BeingDraws, k: nat, range: int, sqrt: real -> real)
    requires IsSqrt(sqrt) && IsOrder(order, t0.Keys) && k < |order|
    requires Evolved(t0, p, order, k, sqrt) && order[k] !in order[..k]
    requires p[order[k]] == t0[order[k]].(energy := p[order[k]].energy) && p[order[k]].kind == BeingKind
    requires Active(p[order[k]]) ==> MoveReady(p, order[k], d)
    ensures Evolved(t0, Visit(p, order, k, range, d, sqrt), order, k + 1, sqrt)
  {
    var u := order[k];
    var moved := p[u := Prepared(p, order, k, range, d, sqrt)];
    assert Settled(t0[u], moved[u], sqrt);
    EvolvedExtend(t0, p, moved, order, k, sqrt);
    EvolvedEat(t0, moved, order, k + 1, u, sqrt);
  }

  /** Visit k, which touched entry order[k] only and left it as Follows allows, extends the invariant. */
  lemma {:induction false} EvolvedExtend(t0: Table, p: Table, m: Table, order: seq<Uuid>, k: nat, sqrt: real -> real)
    requires k < |order| && Evolved(t0, p, order, k, sqrt) && order[k] !in order[..k]
    requires m.Keys == p.Keys && (forall v :: v in p && v != order[k] ==> m[v] == p[v])
    requires order[k] in t0 && Follows(t0[order[k]], m[order[k]], true, sqrt)
    ensures Evolved(t0, m, order, k + 1, sqrt)
  {
    assert order[..k + 1] == order[..k] + [order[k]];
    forall v | v in t0
      ensures Follows(t0[v], m[v], v in order[..k + 1], sqrt)
    {
      if v != order[k] {
        assert (v in order[..k + 1]) == (v in order[..k]);
      }
    }
  }

  /** A being not yet visited that is active now was active at the start, with the same readiness. */
  lemma {:induction false} PendingReady(t0: Table, p: Table, order: seq<Uuid>, k: nat, d: BeingDraws, sqrt: real -> real)
    requires IsOrder(order, t0.Keys) && k < |order|
    requires (forall u :: u in t0 ==> 0.0 <= t0[u].maxSpeed)
    requires Active(t0[order[k]]) ==> MoveReady(t0, order[k], d)
    requires Evolved(t0, p, order, k, sqrt)
    requires order[k] !in order[..k] && Active(p[order[k]])
    ensures MoveReady(p, order[k], d)
  {
    var u := order[k];
    assert p[u] == t0[u].(energy := p[u].energy);
    forall v | v in p && IsLiveFood(p[v])
      ensures p[v].position != p[u].position
    {
      assert p[v] == t0[v].(energy := p[v].energy);
      assert IsLiveFood(t0[v]);
    }
  }

  /** Eating by a visited being keeps the invariant: it changes energies only, to 0 for the eaten. */
  lemma {:induction false} EvolvedEat(t0: Table, m: Table, order: seq<Uuid>, k: nat, eater: Uuid, sqrt: real -> real)
    requires IsOrder(order, t0.Keys) && k <= |order|
    requires Evolved(t0, m, order, k, sqrt)
    requires eater in order[..k] && eater in m && m[eater].kind == BeingKind
    ensures Evolved(t0, EatFold(m, eater, order), order, k, sqrt)
  {
    assert Distinct(order);
    EatFoldIsEaten(m, eater, order);
    var r := EatFold(m, eater, order);
    forall v | v in t0
      ensures Follows(t0[v], r[v], v in order[..k], sqrt)
    {
      EatenChangesOnlyEnergy(m, eater, order, v);
      if t0[v].kind == BeingKind && v in order[..k] {
        SettledIgnoresEnergy(t0[v], m[v], r[v].energy, sqrt);
        assert r[v] == m[v].(energy := r[v].energy);
      }
    }
  }

  /**
   * What the pass promises about every entity: no entry is added or
   * removed; dead beings stay dead and beings without energy die; flocking
   * and dead beings keep their place and velocity; every other being has
   * stepped by exactly its new velocity, within its maximum speed; entities
   * that are not living beings (food, obstacles) never move, and their
   * energy is kept or eaten down to 0.
   */
  lemma {:induction false} PassEffects(t0: Table, order: seq<Uuid>, draws: seq<BeingDraws>, range: int, sqrt: real -> real, u: Uuid)
    requires IsSqrt(sqrt) && Ready(t0, order, draws) && u in t0
    ensures var r := IndependentPass(t0, order, draws, range, sqrt);
      r.Keys == t0.Keys &&
      r[u].kind == t0[u].kind && r[u].uuid == t0[u].uuid &&
      (t0[u].dead ==> r[u].dead) &&
      (t0[u].kind == BeingKind && t0[u].energy <= 0.0 ==> r[u].dead) &&
      (t0[u].kind == BeingKind && (t0[u].flock || r[u].dead) ==>
         r[u].position == t0[u].position && r[u].velocity == t0[u].velocity) &&
      (t0[u].kind == BeingKind && !t0[u].flock && !r[u].dead ==>
         r[u].velocity.Some? && r[u].position == t0[u].position.Add(r[u].velocity.value) &&
         Magnitude(r[u].velocity.value, sqrt) <= t0[u].maxSpeed) &&
      (t0[u].kind != BeingKind ==>
         r[u] == t0[u].(energy := r[u].energy) && (r[u].energy == t0[u].energy || r[u].energy == 0.0))
  {
    assert order[..|order|] == order;
    var r := IndependentPass(t0, order, draws, range, sqrt);
    assert Follows(t0[u], r[u], u in order[..|order|], sqrt);
  }
}
