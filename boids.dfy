/**
 * The BoidFlock class: a list of living beings that move as one flock, a
 * shared goal, and when that goal was last redrawn. Its rule methods only
 * compute vectors; simulateFlock updates the members one after another.
 * Every method is proved against the value rules of module Flocking.
 *
 * The back-reference to the world is not a field: the world's entity map
 * and its iteration order are passed to the members that read them.
 */
module Boids {
  import opened Wrappers
  import opened Vectors
  import opened Entities
  import opened Flocking

  /** No object occurs twice. */
  predicate DistinctObjects(s: seq<Entity>) {
    forall j, k :: 0 <= j < k < |s| ==> s[j] != s[k]
  }

  lemma {:induction false} DistinctUuidsDistinctObjects(s: seq<Entity>)
    requires forall j, k :: 0 <= j < k < |s| ==> s[j].uuid != s[k].uuid
    ensures DistinctObjects(s)
  {
  }

  /** Changing one entity object of a keyed map changes the snapshot at that key only. */
  lemma {:induction false} SnapshotUpdate(es: map<Uuid, Entity>, t0: Table, u: Uuid)
    requires t0.Keys == es.Keys && u in es
    requires forall v :: v in es && v != u ==> es[v].State() == t0[v]
    ensures Snapshot(es) == t0[u := es[u].State()]
  {
  }

  /** Every entity of s is stored in `es` under its uuid. */
  predicate Stored(es: map<Uuid, Entity>, s: seq<Entity>) {
    forall k :: 0 <= k < |s| ==> s[k].uuid in es && es[s[k].uuid] == s[k]
  }

  /** A flock whose members are stored in `es` under their uuids reads the same bodies as the snapshot. */
  lemma {:induction false} MembersAgree(es: map<Uuid, Entity>, flock: seq<Entity>)
    requires forall k :: 0 <= k < |flock| ==> flock[k].uuid in es && es[flock[k].uuid] == flock[k]
    ensures Bodies(flock) == MembersOf(Snapshot(es), UuidsOf(flock))
  {
  }

  /**
   * The state of avoidObstaclesRule's loop after k entities: the closest
   * obstacle so far (null and +infinity, or the entity at `index` and its
   * distance) is what NearestObstacle gives on the first k bodies.
   */
  ghost predicate ObstacleScan(p: Vector2, bs: seq<Body>, k: nat, closest: Entity?, closestDistance: Option<real>,
                               index: nat, scene: seq<Entity>, sqrt: real -> real)
    requires k <= |bs| == |scene|
    reads scene
  {
    var n := NearestObstacle(p, bs[..k], sqrt);
    (n.None? <==> closest == null) && (n.None? <==> closestDistance.None?) &&
    (n.Some? ==> index == n.value && index < |scene| && closest == scene[index] &&
                 bs[index] == scene[index].State() &&
                 closestDistance == Some(Distance(bs[index].position, p, sqrt)))
  }

  class BoidFlock {
    var flock: seq<Entity>
    var goal: Vector2
    var goalLastChanged: int
    const minimumPosition: Vector2
    const maximumPosition: Vector2

    function Members(): seq<Uuid>
      reads this
    {
      UuidsOf(flock)
    }

    function State(): FlockState
      reads this
    {
      FlockState(goal, goalLastChanged)
    }

    /** The members are entities of the world map `es`, stored under their uuids. */
    predicate InWorld(es: map<Uuid, Entity>)
      reads this
    {
      forall k :: 0 <= k < |flock| ==> flock[k].uuid in es && es[flock[k].uuid] == flock[k]
    }

    /**
     * BoidFlock(flock, min, max, world): the rule constants are module
     * constants; the goal comes from nextInt(width) and nextInt(height), the
     * timestamp from the clock.
     */
    constructor(members: seq<Entity>, minP: Vector2, maxP: Vector2, goalX: int, goalY: int, now: int)
      ensures flock == members && minimumPosition == minP && maximumPosition == maxP
      ensures State() == FlockState(Vector2(goalX as real, goalY as real), now)
    {
      flock := members;
      minimumPosition, maximumPosition := minP, maxP;
      goal := Vector2(goalX as real, goalY as real);
      goalLastChanged := now;
    }

    /** add: appends, and changes nothing else. */
    method Add(e: Entity)
      modifies this
      ensures flock == old(flock) + [e] && State() == old(State())
    {
      flock := flock + [e];
    }

    method CentreOfMassRule(boid: Entity, ghost i: nat) returns (r: Vector2)
      requires 2 <= |flock| && i < |flock| && flock[i] == boid && DistinctObjects(flock)
      ensures r == CentreOfMass(Bodies(flock), i)
    {
      ghost var ps := Positions(Bodies(flock));
      var perceived := Zero;
      var k := 0;
      while k < |flock|
        invariant 0 <= k <= |flock|
        invariant perceived == SumExcept(ps[..k], i)
      {
        assert ps[..k + 1][..k] == ps[..k];
        var e := flock[k];
        if e != boid {
          perceived := perceived.Add(e.position);
        }
        k := k + 1;
      }
      assert ps[..|flock|] == ps;
      perceived := perceived.ScalarDivide((|flock| - 1) as real);
      r := perceived.ScalarDivide(1000.0).ScalarMultiply(CentreOfMassFactor);
    }

    method MaintainDistanceRule(boid: Entity, ghost i: nat, sqrt: real -> real) returns (r: Vector2)
      requires i < |flock| && flock[i] == boid && DistinctObjects(flock)
      ensures r == MaintainDistance(Bodies(flock), i, sqrt)
    {
      ghost var bs := Bodies(flock);
      var offset := Zero;
      var k := 0;
      while k < |flock|
        invariant 0 <= k <= |flock|
        invariant offset == Separation(bs, i, k, sqrt)
      {
        var e := flock[k];
        if e != boid {
          var distance := Magnitude(e.position.Subtract(boid.position), sqrt);
          if distance < MinimumBoidDistance {
            var currentDistance := e.position.Subtract(boid.position);
            offset := offset.Subtract(currentDistance);
          }
        }
        k := k + 1;
      }
      r := offset;
    }

    method NormaliseVelocityRule(boid: Entity, ghost i: nat) returns (r: Vector2)
      requires 2 <= |flock| && i < |flock| && flock[i] == boid && DistinctObjects(flock)
      requires HasVelocities(Bodies(flock))
      ensures r == NormaliseVelocity(Bodies(flock), i)
    {
      ghost var vs := Velocities(Bodies(flock));
      var normalised := Zero;
      var k := 0;
      while k < |flock|
        invariant 0 <= k <= |flock|
        invariant normalised == SumExcept(vs[..k], i)
      {
        assert vs[..k + 1][..k] == vs[..k];
        var e := flock[k];
        if e != boid {
          normalised := normalised.Add(e.velocity.value);
        }
        k := k + 1;
      }
      assert vs[..|flock|] == vs;
      normalised := normalised.ScalarDivide((|flock| - 1) as real);
      r := normalised.Subtract(boid.velocity.value).ScalarDivide(32.0);
    }

    method BoundingRule(boid: Entity) returns (r: Vector2)
      ensures r == Bounding(boid.State(), minimumPosition, maximumPosition)
    {
      var offset := Zero;
      if boid.position.x < minimumPosition.x {
        offset := offset.(x := FlockBoundingConstant);
      } else if boid.position.x > maximumPosition.x {
        offset := offset.(x := FlockBoundingConstant * -1.0);
      }
      if boid.position.y < minimumPosition.y {
        offset := offset.(y := FlockBoundingConstant);
      } else if boid.position.y > maximumPosition.y {
        offset := offset.(y := FlockBoundingConstant * -1.0);
      }
      r := offset;
    }

    method SpeedLimitationRule(boid: Entity, sqrt: real -> real) returns (r: Vector2)
      requires IsSqrt(sqrt) && boid.velocity.Some?
      ensures r == ClampSpeed(boid.velocity.value, FlockMaxSpeed, sqrt)
    {
      r := boid.velocity.value;
      if Magnitude(boid.velocity.value, sqrt) > FlockMaxSpeed {
        MagnitudeProperties(boid.velocity.value, sqrt);
        var unit := boid.velocity.value.ScalarDivide(Magnitude(boid.velocity.value, sqrt));
        r := unit.ScalarMultiply(FlockMaxSpeed);
      }
    }

    /**
     * randomPositionRule: the flock goal becomes the position of the food
     * the boid smells, if any (smellFood is called twice, as written; both
     * calls see the same world); the boid's goal is set to the flock goal.
     */
    method RandomPositionRule(boid: Entity, scene: seq<Entity>, range: int, sqrt: real -> real)
      returns (r: Vector2)
      modifies this, boid
      ensures var smelled := Smell(old(boid.position), old(Bodies(scene)), range, sqrt);
        goal == (if smelled.Some? then old(Bodies(scene))[smelled.value].position else old(goal))
      ensures boid.State() == old(boid.State()).(goal := Some(goal))
      ensures r.Add(boid.position) == goal
      ensures flock == old(flock) && goalLastChanged == old(goalLastChanged)
    {
      var smelled := boid.SmellFood(scene, range, sqrt);
      if smelled != null {
        var food := boid.SmellFood(scene, range, sqrt);
        goal := food.position;
      }
      boid.SetGoal(goal);
      r := boid.goal.value.Subtract(boid.position);
    }

    method AvoidObstaclesRule(boid: Entity, scene: seq<Entity>, sqrt: real -> real) returns (r: Vector2)
      ensures r == Avoid(boid.position, Bodies(scene), sqrt)
    {
      ghost var bs := Bodies(scene);
      var p := boid.position;
      var avoidOffset := Zero;
      var closestDistance: Option<real> := None;   // None stands for +infinity
      var closest: Entity? := null;
      ghost var index: nat := 0;
      var k := 0;
      while k < |scene|
        invariant 0 <= k <= |scene|
        invariant ObstacleScan(p, bs, k, closest, closestDistance, index, scene, sqrt)
      {
        var e := scene[k];
        assert bs[k] == e.State();
        assert bs[..k + 1][..k] == bs[..k];
        if e.kind == ObstacleKind {
          var distance := Magnitude(e.position.Subtract(p), sqrt);
          if distance < AvoidRadius {
            if closestDistance.None? || distance < closestDistance.value {
              closestDistance, closest, index := Some(distance), e, k;
            }
          }
        }
        k := k + 1;
      }
      assert bs[..|scene|] == bs;
      if closest != null {
        avoidOffset := closest.position.Subtract(p).ScalarMultiply(-1.0);
      }
      r := avoidOffset;
    }

    method MeanderingRule(boid: Entity, d: BoidDraws) returns (r: Vector2)
      ensures r == Meander(boid.goal, d)
    {
      var mV := Vector2(d.meanderX as real, d.meanderY as real);
      if d.inversion > 25 && d.inversion < 50 {
        mV := Vector2(mV.x * -1.0, mV.y);
      }
      if d.inversion < 25 {
        mV := Vector2(mV.x, mV.y * -1.0);
      }
      if d.inversion > 50 && d.inversion < 75 {
        mV := Vector2(mV.x * -1.0, mV.y * -1.0);
      }
      if boid.goal.Some? {
        r := boid.goal.value.Subtract(mV);
      } else {
        r := mV;         // the NullPointerException handler
      }
    }

    /**
     * One iteration of simulateFlock's loop, for the member at index i:
     * the rules, then setVelocity, the speed limitation through setVelocity
     * again, and the step. `es` is the world's entity map and `order` its
     * iteration order.
     */
    method UpdateBoid(es: map<Uuid, Entity>, order: seq<Uuid>, i: nat, range: int, d: BoidDraws,
                      sqrt: real -> real)
      requires IsSqrt(sqrt) && Keyed(es) && InWorld(es) && i < |flock|
      requires FlockReady(Snapshot(es), Members())
      requires forall k :: 0 <= k < |order| ==> order[k] in es
      modifies this, flock[i]
      ensures flock == old(flock) && goalLastChanged == old(goalLastChanged)
      ensures (Snapshot(es), goal) == BoidUpdate(old(Snapshot(es)), order, Members(), i, old(goal), range,
                                                 minimumPosition, maximumPosition, d, sqrt)
    {
      ghost var t0 := Snapshot(es);
      var boid := flock[i];
      ghost var u := boid.uuid;
      ghost var rp := RandomPosition(t0, order, u, goal, range, sqrt);
      var sum := Steer(es, order, i, range, d, sqrt);
      Step(es, boid, sum, sqrt);
    }

    /**
     * The seven rules of one iteration, in the order the Java evaluates
     * them; only randomPositionRule changes anything (the flock goal and the
     * boid's goal).
     */
    method Steer(es: map<Uuid, Entity>, order: seq<Uuid>, i: nat, range: int, d: BoidDraws,
                 sqrt: real -> real) returns (sum: Vector2)
      requires IsSqrt(sqrt) && Keyed(es) && InWorld(es) && i < |flock|
      requires FlockReady(Snapshot(es), Members())
      requires forall k :: 0 <= k < |order| ==> order[k] in es
      modifies this, flock[i]
      ensures flock == old(flock) && goalLastChanged == old(goalLastChanged)
      ensures var rp := RandomPosition(old(Snapshot(es)), order, flock[i].uuid, old(goal), range, sqrt);
        Snapshot(es) == rp.1 && goal == rp.0 &&
        sum == SteeringSum(old(Snapshot(es)), order, Members(), i, rp, minimumPosition, maximumPosition, d, sqrt)
    {
      ghost var t0 := Snapshot(es);
      var boid := flock[i];
      ghost var u := boid.uuid;
      ghost var rp := RandomPosition(t0, order, u, goal, range, sqrt);
      var centre, bounding, alignment := RulesBeforeGoal(es, i, d);
      assert Snapshot(es) == t0;
      var toGoal := GoalRule(es, order, i, range, sqrt);
      assert Snapshot(es) == rp.1;
      GoalKeepsReady(t0, Members(), u, goal);
      var avoid, meander, distance := RulesAfterGoal(es, order, i, d, sqrt);
      assert Snapshot(es) == rp.1 && boid.velocity == t0[u].velocity;
      sum := boid.velocity.value.Add(centre).Add(bounding).Add(meander).Add(toGoal)
             .Add(alignment).Add(avoid).Add(distance);
    }

    /** randomPositionRule for the member at index i, read against the world map. */
    method GoalRule(es: map<Uuid, Entity>, order: seq<Uuid>, i: nat, range: int, sqrt: real -> real)
      returns (toGoal: Vector2)
      requires Keyed(es) && InWorld(es) && i < |flock|
      requires forall k :: 0 <= k < |order| ==> order[k] in es
      modifies this, flock[i]
      ensures flock == old(flock) && goalLastChanged == old(goalLastChanged)
      ensures var rp := RandomPosition(old(Snapshot(es)), order, flock[i].uuid, old(goal), range, sqrt);
        Snapshot(es) == rp.1 && goal == rp.0 && toGoal == rp.2
    {
      ghost var t0 := Snapshot(es);
      var boid := flock[i];
      ghost var u := boid.uuid;
      ghost var b0 := t0[u];
      assert es[u] == boid && b0 == boid.State();
      ghost var rp := RandomPosition(t0, order, u, goal, range, sqrt);
      var scene := SceneOf(es, order);
      ScenesAgree(es, order);
      toGoal := RandomPositionRule(boid, scene, range, sqrt);
      assert goal == rp.0 && toGoal == rp.2;
      assert boid.State() == b0.(goal := Some(goal));
      forall v | v in es && v != u ensures es[v].State() == t0[v] {
        assert es[v].uuid == v;
      }
      SnapshotUpdate(es, t0, u);
    }

    /** The centre of mass (scaled by 0), bounding and alignment (scaled by the weight draw) rules. */
    method RulesBeforeGoal(es: map<Uuid, Entity>, i: nat, d: BoidDraws)
      returns (centre: Vector2, bounding: Vector2, alignment: Vector2)
      requires Keyed(es) && InWorld(es) && i < |flock|
      requires FlockReady(Snapshot(es), Members())
      ensures (centre, bounding, alignment) ==
        RulesBefore(MembersOf(Snapshot(es), Members()), i, minimumPosition, maximumPosition, d)
    {
      var boid := flock[i];
      MembersAgree(es, flock);
      DistinctUuidsDistinctObjects(flock);
      centre := CentreOfMassRule(boid, i);
      centre := centre.ScalarMultiply(0.0);
      bounding := BoundingRule(boid);
      alignment := NormaliseVelocityRule(boid, i);
      alignment := alignment.ScalarMultiply(d.weight as real);
    }

    /** The obstacle avoidance, meandering and distance (scaled by 1) rules, which read the new goal. */
    method RulesAfterGoal(es: map<Uuid, Entity>, order: seq<Uuid>, i: nat, d: BoidDraws, sqrt: real -> real)
      returns (avoid: Vector2, meander: Vector2, distance: Vector2)
      requires Keyed(es) && InWorld(es) && i < |flock|
      requires FlockReady(Snapshot(es), Members())
      requires forall k :: 0 <= k < |order| ==> order[k] in es
      ensures (avoid, meander, distance) ==
        RulesAfter(MembersOf(Snapshot(es), Members()), i, SceneOf(Snapshot(es), order), d, sqrt)
    {
      avoid := AvoidAt(es, order, i, sqrt);
      meander := MeanderingRule(flock[i], d);
      assert Snapshot(es)[flock[i].uuid] == flock[i].State();
      distance := DistanceAt(es, i, sqrt);
    }

    /** avoidObstaclesRule for the member at index i, read against the world map. */
    method AvoidAt(es: map<Uuid, Entity>, order: seq<Uuid>, i: nat, sqrt: real -> real) returns (avoid: Vector2)
      requires Keyed(es) && InWorld(es) && i < |flock|
      requires forall k :: 0 <= k < |order| ==> order[k] in es
      ensures var t := Snapshot(es); avoid == Avoid(t[flock[i].uuid].position, SceneOf(t, order), sqrt)
    {
      var boid := flock[i];
      assert Snapshot(es)[boid.uuid] == boid.State();
      var scene := SceneOf(es, order);
      ScenesAgree(es, order);
      avoid := AvoidObstaclesRule(boid, scene, sqrt);
    }

    /** maintainDistanceRule (scaled by 1) for the member at index i, read against the world map. */
    method DistanceAt(es: map<Uuid, Entity>, i: nat, sqrt: real -> real) returns (distance: Vector2)
      requires Keyed(es) && InWorld(es) && i < |flock|
      requires forall j, k :: 0 <= j < k < |flock| ==> flock[j].uuid != flock[k].uuid
      ensures distance == MaintainDistance(MembersOf(Snapshot(es), Members()), i, sqrt).ScalarMultiply(1.0)
    {
      MembersAgree(es, flock);
      DistinctUuidsDistinctObjects(flock);
      distance := MaintainDistanceRule(flock[i], i, sqrt);
      distance := distance.ScalarMultiply(1.0);
    }

    /** The end of the loop body: setVelocity, the speed limitation rule, setVelocity again, and the step. */
    method Step(es: map<Uuid, Entity>, boid: Entity, sum: Vector2, sqrt: real -> real)
      requires IsSqrt(sqrt) && 0.0 <= boid.maxSpeed
      requires Keyed(es) && boid.uuid in es && es[boid.uuid] == boid
      modifies boid
      ensures var v := Limited(sum, boid.maxSpeed, sqrt);
        boid.State() == old(boid.State()).(velocity := Some(v), position := old(boid.position).Add(v))
      ensures Snapshot(es) == old(Snapshot(es))[boid.uuid := boid.State()]
    {
      ghost var t0 := Snapshot(es);
      boid.SetVelocity(sum, minimumPosition, maximumPosition, sqrt);
      var limited := SpeedLimitationRule(boid, sqrt);
      boid.SetVelocity(limited, minimumPosition, maximumPosition, sqrt);
      boid.SetPosition(boid.position.Add(boid.velocity.value));
      forall v | v in es && v != boid.uuid ensures es[v].State() == t0[v] {
        assert es[v].uuid == v;
      }
      SnapshotUpdate(es, t0, boid.uuid);
    }

    /**
     * simulateFlock: redraws the goal when more than 1000 ms have passed
     * (the clock readings and the draws are `fd`), then updates every
     * member in list order, each reading the world as the earlier updates
     * left it.
     */
    method SimulateFlock(es: map<Uuid, Entity>, order: seq<Uuid>, fd: FlockDraws, range: int,
                         draws: seq<BoidDraws>, sqrt: real -> real)
      requires IsSqrt(sqrt) && Keyed(es) && InWorld(es) && |draws| == |flock|
      requires FlockReady(Snapshot(es), Members())
      requires forall k :: 0 <= k < |order| ==> order[k] in es
      modifies this, flock
      ensures flock == old(flock)
      ensures (Snapshot(es), State()) == Flocking.SimulateFlock(old(Snapshot(es)), order, Members(), old(State()), fd,
                                                                range, minimumPosition, maximumPosition, draws, sqrt)
    {
      ghost var t0 := Snapshot(es);
      RedrawGoal(fd);
      assert Snapshot(es) == t0;
      ghost var plan := PlanOf(t0, order, Members(), goal, range, minimumPosition, maximumPosition, draws, sqrt);
      FlyAll(es, order, plan, range, draws, sqrt);
    }

    /** The goal redraw: a new goal from the draws when more than 1000 ms have passed since the last one. */
    method RedrawGoal(fd: FlockDraws)
      modifies this
      ensures flock == old(flock) && State() == Redrawn(old(State()), fd)
    {
      if fd.checkTime - goalLastChanged > GoalInterval {
        goal := Vector2(fd.goalX as real, fd.goalY as real);
        goalLastChanged := fd.stampTime;
      }
    }

    /**
     * simulateFlock's loop: every member in list order, following the plan
     * drawn up from the world's snapshot and the goal on entry.
     */
    method FlyAll(es: map<Uuid, Entity>, order: seq<Uuid>, ghost plan: seq<(Table, Vector2)>, range: int,
                  draws: seq<BoidDraws>, sqrt: real -> real)
      requires Keyed(es) && InWorld(es)
      requires Planned(plan, Snapshot(es), order, Members(), goal, range, minimumPosition, maximumPosition, draws, sqrt)
      modifies this, flock
      ensures flock == old(flock) && goalLastChanged == old(goalLastChanged)
      ensures (Snapshot(es), goal) == plan[|flock|]
    {
      ghost var t0 := Snapshot(es);
      ghost var fl := flock;
      ghost var members := Members();
      ghost var start := goal;
      var k := 0;
      while k < |flock|
        invariant k <= |fl| && flock == fl && goalLastChanged == old(goalLastChanged)
        invariant (Snapshot(es), goal) == plan[k]
      {
        Advance(es, t0, order, fl, members, start, plan, k, range, draws, sqrt);
        k := k + 1;
      }
    }

    /** The body of simulateFlock's loop: member k is updated on what the first k updates left. */
    method Advance(es: map<Uuid, Entity>, ghost t0: Table, order: seq<Uuid>, ghost fl: seq<Entity>,
                   ghost members: seq<Uuid>, ghost start: Vector2, ghost plan: seq<(Table, Vector2)>, k: nat,
                   range: int, draws: seq<BoidDraws>, sqrt: real -> real)
      requires Planned(plan, t0, order, members, start, range, minimumPosition, maximumPosition, draws, sqrt)
      requires Keyed(es) && es.Keys == t0.Keys && Stored(es, fl) && members == UuidsOf(fl)
      requires flock == fl && k < |fl| && (Snapshot(es), goal) == plan[k]
      modifies this, flock[k]
      ensures flock == old(flock) && goalLastChanged == old(goalLastChanged)
      ensures (Snapshot(es), goal) == plan[k + 1]
    {
      PlanNext(plan, t0, order, members, start, k, range, minimumPosition, maximumPosition, draws, sqrt);
      UpdateBoid(es, order, k, range, draws[k], sqrt);
    }
  }
}
