/**
 * BoidFlock's rules on values. A flock is a list of living beings (their
 * uuids, `members`, in list order); the rules read the members' bodies in
 * that order, `bs`, and the index `i` of the boid being updated. Members
 * are told apart by identity, which for distinct members is their index.
 *
 * `FlockPrefix` is the loop of simulateFlock: the members are updated one
 * after another, each reading the table as the earlier updates left it.
 */
module Flocking {
  import opened Wrappers
  import opened Vectors
  import opened Entities
  import opened Numerics

  // The constants the BoidFlock constructor assigns.
  const CentreOfMassFactor := 1.0
  const MinimumBoidDistance := 300.0
  const FlockBoundingConstant := 150.0
  const FlockMaxSpeed := 1.5

  /** Obstacles nearer than this are avoided. */
  const AvoidRadius := 50.0
  /** The flock goal is redrawn when more than this many milliseconds have passed. */
  const GoalInterval := 1000

  /**
   * The draws of one boid's update: the nextInt(5) weight of the alignment
   * rule, and meanderingRule's nextInt(10), nextInt(10) and nextInt(100).
   */
  datatype BoidDraws = BoidDraws(weight: int, meanderX: int, meanderY: int, inversion: int)

  /** What simulateFlock reads before its loop: two clock readings and the flock goal draws. */
  datatype FlockDraws = FlockDraws(checkTime: int, stampTime: int, goalX: int, goalY: int)

  /** The flock's own state: the shared goal and when it was last redrawn. */
  datatype FlockState = FlockState(goal: Vector2, goalLastChanged: int)

  /** The members' bodies, in list order. */
  function MembersOf(t: Table, members: seq<Uuid>): (bs: seq<Body>)
    requires forall k :: 0 <= k < |members| ==> members[k] in t
    ensures |bs| == |members| && forall k :: 0 <= k < |members| ==> bs[k] == t[members[k]]
  {
    seq(|members|, k requires 0 <= k < |members| => t[members[k]])
  }

  predicate HasVelocities(bs: seq<Body>) {
    forall k :: 0 <= k < |bs| ==> bs[k].velocity.Some?
  }

  function Positions(bs: seq<Body>): (ps: seq<Vector2>)
    ensures |ps| == |bs| && forall k :: 0 <= k < |bs| ==> ps[k] == bs[k].position
  {
    seq(|bs|, k requires 0 <= k < |bs| => bs[k].position)
  }

  function Velocities(bs: seq<Body>): (vs: seq<Vector2>)
    requires HasVelocities(bs)
    ensures |vs| == |bs| && forall k :: 0 <= k < |bs| ==> vs[k] == bs[k].velocity.value
  {
    seq(|bs|, k requires 0 <= k < |bs| => bs[k].velocity.value)
  }

  /** The vectors added up from the left, starting from the zero vector. */
  function Sum(vs: seq<Vector2>): Vector2
    decreases |vs|
  {
    if |vs| == 0 then Zero else Sum(vs[..|vs| - 1]).Add(vs[|vs| - 1])
  }

  /** The loop of centreOfMassRule and normaliseVelocityRule: every vector but the one at index i. */
  function SumExcept(vs: seq<Vector2>, i: int): Vector2
    decreases |vs|
  {
    if |vs| == 0 then Zero
    else if |vs| - 1 == i then SumExcept(vs[..|vs| - 1], i)
    else SumExcept(vs[..|vs| - 1], i).Add(vs[|vs| - 1])
  }

  /** Leaving index i out of the sum is subtracting it from the total. */
  lemma {:induction false} SumExceptIsSumMinus(vs: seq<Vector2>, i: int)
    requires 0 <= i < |vs|
    ensures SumExcept(vs, i) == Sum(vs).Subtract(vs[i])
    decreases |vs|
  {
    var n := |vs| - 1;
    if i < n {
      SumExceptIsSumMinus(vs[..n], i);
    } else {
      assert SumExcept(vs[..n], i) == Sum(vs[..n]) by {
        SumExceptOutside(vs[..n], i);
      }
    }
  }

  /** An index outside the sequence leaves nothing out. */
  lemma {:induction false} SumExceptOutside(vs: seq<Vector2>, i: int)
    requires i < 0 || |vs| <= i
    ensures SumExcept(vs, i) == Sum(vs)
    decreases |vs|
  {
    if |vs| > 0 {
      SumExceptOutside(vs[..|vs| - 1], i);
    }
  }

  /** n copies of p add up to n p. */
  lemma {:induction false} SumOfCopies(vs: seq<Vector2>, p: Vector2)
    requires forall k :: 0 <= k < |vs| ==> vs[k] == p
    ensures Sum(vs) == Vector2(Mul(p.x, |vs| as real), Mul(p.y, |vs| as real))
    decreases |vs|
  {
    if |vs| > 0 {
      var n := |vs| - 1;
      SumOfCopies(vs[..n], p);
      MulDistributesOverDifference(n as real + 1.0, 1.0, p.x);
      MulDistributesOverDifference(n as real + 1.0, 1.0, p.y);
      MulCommutes(p.x, n as real);
      MulCommutes(p.x, n as real + 1.0);
      MulCommutes(p.y, n as real);
      MulCommutes(p.y, n as real + 1.0);
      MulCommutes(1.0, p.x);
      MulCommutes(1.0, p.y);
      MulOne(p.x);
      MulOne(p.y);
    }
  }

  /**
   * centreOfMassRule: the mean of the other members' positions, divided by
   * 1000 and multiplied by the movement factor 1. A flock of one member
   * divides by zero, so the flock must have at least two.
   */
  function CentreOfMass(bs: seq<Body>, i: nat): Vector2
    requires 2 <= |bs| && i < |bs|
  {
    SumExcept(Positions(bs), i).ScalarDivide((|bs| - 1) as real).ScalarDivide(1000.0)
      .ScalarMultiply(CentreOfMassFactor)
  }

  /** When all the other members stand at p, the rule points at p / 1000. */
  lemma {:induction false} CentreOfMassOfGathered(bs: seq<Body>, i: nat, p: Vector2)
    requires 2 <= |bs| && i < |bs|
    requires forall k :: 0 <= k < |bs| && k != i ==> bs[k].position == p
    ensures CentreOfMass(bs, i) == p.ScalarDivide(1000.0)
  {
    var ps := Positions(bs);
    var others := ps[i := p];
    assert forall k :: 0 <= k < |others| ==> others[k] == p;
    SumOfCopies(others, p);
    SumExceptIsSumMinus(others, i);
    SumExceptAgrees(ps, others, i);
    var n := (|bs| - 1) as real;
    var s := SumExcept(ps, i);
    MulDistributesOverDifference(p.x, 0.0, |bs| as real);
    assert s.x == Mul(p.x, n + 1.0) - p.x;
    assert s.x / n == p.x by {
      MulCommutes(p.x, n + 1.0);
      DistributeOne(p.x, n);
    }
    assert s.y / n == p.y by {
      MulCommutes(p.y, n + 1.0);
      DistributeOne(p.y, n);
    }
    MulOne(p.x / 1000.0);
    MulOne(p.y / 1000.0);
  }

  /** (n + 1) a - a == n a, and dividing that by n != 0 gives back a. */
  lemma {:induction false} DistributeOne(a: real, n: real)
    requires n != 0.0
    ensures (Mul(n + 1.0, a) - a) / n == a
  {
    MulDistributesOverDifference(n + 1.0, 1.0, a);
    MulCommutes(1.0, a);
    MulOne(a);
    MulCommutes(n, a);
    DivideMoves(a, n, n);
    assert Mul(n + 1.0, a) - a == Mul(n, a);
    assert Mul(a, n) / n == a;
  }

  /** SumExcept reads every vector but the one at index i. */
  lemma {:induction false} SumExceptAgrees(vs: seq<Vector2>, ws: seq<Vector2>, i: int)
    requires |vs| == |ws| && forall k :: 0 <= k < |vs| && k != i ==> vs[k] == ws[k]
    ensures SumExcept(vs, i) == SumExcept(ws, i)
    decreases |vs|
  {
    if |vs| > 0 {
      SumExceptAgrees(vs[..|vs| - 1], ws[..|ws| - 1], i);
    }
  }

  /**
   * normaliseVelocityRule: (the mean of the other members' velocities minus
   * the boid's own) / 32. Needs at least two members, as above.
   */
  function NormaliseVelocity(bs: seq<Body>, i: nat): Vector2
    requires 2 <= |bs| && i < |bs| && HasVelocities(bs)
  {
    SumExcept(Velocities(bs), i).ScalarDivide((|bs| - 1) as real)
      .Subtract(bs[i].velocity.value).ScalarDivide(32.0)
  }

  /** A flock that already moves as one gets no alignment correction. */
  lemma {:induction false} AlignedFlockUncorrected(bs: seq<Body>, i: nat)
    requires 2 <= |bs| && i < |bs| && HasVelocities(bs)
    requires forall k :: 0 <= k < |bs| ==> bs[k].velocity == bs[i].velocity
    ensures NormaliseVelocity(bs, i) == Zero
  {
    var vs := Velocities(bs);
    var v := bs[i].velocity.value;
    assert forall k :: 0 <= k < |vs| ==> vs[k] == v;
    SumOfCopies(vs, v);
    SumExceptIsSumMinus(vs, i);
    var n := (|bs| - 1) as real;
    var s := SumExcept(vs, i);
    assert s.x / n == v.x by {
      MulCommutes(v.x, n + 1.0);
      DistributeOne(v.x, n);
    }
    assert s.y / n == v.y by {
      MulCommutes(v.y, n + 1.0);
      DistributeOne(v.y, n);
    }
  }

  /** The loop of maintainDistanceRule over the first n members. */
  function Separation(bs: seq<Body>, i: nat, n: nat, sqrt: real -> real): Vector2
    requires i < |bs| && n <= |bs|
    decreases n
  {
    if n == 0 then Zero
    else
      var offset := Separation(bs, i, n - 1, sqrt);
      var e := bs[n - 1];
      if n - 1 != i && Magnitude(e.position.Subtract(bs[i].position), sqrt) < MinimumBoidDistance then
        offset.Subtract(e.position.Subtract(bs[i].position))
      else offset
  }

  /**
   * maintainDistanceRule: the sum of (boid - other) over the other members
   * strictly nearer than 300.
   */
  function MaintainDistance(bs: seq<Body>, i: nat, sqrt: real -> real): Vector2
    requires i < |bs|
  {
    Separation(bs, i, |bs|, sqrt)
  }

  /** With no other member nearer than 300 the rule is the zero vector. */
  lemma {:induction false} SeparationOfIsolated(bs: seq<Body>, i: nat, n: nat, sqrt: real -> real)
    requires i < |bs| && n <= |bs|
    requires forall k :: 0 <= k < |bs| && k != i ==>
      Magnitude(bs[k].position.Subtract(bs[i].position), sqrt) >= MinimumBoidDistance
    ensures Separation(bs, i, n, sqrt) == Zero
    decreases n
  {
    if n > 0 {
      SeparationOfIsolated(bs, i, n - 1, sqrt);
    }
  }

  /**
   * Only other members strictly within 300 count: swapping a member for one
   * at another position, both at or beyond 300, or changing anything of the
   * boid's own entry but its position, leaves the rule unchanged.
   */
  lemma {:induction false} SeparationIgnoresFar(bs: seq<Body>, cs: seq<Body>, i: nat, n: nat, sqrt: real -> real)
    requires |bs| == |cs| && i < |bs| && n <= |bs| && cs[i].position == bs[i].position
    requires forall k :: 0 <= k < |bs| && k != i ==>
      cs[k].position == bs[k].position ||
      (Magnitude(bs[k].position.Subtract(bs[i].position), sqrt) >= MinimumBoidDistance &&
       Magnitude(cs[k].position.Subtract(bs[i].position), sqrt) >= MinimumBoidDistance)
    ensures Separation(cs, i, n, sqrt) == Separation(bs, i, n, sqrt)
    decreases n
  {
    if n > 0 {
      SeparationIgnoresFar(bs, cs, i, n - 1, sqrt);
    }
  }

  /** Shifting the whole flock by c changes no relative position, so the rule stays the same. */
  lemma {:induction false} SeparationShifted(bs: seq<Body>, cs: seq<Body>, c: Vector2, i: nat, n: nat,
                                             sqrt: real -> real)
    requires |bs| == |cs| && i < |bs| && n <= |bs|
    requires forall k :: 0 <= k < |bs| ==> cs[k].position == bs[k].position.Add(c)
    ensures Separation(cs, i, n, sqrt) == Separation(bs, i, n, sqrt)
    decreases n
  {
    if n > 0 {
      SeparationShifted(bs, cs, c, i, n - 1, sqrt);
      var k := n - 1;
      assert cs[k].position.Subtract(cs[i].position) == bs[k].position.Subtract(bs[i].position);
    }
  }

  /** boundingRule: 150 back toward the inside on every axis where the boid is out of bounds. */
  function Bounding(b: Body, minP: Vector2, maxP: Vector2): (r: Vector2)
    ensures b.position.x < minP.x ==> r.x == FlockBoundingConstant
    ensures minP.x <= b.position.x <= maxP.x ==> r.x == 0.0
    ensures minP.x <= b.position.x && maxP.x < b.position.x ==> r.x == -FlockBoundingConstant
    ensures b.position.y < minP.y ==> r.y == FlockBoundingConstant
    ensures minP.y <= b.position.y <= maxP.y ==> r.y == 0.0
    ensures minP.y <= b.position.y && maxP.y < b.position.y ==> r.y == -FlockBoundingConstant
  {
    BoundingOffset(b.position, minP, maxP, FlockBoundingConstant)
  }

  /** Inside the bounds the bounding rule does nothing. */
  lemma {:induction false} BoundingInside(b: Body, minP: Vector2, maxP: Vector2)
    requires minP.x <= b.position.x <= maxP.x && minP.y <= b.position.y <= maxP.y
    ensures Bounding(b, minP, maxP) == Zero
  {
  }

  /** An obstacle strictly within 50 of p. */
  predicate NearObstacle(e: Body, p: Vector2, sqrt: real -> real) {
    e.kind == ObstacleKind && Distance(e.position, p, sqrt) < AvoidRadius
  }

  /**
   * The running minimum of avoidObstaclesRule's loop over the world's
   * entities: the index of the first obstacle strictly within 50 at the
   * least distance from p, or None.
   */
  function NearestObstacle(p: Vector2, scene: seq<Body>, sqrt: real -> real): (r: Option<nat>)
    ensures r.Some? ==> (r.value < |scene| && NearObstacle(scene[r.value], p, sqrt))
    decreases |scene|
  {
    if |scene| == 0 then None
    else
      var last := |scene| - 1;
      var prior := NearestObstacle(p, scene[..last], sqrt);
      var d := Distance(scene[last].position, p, sqrt);
      if scene[last].kind == ObstacleKind && d < AvoidRadius &&
         (prior.None? || d < Distance(scene[prior.value].position, p, sqrt))
      then Some(last)
      else prior
  }

  /**
   * The running minimum finds the nearest obstacle within 50, the first of
   * them on a tie, and finds none exactly when there is none.
   */
  lemma {:induction false} NearestObstacleIsNearest(p: Vector2, scene: seq<Body>, sqrt: real -> real)
    ensures var r := NearestObstacle(p, scene, sqrt);
      (r.None? <==> forall j :: 0 <= j < |scene| ==> !NearObstacle(scene[j], p, sqrt)) &&
      (r.Some? ==> forall j :: 0 <= j < |scene| && NearObstacle(scene[j], p, sqrt) ==>
         Distance(scene[r.value].position, p, sqrt) <= Distance(scene[j].position, p, sqrt)) &&
      (r.Some? ==> forall j :: 0 <= j < r.value && NearObstacle(scene[j], p, sqrt) ==>
         Distance(scene[r.value].position, p, sqrt) < Distance(scene[j].position, p, sqrt))
    decreases |scene|
  {
    if |scene| > 0 {
      var last := |scene| - 1;
      NearestObstacleIsNearest(p, scene[..last], sqrt);
      forall j | 0 <= j < last ensures scene[..last][j] == scene[j] { }
    }
  }

  /** avoidObstaclesRule: (nearest obstacle - boid) * -1, or the zero vector. */
  function Avoid(p: Vector2, scene: seq<Body>, sqrt: real -> real): Vector2 {
    var nearest := NearestObstacle(p, scene, sqrt);
    if nearest.Some? then scene[nearest.value].position.Subtract(p).ScalarMultiply(-1.0) else Zero
  }

  /** The avoidance vector points from the nearest obstacle to the boid; it is zero with none near. */
  lemma {:induction false} AvoidPointsAway(p: Vector2, scene: seq<Body>, sqrt: real -> real)
    ensures var nearest := NearestObstacle(p, scene, sqrt);
      (nearest.Some? ==> Avoid(p, scene, sqrt) == p.Subtract(scene[nearest.value].position)) &&
      (nearest.None? ==> Avoid(p, scene, sqrt) == Zero)
  {
  }

  /** Avoidance only looks at obstacles: two scenes with the same obstacles give the same vector. */
  lemma {:induction false} NearestObstacleSeesObstaclesOnly(p: Vector2, s1: seq<Body>, s2: seq<Body>, sqrt: real -> real)
    requires |s1| == |s2|
    requires forall k :: 0 <= k < |s1| ==> (s1[k].kind == ObstacleKind) == (s2[k].kind == ObstacleKind)
    requires forall k :: 0 <= k < |s1| && s1[k].kind == ObstacleKind ==> s1[k].position == s2[k].position
    ensures NearestObstacle(p, s1, sqrt) == NearestObstacle(p, s2, sqrt)
    ensures Avoid(p, s1, sqrt) == Avoid(p, s2, sqrt)
    decreases |s1|
  {
    if |s1| > 0 {
      NearestObstacleSeesObstaclesOnly(p, s1[..|s1| - 1], s2[..|s2| - 1], sqrt);
    }
  }

  /**
   * The meander vector before it is subtracted from the goal: the two
   * nextInt(10) draws, with x negated when 25 < inversion < 50, y negated
   * when inversion < 25, and both when 50 < inversion < 75.
   */
  function MeanderOffset(d: BoidDraws): (m: Vector2)
    ensures d.inversion < 25 ==> m == Vector2(d.meanderX as real, -(d.meanderY as real))
    ensures 25 < d.inversion < 50 ==> m == Vector2(-(d.meanderX as real), d.meanderY as real)
    ensures 50 < d.inversion < 75 ==> m == Vector2(-(d.meanderX as real), -(d.meanderY as real))
    ensures (d.inversion == 25 || d.inversion == 50 || d.inversion >= 75) ==>
      m == Vector2(d.meanderX as real, d.meanderY as real)
  {
    var m0 := Vector2(d.meanderX as real, d.meanderY as real);
    var m1 := if d.inversion > 25 && d.inversion < 50 then Vector2(m0.x * -1.0, m0.y) else m0;
    var m2 := if d.inversion < 25 then Vector2(m1.x, m1.y * -1.0) else m1;
    if d.inversion > 50 && d.inversion < 75 then Vector2(m2.x * -1.0, m2.y * -1.0) else m2
  }

  /** meanderingRule: goal - the meander offset, or the offset alone when the boid has no goal. */
  function Meander(goal: Option<Vector2>, d: BoidDraws): (r: Vector2)
    ensures goal.Some? ==> r.Add(MeanderOffset(d)) == goal.value
    ensures goal.None? ==> r == MeanderOffset(d)
  {
    if goal.Some? then goal.value.Subtract(MeanderOffset(d)) else MeanderOffset(d)
  }

  /** The meander offset stays within the nextInt(10) range on each axis. */
  lemma {:induction false} MeanderOffsetSmall(d: BoidDraws)
    requires 0 <= d.meanderX < 10 && 0 <= d.meanderY < 10
    ensures -10.0 < MeanderOffset(d).x < 10.0 && -10.0 < MeanderOffset(d).y < 10.0
    ensures Abs(MeanderOffset(d).x) == d.meanderX as real && Abs(MeanderOffset(d).y) == d.meanderY as real
  {
  }

  /**
   * randomPositionRule for the boid u: the flock goal becomes the position
   * of the food the boid smells, if any; the boid's goal is set to the
   * flock goal; the rule returns goal - position.
   */
  function RandomPosition(t: Table, order: seq<Uuid>, u: Uuid, goal: Vector2, range: int,
                          sqrt: real -> real): (r: (Vector2, Table, Vector2))
    requires (forall k :: 0 <= k < |order| ==> order[k] in t) && u in t
    ensures var smelled := Smell(t[u].position, SceneOf(t, order), range, sqrt);
      r.0 == (if smelled.Some? then SceneOf(t, order)[smelled.value].position else goal)
    ensures r.1 == t[u := t[u].(goal := Some(r.0))]
    ensures r.2.Add(t[u].position) == r.0
  {
    var scene := SceneOf(t, order);
    var smelled := Smell(t[u].position, scene, range, sqrt);
    var newGoal := if smelled.Some? then scene[smelled.value].position else goal;
    (newGoal, t[u := t[u].(goal := Some(newGoal))], newGoal.Subtract(t[u].position))
  }

  /** What updating the members needs: all in the table, distinct, beings with a velocity and a non-negative maximum speed. */
  predicate FlockReady(t: Table, members: seq<Uuid>) {
    (forall k :: 0 <= k < |members| ==> members[k] in t) &&
    (forall j, k :: 0 <= j < k < |members| ==> members[j] != members[k]) &&
    (forall k :: 0 <= k < |members| ==>
       t[members[k]].kind == BeingKind && t[members[k]].velocity.Some? && 0.0 <= t[members[k]].maxSpeed) &&
    |members| != 1
  }

  /** Setting a member's goal keeps the flock ready. */
  lemma {:induction false} GoalKeepsReady(t: Table, members: seq<Uuid>, u: Uuid, g: Vector2)
    requires FlockReady(t, members) && u in t
    ensures FlockReady(t[u := t[u].(goal := Some(g))], members)
  {
  }

  /** The velocity simulateFlock stores: setVelocity, then the speed limitation rule through setVelocity again. */
  function Limited(sum: Vector2, maxSpeed: real, sqrt: real -> real): (v: Vector2)
    requires IsSqrt(sqrt) && 0.0 <= maxSpeed
    ensures Magnitude(v, sqrt) <= FlockMaxSpeed && Magnitude(v, sqrt) <= maxSpeed
    ensures Magnitude(sum, sqrt) <= FlockMaxSpeed && Magnitude(sum, sqrt) <= maxSpeed ==> v == sum
  {
    var stored := ClampSpeed(sum, maxSpeed, sqrt);
    var limited := ClampSpeed(stored, FlockMaxSpeed, sqrt);
    ClampSpeed(limited, maxSpeed, sqrt)
  }

  /**
   * t2 is t after boid u's update: nothing else is touched, and u has
   * stepped by its new velocity, within both speed limits, with a goal;
   * only its velocity, position and goal have changed.
   */
  predicate Stepped(t: Table, t2: Table, u: Uuid, sqrt: real -> real) {
    u in t && t2.Keys == t.Keys && (forall v :: v in t && v != u ==> t2[v] == t[v]) &&
    var b := t2[u];
    b == t[u].(velocity := b.velocity, position := b.position, goal := b.goal) &&
    b.velocity.Some? && b.position == t[u].position.Add(b.velocity.value) && b.goal.Some? &&
    Magnitude(b.velocity.value, sqrt) <= FlockMaxSpeed && Magnitude(b.velocity.value, sqrt) <= b.maxSpeed
  }

  /** The rules read before randomPositionRule: centre of mass scaled by 0, bounding, alignment scaled by the weight draw. */
  function RulesBefore(bs: seq<Body>, i: nat, minP: Vector2, maxP: Vector2, d: BoidDraws): (Vector2, Vector2, Vector2)
    requires 2 <= |bs| && i < |bs| && HasVelocities(bs)
  {
    (CentreOfMass(bs, i).ScalarMultiply(0.0), Bounding(bs[i], minP, maxP),
     NormaliseVelocity(bs, i).ScalarMultiply(d.weight as real))
  }

  /** The rules read after it, for boid i of bs: obstacle avoidance in the scene, meandering, separation scaled by 1. */
  function RulesAfter(bs: seq<Body>, i: nat, scene: seq<Body>, d: BoidDraws, sqrt: real -> real): (Vector2, Vector2, Vector2)
    requires i < |bs|
  {
    (Avoid(bs[i].position, scene, sqrt), Meander(bs[i].goal, d), MaintainDistance(bs, i, sqrt).ScalarMultiply(1.0))
  }

  /**
   * The seven rule vectors of one iteration of simulateFlock's loop, added
   * to the member's velocity in the order the Java adds them.
   * `rp` is the result of randomPositionRule, which the later rules read.
   */
  function SteeringSum(t: Table, order: seq<Uuid>, members: seq<Uuid>, i: nat, rp: (Vector2, Table, Vector2),
                       minP: Vector2, maxP: Vector2, d: BoidDraws, sqrt: real -> real): Vector2
    requires FlockReady(t, members) && i < |members| && rp.1.Keys == t.Keys
    requires forall k :: 0 <= k < |order| ==> order[k] in t
  {
    var before := RulesBefore(MembersOf(t, members), i, minP, maxP, d);
    var after := RulesAfter(MembersOf(rp.1, members), i, SceneOf(rp.1, order), d, sqrt);
    t[members[i]].velocity.value.Add(before.0).Add(before.1).Add(after.1).Add(rp.2)
      .Add(before.2).Add(after.0).Add(after.2)
  }

  /**
   * One iteration of simulateFlock's loop, for the member at index i: the
   * rule vectors are added to the velocity, the result is limited, and the
   * boid steps by it. Also returns the new flock goal.
   */
  function BoidUpdate(t: Table, order: seq<Uuid>, members: seq<Uuid>, i: nat, goal: Vector2,
                      range: int, minP: Vector2, maxP: Vector2, d: BoidDraws, sqrt: real -> real): (r: (Table, Vector2))
    requires IsSqrt(sqrt) && FlockReady(t, members) && i < |members|
    requires forall k :: 0 <= k < |order| ==> order[k] in t
    ensures Stepped(t, r.0, members[i], sqrt) && r.0[members[i]].goal == Some(r.1)
  {
    var u := members[i];
    var b := t[u];
    var rp := RandomPosition(t, order, u, goal, range, sqrt);
    var v := Limited(SteeringSum(t, order, members, i, rp, minP, maxP, d, sqrt), b.maxSpeed, sqrt);
    (rp.1[u := rp.1[u].(velocity := Some(v), position := b.position.Add(v))], rp.0)
  }

  /**
   * The centre-of-mass term contributes nothing to the velocity, since
   * simulateFlock multiplies it by 0.
   */
  lemma {:induction false} CentreOfMassCancelled(bs: seq<Body>, i: nat)
    requires 2 <= |bs| && i < |bs|
    ensures CentreOfMass(bs, i).ScalarMultiply(0.0) == Zero
  {
    MultiplyByZero(CentreOfMass(bs, i));
  }

  /**
   * How member b0 may have changed into b by the flock's loop: not yet
   * updated, it is unchanged; updated, it has stepped by its new velocity,
   * within both speed limits, and carries a goal.
   */
  predicate Flew(b0: Body, b: Body, updated: bool, sqrt: real -> real) {
    if !updated then b == b0
    else
      b == b0.(velocity := b.velocity, position := b.position, goal := b.goal) &&
      b.velocity.Some? && b.position == b0.position.Add(b.velocity.value) && b.goal.Some? &&
      Magnitude(b.velocity.value, sqrt) <= FlockMaxSpeed && Magnitude(b.velocity.value, sqrt) <= b0.maxSpeed
  }

  /** The loop invariant of simulateFlock after k updates. */
  predicate FlownSoFar(t0: Table, t: Table, members: seq<Uuid>, k: nat, sqrt: real -> real)
    requires k <= |members|
  {
    t.Keys == t0.Keys &&
    (forall v :: v in t0 && v !in members ==> t[v] == t0[v]) &&
    forall j :: 0 <= j < |members| && members[j] in t0 ==> Flew(t0[members[j]], t[members[j]], j < k, sqrt)
  }

  /** The first k iterations of simulateFlock's loop; returns the table and the flock goal. */
  function FlockPrefix(t0: Table, order: seq<Uuid>, members: seq<Uuid>, goal: Vector2, k: nat,
                       range: int, minP: Vector2, maxP: Vector2, draws: seq<BoidDraws>,
                       sqrt: real -> real): (r: (Table, Vector2))
    requires IsSqrt(sqrt) && FlockReady(t0, members) && k <= |members| && |draws| == |members|
    requires forall j :: 0 <= j < |order| ==> order[j] in t0
    ensures FlownSoFar(t0, r.0, members, k, sqrt)
    ensures k > 0 ==> r.0[members[k - 1]].goal == Some(r.1)
    decreases k, 0
  {
    if k == 0 then (t0, goal)
    else Iteration(t0, order, members, goal, k - 1, range, minP, maxP, draws, sqrt)
  }

  /** Iteration j of simulateFlock's loop: member j's update on what the first j iterations left. */
  function Iteration(t0: Table, order: seq<Uuid>, members: seq<Uuid>, goal: Vector2, j: nat,
                     range: int, minP: Vector2, maxP: Vector2, draws: seq<BoidDraws>,
                     sqrt: real -> real): (r: (Table, Vector2))
    requires IsSqrt(sqrt) && FlockReady(t0, members) && j < |members| && |draws| == |members|
    requires forall i :: 0 <= i < |order| ==> order[i] in t0
    ensures FlownSoFar(t0, r.0, members, j + 1, sqrt) && r.0[members[j]].goal == Some(r.1)
    decreases j, 1
  {
    var prior := FlockPrefix(t0, order, members, goal, j, range, minP, maxP, draws, sqrt);
    FlockReadyKept(t0, prior.0, members, j, sqrt);
    FlewUpdate(t0, prior.0, order, members, j, prior.1, range, minP, maxP, draws[j], sqrt);
    BoidUpdate(prior.0, order, members, j, prior.1, range, minP, maxP, draws[j], sqrt)
  }

  /** Iteration k is member k's update on what the first k iterations left. */
  lemma {:induction false} IterationUpdates(t0: Table, order: seq<Uuid>, members: seq<Uuid>, goal: Vector2, k: nat,
                         range: int, minP: Vector2, maxP: Vector2, draws: seq<BoidDraws>, sqrt: real -> real)
    requires IsSqrt(sqrt) && FlockReady(t0, members) && k < |members| && |draws| == |members|
    requires forall j :: 0 <= j < |order| ==> order[j] in t0
    ensures var prior := FlockPrefix(t0, order, members, goal, k, range, minP, maxP, draws, sqrt);
      FlockReady(prior.0, members) && (forall j :: 0 <= j < |order| ==> order[j] in prior.0) &&
      Iteration(t0, order, members, goal, k, range, minP, maxP, draws, sqrt) ==
      BoidUpdate(prior.0, order, members, k, prior.1, range, minP, maxP, draws[k], sqrt)
  {
    var prior := FlockPrefix(t0, order, members, goal, k, range, minP, maxP, draws, sqrt);
    FlockReadyKept(t0, prior.0, members, k, sqrt);
  }

  /** The loop's next iteration: the flock is still ready, and member k is updated on what the first k left. */
  lemma {:induction false} FlockPrefixNext(t0: Table, order: seq<Uuid>, members: seq<Uuid>, goal: Vector2, k: nat,
                        range: int, minP: Vector2, maxP: Vector2, draws: seq<BoidDraws>, sqrt: real -> real)
    requires IsSqrt(sqrt) && FlockReady(t0, members) && k < |members| && |draws| == |members|
    requires forall j :: 0 <= j < |order| ==> order[j] in t0
    ensures var prior := FlockPrefix(t0, order, members, goal, k, range, minP, maxP, draws, sqrt);
      FlockReady(prior.0, members) && (forall j :: 0 <= j < |order| ==> order[j] in prior.0) &&
      FlockPrefix(t0, order, members, goal, k + 1, range, minP, maxP, draws, sqrt) ==
      BoidUpdate(prior.0, order, members, k, prior.1, range, minP, maxP, draws[k], sqrt)
  {
    IterationUpdates(t0, order, members, goal, k, range, minP, maxP, draws, sqrt);
  }

  /**
   * `plan` lists the tables and flock goals of simulateFlock's loop after 0,
   * 1, ... |members| iterations. A loop that follows it compares its state
   * with one entry at a time.
   */
  ghost predicate Planned(plan: seq<(Table, Vector2)>, t0: Table, order: seq<Uuid>, members: seq<Uuid>,
                          goal: Vector2, range: int, minP: Vector2, maxP: Vector2, draws: seq<BoidDraws>,
                          sqrt: real -> real) {
    IsSqrt(sqrt) && FlockReady(t0, members) && |draws| == |members| &&
    (forall j :: 0 <= j < |order| ==> order[j] in t0) && |plan| == |members| + 1 && plan[0] == (t0, goal) &&
    forall j {:trigger FlockPrefix(t0, order, members, goal, j, range, minP, maxP, draws, sqrt)} ::
      0 <= j <= |members| ==> plan[j] == FlockPrefix(t0, order, members, goal, j, range, minP, maxP, draws, sqrt)
  }

  /** The plan of simulateFlock's loop from t0 and the goal. */
  ghost function PlanOf(t0: Table, order: seq<Uuid>, members: seq<Uuid>, goal: Vector2, range: int,
                        minP: Vector2, maxP: Vector2, draws: seq<BoidDraws>, sqrt: real -> real)
    : (plan: seq<(Table, Vector2)>)
    requires IsSqrt(sqrt) && FlockReady(t0, members) && |draws| == |members|
    requires forall j :: 0 <= j < |order| ==> order[j] in t0
    ensures Planned(plan, t0, order, members, goal, range, minP, maxP, draws, sqrt)
  {
    seq(|members| + 1, j requires 0 <= j <= |members| =>
        FlockPrefix(t0, order, members, goal, j, range, minP, maxP, draws, sqrt))
  }

  /** The plan's next entry is member k's update on the entry before it. */
  lemma {:induction false} PlanNext(plan: seq<(Table, Vector2)>, t0: Table, order: seq<Uuid>, members: seq<Uuid>, goal: Vector2,
                 k: nat, range: int, minP: Vector2, maxP: Vector2, draws: seq<BoidDraws>, sqrt: real -> real)
    requires Planned(plan, t0, order, members, goal, range, minP, maxP, draws, sqrt) && k < |members|
    ensures FlockReady(plan[k].0, members) && (forall j :: 0 <= j < |order| ==> order[j] in plan[k].0)
    ensures plan[k + 1] == BoidUpdate(plan[k].0, order, members, k, plan[k].1, range, minP, maxP, draws[k], sqrt)
  {
    assert plan[k] == FlockPrefix(t0, order, members, goal, k, range, minP, maxP, draws, sqrt);
    assert plan[k + 1] == FlockPrefix(t0, order, members, goal, k + 1, range, minP, maxP, draws, sqrt);
    FlockPrefixNext(t0, order, members, goal, k, range, minP, maxP, draws, sqrt);
  }

  /** Updating members keeps the flock ready: the velocities stay present and the table keeps its keys. */
  lemma {:induction false} FlockReadyKept(t0: Table, t: Table, members: seq<Uuid>, k: nat, sqrt: real -> real)
    requires FlockReady(t0, members) && k <= |members|
    requires FlownSoFar(t0, t, members, k, sqrt)
    ensures FlockReady(t, members)
  {
    forall j | 0 <= j < |members|
      ensures t[members[j]].kind == BeingKind && t[members[j]].velocity.Some? && 0.0 <= t[members[j]].maxSpeed
    {
      assert Flew(t0[members[j]], t[members[j]], j < k, sqrt);
    }
  }

  /** Updating member k extends the invariant to k + 1 members. */
  lemma {:induction false} FlewUpdate(t0: Table, t: Table, order: seq<Uuid>, members: seq<Uuid>, k: nat, goal: Vector2,
                   range: int, minP: Vector2, maxP: Vector2, d: BoidDraws, sqrt: real -> real)
    requires IsSqrt(sqrt) && FlockReady(t0, members) && FlockReady(t, members) && k < |members|
    requires forall j :: 0 <= j < |order| ==> order[j] in t
    requires FlownSoFar(t0, t, members, k, sqrt)
    ensures var r := BoidUpdate(t, order, members, k, goal, range, minP, maxP, d, sqrt);
      FlownSoFar(t0, r.0, members, k + 1, sqrt) && r.0[members[k]].goal == Some(r.1)
  {
    var r := BoidUpdate(t, order, members, k, goal, range, minP, maxP, d, sqrt);
    FlewStep(t0, t, r.0, members, k, sqrt);
  }

  /** One more update extends the invariant to k + 1 members. */
  lemma {:induction false} FlewStep(t0: Table, t: Table, t2: Table, members: seq<Uuid>, k: nat, sqrt: real -> real)
    requires FlockReady(t0, members) && k < |members|
    requires FlownSoFar(t0, t, members, k, sqrt)
    requires Stepped(t, t2, members[k], sqrt)
    ensures FlownSoFar(t0, t2, members, k + 1, sqrt)
  {
    assert Flew(t0[members[k]], t[members[k]], false, sqrt);
    forall j | 0 <= j < |members| && j != k
      ensures Flew(t0[members[j]], t2[members[j]], j < k + 1, sqrt)
    {
      assert members[j] != members[k];
      assert Flew(t0[members[j]], t[members[j]], j < k, sqrt);
    }
  }

  /** The goal redraw at the start of simulateFlock: a new goal when more than 1000 ms have passed. */
  function Redrawn(s: FlockState, fd: FlockDraws): FlockState {
    if fd.checkTime - s.goalLastChanged > GoalInterval
    then FlockState(Vector2(fd.goalX as real, fd.goalY as real), fd.stampTime)
    else s
  }

  /**
   * simulateFlock: the flock goal is redrawn when more than 1000 ms have
   * passed, then every member is updated in list order.
   */
  function SimulateFlock(t0: Table, order: seq<Uuid>, members: seq<Uuid>, s: FlockState, fd: FlockDraws,
                         range: int, minP: Vector2, maxP: Vector2, draws: seq<BoidDraws>,
                         sqrt: real -> real): (r: (Table, FlockState))
    requires IsSqrt(sqrt) && FlockReady(t0, members) && |draws| == |members|
    requires forall j :: 0 <= j < |order| ==> order[j] in t0
    ensures FlownSoFar(t0, r.0, members, |members|, sqrt)
    ensures fd.checkTime - s.goalLastChanged > GoalInterval ==> r.1.goalLastChanged == fd.stampTime
    ensures fd.checkTime - s.goalLastChanged <= GoalInterval ==> r.1.goalLastChanged == s.goalLastChanged
    ensures |members| == 0 ==>
              r.0 == t0 &&
              r.1.goal == (if fd.checkTime - s.goalLastChanged > GoalInterval
                           then Vector2(fd.goalX as real, fd.goalY as real) else s.goal)
  {
    var s1 := Redrawn(s, fd);
    var r := FlockPrefix(t0, order, members, s1.goal, |members|, range, minP, maxP, draws, sqrt);
    (r.0, s1.(goal := r.1))
  }

  /**
   * After simulateFlock, every member has moved by exactly its new velocity,
   * which is within 1.5 and within its own maximum speed; entities outside
   * the flock are untouched; membership and the table's keys are unchanged.
   */
  lemma {:induction false} FlockEffects(t0: Table, order: seq<Uuid>, members: seq<Uuid>, s: FlockState, fd: FlockDraws,
                     range: int, minP: Vector2, maxP: Vector2, draws: seq<BoidDraws>,
                     sqrt: real -> real, j: nat)
    requires IsSqrt(sqrt) && FlockReady(t0, members) && |draws| == |members|
    requires forall k :: 0 <= k < |order| ==> order[k] in t0
    requires j < |members|
    ensures var r := SimulateFlock(t0, order, members, s, fd, range, minP, maxP, draws, sqrt).0;
      var b0 := t0[members[j]]; var b := r[members[j]];
      r.Keys == t0.Keys &&
      b.velocity.Some? && b.position == b0.position.Add(b.velocity.value) &&
      Magnitude(b.velocity.value, sqrt) <= FlockMaxSpeed && Magnitude(b.velocity.value, sqrt) <= b0.maxSpeed &&
      b == b0.(velocity := b.velocity, position := b.position, goal := b.goal)
  {
    var r := SimulateFlock(t0, order, members, s, fd, range, minP, maxP, draws, sqrt).0;
    assert Flew(t0[members[j]], r[members[j]], j < |members|, sqrt);
  }
}
