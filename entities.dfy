/**
 * The simulator's entities: the abstract Entity and its subclasses Food,
 * Obstacle and LivingBeing.
 *
 * Java's class hierarchy becomes one class `Entity` with a constant `kind`
 * saying which subclass an object belongs to; the fields of all three
 * subclasses live on it. `Body` is a value snapshot of every field, and the
 * pure functions of this module (the velocity clamp, the nearest-food
 * search, the step toward food) are stated on bodies. The methods of
 * `Entity` change the object and are proved against those functions.
 *
 * The back-reference `world` is not a field: the entities of the world, in
 * the world map's iteration order, are passed to the members that read
 * them as `scene`, and the world bounds as vectors.
 */
module Entities {
  import opened Wrappers
  import opened Vectors

  /** java.util.UUID; fresh values are supplied by the caller. */
  type Uuid = nat

  datatype Kind = FoodKind | ObstacleKind | BeingKind

  /** Every field of an entity, as a value (Entity, Food and LivingBeing fields together). */
  datatype Body = Body(
    uuid: Uuid,
    kind: Kind,
    position: Vector2,
    velocity: Option<Vector2>,   // None: the Java field was never assigned (null)
    energy: real,
    id: int,
    energyDepletionValue: real,
    consumptionEfficiency: real,
    spriteName: string,
    maxSpeed: real,
    boundingConstant: real,
    poisonous: bool,             // Food only
    species: Option<string>,     // LivingBeing only; None is Java's null
    carnivore: bool,             // LivingBeing only
    dead: bool,                  // LivingBeing only
    flock: bool,                 // LivingBeing only
    goal: Option<Vector2>,       // LivingBeing only
    goalLastSetMillis: int,      // LivingBeing only
    lastRandomMovement: int,     // LivingBeing only
    attackValue: real)           // LivingBeing only

  /** The world's entity map, as values. */
  type Table = map<Uuid, Body>

  /** `order` lists every key of `keys` exactly once: the iteration order of the HashMap. */
  predicate IsOrder(order: seq<Uuid>, keys: set<Uuid>) {
    (forall i, j :: 0 <= i < j < |order| ==> order[i] != order[j]) &&
    (forall i :: 0 <= i < |order| ==> order[i] in keys) &&
    (forall u :: u in keys ==> u in order)
  }

  /** entities.values(), in the iteration order: as bodies of a table, or as the entity objects. */
  function SceneOf<V>(t: map<Uuid, V>, order: seq<Uuid>): (r: seq<V>)
    requires forall i :: 0 <= i < |order| ==> order[i] in t
    ensures |r| == |order| && forall i :: 0 <= i < |order| ==> r[i] == t[order[i]]
  {
    seq(|order|, i requires 0 <= i < |order| => t[order[i]])
  }

  // Defaults assigned by the no-argument Entity() constructor, which every
  // subclass constructor runs first.
  const DefaultSprite := "objects/pin.png"
  const DefaultEnergy := 100.0
  const DefaultId := 1
  const DefaultDepletion := 0.01
  const DefaultBoundingConstant := 5.0
  const DefaultMaxSpeed := 1.5
  const DefaultEfficiency := 0.10

  const FoodSprite := "food/candy"
  const ObstacleSprite := "objects/tree-christmas"
  const ObstacleEnergy := 5.0
  const BeingEnergy := 10.0
  const HerdSprite := "animals/tiger.png"
  const HerdMaxSpeed := 5.0
  const HerdAttackValue := 1.0

  /**
   * The state Entity() leaves behind, for an object of the given kind and
   * uuid: the fields it does not assign keep Java's defaults (null, false, 0).
   */
  function EntityDefaults(uuid: Uuid, kind: Kind): (b: Body)
    ensures b.position == Zero && b.velocity.None?
    ensures b.energy == 100.0 && b.energyDepletionValue == 0.01 && b.maxSpeed == 1.5
    ensures b.consumptionEfficiency == 0.10 && b.boundingConstant == 5.0
    ensures !b.poisonous && !b.dead && !b.flock && b.goal.None?
  {
    Body(uuid, kind, Zero, None, DefaultEnergy, DefaultId, DefaultDepletion, DefaultEfficiency,
         DefaultSprite, DefaultMaxSpeed, DefaultBoundingConstant,
         false, None, false, false, false, None, 0, 0, 0.0)
  }

  /** The state the Obstacle constructor leaves behind: energy 5 and the zero velocity. */
  function ObstacleBody(u: Uuid, p: Vector2): (b: Body)
    ensures b.uuid == u && b.kind == ObstacleKind && b.position == p && b.energy == 5.0
    ensures b.velocity == Some(Zero) && !b.flock
  {
    EntityDefaults(u, ObstacleKind).(spriteName := ObstacleSprite, position := p,
                                     energy := ObstacleEnergy, velocity := Some(Zero))
  }

  /**
   * The offset setVelocity and the flock's bounding rule compute: c towards
   * the inside on every axis where p lies outside [minP, maxP], else 0.
   */
  function BoundingOffset(p: Vector2, minP: Vector2, maxP: Vector2, c: real): (r: Vector2)
    ensures r.x == (if p.x < minP.x then c else if p.x > maxP.x then -c else 0.0)
    ensures r.y == (if p.y < minP.y then c else if p.y > maxP.y then -c else 0.0)
  {
    var ox := if p.x < minP.x then c else if p.x > maxP.x then c * -1.0 else 0.0;
    var oy := if p.y < minP.y then c else if p.y > maxP.y then c * -1.0 else 0.0;
    Vector2(ox, oy)
  }

  /**
   * The speed clamp of setVelocity (and of the flock's speed limitation
   * rule): a vector longer than `limit` is rescaled to length `limit` in the
   * same direction, anything else is kept.
   */
  function ClampSpeed(v: Vector2, limit: real, sqrt: real -> real): (r: Vector2)
    requires IsSqrt(sqrt) && 0.0 <= limit
    ensures Magnitude(r, sqrt) <= limit
    ensures Magnitude(v, sqrt) <= limit ==> r == v
    ensures limit < Magnitude(v, sqrt) ==>
      Magnitude(r, sqrt) == limit &&
      0.0 <= limit / Magnitude(v, sqrt) && r == v.ScalarMultiply(limit / Magnitude(v, sqrt))
  {
    if Magnitude(v, sqrt) > limit then
      MagnitudeProperties(v, sqrt);
      Rescaled(v, limit, sqrt);
      var unit := v.ScalarDivide(Magnitude(v, sqrt));
      unit.ScalarMultiply(limit)
    else
      v
  }

  /** Food that smellFood considers at all: a Food with energy above 0. */
  predicate IsLiveFood(b: Body) {
    b.kind == FoodKind && b.energy > 0.0
  }

  /** The distance smellFood computes: sqrt(|bx - fx|^2 + |by - fy|^2). */
  function FoodDistance(from: Vector2, p: Vector2, sqrt: real -> real): real {
    sqrt(Sq(Abs(from.x - p.x)) + Sq(Abs(from.y - p.y)))
  }

  /** That distance is the Euclidean distance. */
  lemma {:induction false} FoodDistanceIsDistance(from: Vector2, p: Vector2, sqrt: real -> real)
    ensures FoodDistance(from, p, sqrt) == Distance(from, p, sqrt)
  {
    AbsSquare(from.x - p.x);
    AbsSquare(from.y - p.y);
  }

  /**
   * The running minimum of smellFood's loop over `scene`: the index of the
   * first live food at the least distance from `from`, or None if there is
   * no live food (the loop starts from +infinity and replaces only on `<`).
   */
  function NearestFood(from: Vector2, scene: seq<Body>, sqrt: real -> real): (r: Option<nat>)
    ensures r.Some? ==> r.value < |scene| && IsLiveFood(scene[r.value])
    ensures r.None? <==> forall j :: 0 <= j < |scene| ==> !IsLiveFood(scene[j])
    ensures r.Some? ==> forall j :: 0 <= j < |scene| && IsLiveFood(scene[j]) ==>
      FoodDistance(from, scene[r.value].position, sqrt) <= FoodDistance(from, scene[j].position, sqrt)
    ensures r.Some? ==> forall j :: 0 <= j < r.value && IsLiveFood(scene[j]) ==>
      FoodDistance(from, scene[r.value].position, sqrt) < FoodDistance(from, scene[j].position, sqrt)
    decreases |scene|
  {
    if |scene| == 0 then None
    else
      var last := |scene| - 1;
      var prior := NearestFood(from, scene[..last], sqrt);
      if IsLiveFood(scene[last]) &&
         (prior.None? ||
          FoodDistance(from, scene[last].position, sqrt) < FoodDistance(from, scene[prior.value].position, sqrt))
      then Some(last)
      else prior
  }

  /** One more body seen by the running minimum. */
  lemma {:induction false} NearestStep(from: Vector2, scene: seq<Body>, i: nat, sqrt: real -> real)
    requires i < |scene|
    ensures var prior := NearestFood(from, scene[..i], sqrt);
      NearestFood(from, scene[..i + 1], sqrt) ==
        if IsLiveFood(scene[i]) &&
           (prior.None? || FoodDistance(from, scene[i].position, sqrt) < FoodDistance(from, scene[prior.value].position, sqrt))
        then Some(i) else prior
  {
    assert scene[..i + 1][..i] == scene[..i];
  }

  /**
   * smellFood(range): the nearest live food if it lies within `range`,
   * otherwise None (Java's null).
   */
  function Smell(from: Vector2, scene: seq<Body>, range: int, sqrt: real -> real): (r: Option<nat>)
    ensures r.Some? ==>
      r.value < |scene| && IsLiveFood(scene[r.value]) &&
      FoodDistance(from, scene[r.value].position, sqrt) <= range as real &&
      (forall j :: 0 <= j < |scene| && IsLiveFood(scene[j]) ==>
         FoodDistance(from, scene[r.value].position, sqrt) <= FoodDistance(from, scene[j].position, sqrt)) &&
      (forall j :: 0 <= j < r.value && IsLiveFood(scene[j]) ==>
         FoodDistance(from, scene[r.value].position, sqrt) < FoodDistance(from, scene[j].position, sqrt))
    ensures r.None? <==>
      forall j :: 0 <= j < |scene| && IsLiveFood(scene[j]) ==> FoodDistance(from, scene[j].position, sqrt) > range as real
  {
    var n := NearestFood(from, scene, sqrt);
    if n.Some? && FoodDistance(from, scene[n.value].position, sqrt) <= range as real then n else None
  }

  /** World.blocked(x, y): some entity that is not Food sits exactly at (x, y). */
  predicate BlockedAt(scene: seq<Body>, x: real, y: real) {
    exists i :: 0 <= i < |scene| && scene[i].kind != FoodKind && scene[i].position == Vector2(x, y)
  }

  /**
   * The unit vector calculateVectorToFood moves along: (to - from) divided by
   * sqrt(|tx - fx|^2 + |ty - fy|^2). It has length 1 and, scaled by the
   * distance, gives back to - from.
   */
  function UnitToward(from: Vector2, to: Vector2, sqrt: real -> real): (u: Vector2)
    requires IsSqrt(sqrt) && from != to
    ensures Magnitude(u, sqrt) == 1.0
    ensures 0.0 < Distance(to, from, sqrt)
    ensures u.ScalarMultiply(Distance(to, from, sqrt)) == to.Subtract(from)
  {
    var a := Abs(to.x - from.x);
    var b := Abs(to.y - from.y);
    var magnitude := sqrt(Sq(a) + Sq(b));
    var direction := to.Subtract(from);
    UnitTowardFacts(from, to, sqrt);
    direction.ScalarDivide(magnitude)
  }

  lemma {:induction false} UnitTowardFacts(from: Vector2, to: Vector2, sqrt: real -> real)
    requires IsSqrt(sqrt) && from != to
    ensures sqrt(Sq(Abs(to.x - from.x)) + Sq(Abs(to.y - from.y))) == Distance(to, from, sqrt)
    ensures 0.0 < Distance(to, from, sqrt)
    ensures Magnitude(to.Subtract(from).ScalarDivide(Distance(to, from, sqrt)), sqrt) == 1.0
    ensures to.Subtract(from).ScalarDivide(Distance(to, from, sqrt)).ScalarMultiply(Distance(to, from, sqrt)) == to.Subtract(from)
  {
    var d := to.Subtract(from);
    FoodDistanceIsDistance(to, from, sqrt);
    MagnitudeProperties(d, sqrt);
    assert d != Zero;
    var n := Distance(to, from, sqrt);
    Rescaled(d, 1.0, sqrt);
    MulOne(d.ScalarDivide(n).x);
    MulOne(d.ScalarDivide(n).y);
    assert d.ScalarDivide(n).ScalarMultiply(1.0) == d.ScalarDivide(n);
    DivideThenMultiply(d, n);
  }

  /** The bound of the two rng.nextInt(5) draws of a blocked step toward food. */
  const JitterBound := 5

  /**
   * calculateVectorToFood on a body: the proposed position is one unit
   * toward the food. If no non-Food entity sits exactly there, the result is
   * velocity + that unit vector and the energy drops by the depletion value;
   * otherwise the result is velocity + (jitterX, jitterY), the two
   * rng.nextInt(5) draws, and the body is unchanged.
   */
  function StepTowardFood(b: Body, food: Vector2, scene: seq<Body>, jitterX: int, jitterY: int,
                          sqrt: real -> real): (r: (Vector2, Body))
    requires IsSqrt(sqrt) && b.velocity.Some? && b.position != food
    ensures var u := UnitToward(b.position, food, sqrt);
      !BlockedAt(scene, b.position.Add(u).x, b.position.Add(u).y) ==>
        r.0 == b.velocity.value.Add(u) && r.1 == b.(energy := b.energy - b.energyDepletionValue)
    ensures var u := UnitToward(b.position, food, sqrt);
      BlockedAt(scene, b.position.Add(u).x, b.position.Add(u).y) ==>
        r.0.Subtract(b.velocity.value) == Vector2(jitterX as real, jitterY as real) && r.1 == b
  {
    var unit := UnitToward(b.position, food, sqrt);
    var proposedX := b.position.x + unit.x;
    var proposedY := b.position.y + unit.y;
    if !BlockedAt(scene, proposedX, proposedY) then
      (b.velocity.value.Add(unit), b.(energy := b.energy - b.energyDepletionValue))
    else
      (b.velocity.value.Add(Vector2(jitterX as real, jitterY as real)), b)
  }

  /**
   * With the two draws of rng.nextInt(5), each in [0, 5), a blocked step
   * adds to the velocity a whole-number offset in [0, 5) x [0, 5).
   */
  lemma {:induction false} BlockedJitterInRange(b: Body, food: Vector2, scene: seq<Body>, jitterX: int, jitterY: int,
                                                sqrt: real -> real)
    requires IsSqrt(sqrt) && b.velocity.Some? && b.position != food
    requires 0 <= jitterX < JitterBound && 0 <= jitterY < JitterBound
    requires var u := UnitToward(b.position, food, sqrt); BlockedAt(scene, b.position.Add(u).x, b.position.Add(u).y)
    ensures var o := StepTowardFood(b, food, scene, jitterX, jitterY, sqrt).0.Subtract(b.velocity.value);
      0.0 <= o.x < JitterBound as real && 0.0 <= o.y < JitterBound as real &&
      o.x == o.x.Floor as real && o.y == o.y.Floor as real
  {
    var o := StepTowardFood(b, food, scene, jitterX, jitterY, sqrt).0.Subtract(b.velocity.value);
    assert o == Vector2(jitterX as real, jitterY as real);
    assert (jitterX as real).Floor == jitterX;
    assert (jitterY as real).Floor == jitterY;
  }

  /** Entity, Food, Obstacle and LivingBeing objects. */
  class Entity {
    const uuid: Uuid
    const kind: Kind
    const id: int
    const energyDepletionValue: real
    const consumptionEfficiency: real
    const spriteName: string
    const maxSpeed: real
    const boundingConstant: real
    const species: Option<string>
    const carnivore: bool
    const attackValue: real

    var position: Vector2
    var velocity: Option<Vector2>
    var energy: real
    var poisonous: bool
    var dead: bool
    var flock: bool
    var goal: Option<Vector2>
    var goalLastSetMillis: int
    var lastRandomMovement: int

    function State(): Body
      reads this
    {
      Body(uuid, kind, position, velocity, energy, id, energyDepletionValue, consumptionEfficiency,
           spriteName, maxSpeed, boundingConstant, poisonous, species, carnivore, dead, flock,
           goal, goalLastSetMillis, lastRandomMovement, attackValue)
    }

    /** Food(position, energy, world): the default sprite, and setVelocity(0, 0) stores the zero vector. */
    constructor Food(u: Uuid, p: Vector2, e: int)
      ensures State() == EntityDefaults(u, FoodKind).(spriteName := FoodSprite, position := p,
                                                       energy := e as real, velocity := Some(Zero))
    {
      uuid, kind := u, FoodKind;
      id, energyDepletionValue, consumptionEfficiency := DefaultId, DefaultDepletion, DefaultEfficiency;
      spriteName, maxSpeed, boundingConstant := FoodSprite, DefaultMaxSpeed, DefaultBoundingConstant;
      species, carnivore, attackValue := None, false, 0.0;
      position, velocity, energy := p, Some(Zero), e as real;
      poisonous, dead, flock, goal := false, false, false, None;
      goalLastSetMillis, lastRandomMovement := 0, 0;
    }

    /** Food(spriteName, position, energy, world): velocity is never assigned. */
    constructor FoodWithSprite(u: Uuid, sprite: string, p: Vector2, e: int)
      ensures State() == EntityDefaults(u, FoodKind).(spriteName := sprite, position := p, energy := e as real)
    {
      uuid, kind := u, FoodKind;
      id, energyDepletionValue, consumptionEfficiency := DefaultId, DefaultDepletion, DefaultEfficiency;
      spriteName, maxSpeed, boundingConstant := sprite, DefaultMaxSpeed, DefaultBoundingConstant;
      species, carnivore, attackValue := None, false, 0.0;
      position, velocity, energy := p, None, e as real;
      poisonous, dead, flock, goal := false, false, false, None;
      goalLastSetMillis, lastRandomMovement := 0, 0;
    }

    /** Obstacle(position, world): energy 5 and the zero velocity. */
    constructor Obstacle(u: Uuid, p: Vector2)
      ensures State() == ObstacleBody(u, p)
    {
      uuid, kind := u, ObstacleKind;
      id, energyDepletionValue, consumptionEfficiency := DefaultId, DefaultDepletion, DefaultEfficiency;
      spriteName, maxSpeed, boundingConstant := ObstacleSprite, DefaultMaxSpeed, DefaultBoundingConstant;
      species, carnivore, attackValue := None, false, 0.0;
      position, velocity, energy := p, Some(Zero), ObstacleEnergy;
      poisonous, dead, flock, goal := false, false, false, None;
      goalLastSetMillis, lastRandomMovement := 0, 0;
    }

    /**
     * LivingBeing(spriteName, position, world): energy 10, alive, the clock
     * reading `now` as the last random movement; velocity is not assigned.
     */
    constructor BeingWithSprite(u: Uuid, sprite: string, p: Vector2, now: int)
      ensures State() == EntityDefaults(u, BeingKind).(spriteName := sprite, position := p,
                                                        energy := BeingEnergy, lastRandomMovement := now)
    {
      uuid, kind := u, BeingKind;
      id, energyDepletionValue, consumptionEfficiency := DefaultId, DefaultDepletion, DefaultEfficiency;
      spriteName, maxSpeed, boundingConstant := sprite, DefaultMaxSpeed, DefaultBoundingConstant;
      species, carnivore, attackValue := None, false, 0.0;
      position, velocity, energy := p, None, BeingEnergy;
      poisonous, dead, flock, goal := false, false, false, None;
      goalLastSetMillis, lastRandomMovement := 0, now;
    }

    /**
     * LivingBeing(position, world): the tiger sprite, energy 10, alive, in a
     * flock, zero velocity, maximum speed 5 and attack value 1.
     */
    constructor Being(u: Uuid, p: Vector2, now: int)
      ensures State() == EntityDefaults(u, BeingKind).(spriteName := HerdSprite, position := p,
                                                        energy := BeingEnergy, flock := true, velocity := Some(Zero),
                                                        maxSpeed := HerdMaxSpeed, attackValue := HerdAttackValue,
                                                        lastRandomMovement := now)
    {
      uuid, kind := u, BeingKind;
      id, energyDepletionValue, consumptionEfficiency := DefaultId, DefaultDepletion, DefaultEfficiency;
      spriteName, maxSpeed, boundingConstant := HerdSprite, HerdMaxSpeed, DefaultBoundingConstant;
      species, carnivore, attackValue := None, false, HerdAttackValue;
      position, velocity, energy := p, Some(Zero), BeingEnergy;
      poisonous, dead, flock, goal := false, false, true, None;
      goalLastSetMillis, lastRandomMovement := 0, now;
    }

    /**
     * A saved entity read back from disk (Food.load or LivingBeing.load)
     * and given the fresh uuid `u` by setUuid().
     */
    constructor Load(u: Uuid, saved: Body)
      ensures State() == saved.(uuid := u)
    {
      uuid, kind, id := u, saved.kind, saved.id;
      energyDepletionValue, consumptionEfficiency := saved.energyDepletionValue, saved.consumptionEfficiency;
      spriteName, maxSpeed, boundingConstant := saved.spriteName, saved.maxSpeed, saved.boundingConstant;
      species, carnivore, attackValue := saved.species, saved.carnivore, saved.attackValue;
      position, velocity, energy := saved.position, saved.velocity, saved.energy;
      poisonous, dead, flock, goal := saved.poisonous, saved.dead, saved.flock, saved.goal;
      goalLastSetMillis, lastRandomMovement := saved.goalLastSetMillis, saved.lastRandomMovement;
    }

    /**
     * setVelocity: stores the clamped vector. The bounding offset toward the
     * world bounds is computed, but `velocity.add(offset)` builds a new vector
     * that is thrown away, so the stored velocity does not depend on the
     * position or on the bounds.
     */
    method SetVelocity(v: Vector2, minP: Vector2, maxP: Vector2, sqrt: real -> real)
      requires IsSqrt(sqrt) && 0.0 <= maxSpeed
      modifies this
      ensures State() == old(State()).(velocity := Some(ClampSpeed(v, maxSpeed, sqrt)))
    {
      if Magnitude(v, sqrt) > maxSpeed {
        MagnitudeProperties(v, sqrt);
        var unit := v.ScalarDivide(Magnitude(v, sqrt));
        velocity := Some(unit.ScalarMultiply(maxSpeed));
      } else {
        velocity := Some(v);
      }
      var offset := BoundingOffset(position, minP, maxP, boundingConstant);
      var discarded := velocity.value.Add(offset);
    }

    method SetPosition(p: Vector2)
      modifies this
      ensures State() == old(State()).(position := p)
    {
      position := p;
    }

    method SetEnergy(e: real)
      modifies this
      ensures State() == old(State()).(energy := e)
    {
      energy := e;
    }

    method SetPoisonous(p: bool)
      modifies this
      ensures State() == old(State()).(poisonous := p)
    {
      poisonous := p;
    }

    method SetDead(d: bool)
      modifies this
      ensures State() == old(State()).(dead := d)
    {
      dead := d;
    }

    method SetGoal(g: Vector2)
      modifies this
      ensures State() == old(State()).(goal := Some(g))
    {
      goal := Some(g);
    }

    method SetLastRandomMovement(t: int)
      modifies this
      ensures State() == old(State()).(lastRandomMovement := t)
    {
      lastRandomMovement := t;
    }

    /**
     * smellFood(range): the loop over the world's entities keeps the first
     * food of least distance (starting from +infinity, None here), then
     * answers it only if that distance is within range.
     */
    method SmellFood(scene: seq<Entity>, range: int, sqrt: real -> real) returns (closest: Entity?)
      ensures closest == (var r := Smell(position, Bodies(scene), range, sqrt);
                          if r.Some? then scene[r.value] else null)
    {
      closest := null;
      var shortest: Option<real> := None;
      ghost var index: nat := 0;
      ghost var bs := Bodies(scene);
      var i := 0;
      while i < |scene|
        invariant 0 <= i <= |scene|
        invariant var n := NearestFood(position, bs[..i], sqrt);
          (n.None? <==> shortest.None?) &&
          (n.Some? ==> index == n.value && closest == scene[index] &&
                       shortest == Some(FoodDistance(position, scene[index].position, sqrt)))
      {
        NearestStep(position, bs, i, sqrt);
        var e := scene[i];
        assert bs[i] == e.State();
        if e.kind == FoodKind && !(e.energy <= 0.0) {
          var distance := FoodDistance(position, e.position, sqrt);
          if shortest.None? || distance < shortest.value {
            closest, shortest, index := e, Some(distance), i;
          }
        }
        i := i + 1;
      }
      assert bs[..|scene|] == bs;
      if !(shortest.Some? && shortest.value <= range as real) {
        closest := null;
      }
    }

    /**
     * calculateVectorToFood(food): see StepTowardFood. `scene` is the world's
     * entities, which world.blocked scans.
     */
    method CalculateVectorToFood(food: Entity, scene: seq<Entity>, jitterX: int, jitterY: int,
                                 sqrt: real -> real) returns (v: Vector2)
      requires IsSqrt(sqrt) && food.kind == FoodKind && velocity.Some? && position != food.position
      modifies this
      ensures (v, State()) == StepTowardFood(old(State()), old(food.position), old(Bodies(scene)),
                                             jitterX, jitterY, sqrt)
    {
      var a := Abs(food.position.x - position.x);
      var b := Abs(food.position.y - position.y);
      var magnitude := sqrt(Sq(a) + Sq(b));
      UnitTowardFacts(position, food.position, sqrt);
      var direction := food.position.Subtract(position);
      var unit := direction.ScalarDivide(magnitude);
      var proposedX := position.x + unit.x;
      var proposedY := position.y + unit.y;
      var blocked := ScanBlocked(scene, proposedX, proposedY);
      if !blocked {
        v := velocity.value.Add(unit);
        SetEnergy(energy - energyDepletionValue);
      } else {
        v := velocity.value.Add(Vector2(jitterX as real, jitterY as real));
      }
    }
  }

  /** The bodies of `scene`, in order. */
  function Bodies(scene: seq<Entity>): (r: seq<Body>)
    reads scene
    ensures |r| == |scene| && forall i :: 0 <= i < |scene| ==> r[i] == scene[i].State()
  {
    seq(|scene|, i reads scene requires 0 <= i < |scene| => scene[i].State())
  }

  /** The loop of World.blocked over `scene`; it never exits early. */
  method ScanBlocked(scene: seq<Entity>, x: real, y: real) returns (blocked: bool)
    ensures blocked == BlockedAt(Bodies(scene), x, y)
  {
    blocked := false;
    var i := 0;
    while i < |scene|
      invariant 0 <= i <= |scene|
      invariant blocked == BlockedAt(Bodies(scene)[..i], x, y)
    {
      assert Bodies(scene)[..i + 1] == Bodies(scene)[..i] + [scene[i].State()];
      var e := scene[i];
      if e.position.x == x && e.position.y == y {
        if e.kind != FoodKind {
          blocked := true;
        }
      }
      i := i + 1;
    }
    assert Bodies(scene)[..|scene|] == Bodies(scene);
  }

  /** The world's entity map, read as values. */
  function Snapshot(es: map<Uuid, Entity>): (t: Table)
    reads es.Values
    ensures t.Keys == es.Keys && forall u :: u in es ==> t[u] == es[u].State()
  {
    map u | u in es :: es[u].State()
  }

  /** Putting an entity under its uuid changes the snapshot at that key only. */
  lemma {:induction false} SnapshotPut(es: map<Uuid, Entity>, e: Entity)
    ensures Snapshot(es[e.uuid := e]) == Snapshot(es)[e.uuid := e.State()]
  {
  }

  /** A snapshot stays as it was while none of its entities change. */
  twostate lemma {:induction false} SnapshotFrame(es: map<Uuid, Entity>)
    requires unchanged(es.Values)
    ensures Snapshot(es) == old(Snapshot(es))
  {
  }

  /** Every entity of the map is stored under its own uuid. */
  predicate Keyed(es: map<Uuid, Entity>) {
    forall u :: u in es ==> es[u].uuid == u
  }

  /** Reading the objects in order gives the same bodies as reading the snapshot in order. */
  lemma {:induction false} ScenesAgree(es: map<Uuid, Entity>, order: seq<Uuid>)
    requires forall i :: 0 <= i < |order| ==> order[i] in es
    ensures Bodies(SceneOf(es, order)) == SceneOf(Snapshot(es), order)
  {
  }

  /** The uuids of a list of entities, in order. */
  function UuidsOf(s: seq<Entity>): (us: seq<Uuid>)
    ensures |us| == |s| && forall k :: 0 <= k < |s| ==> us[k] == s[k].uuid
  {
    seq(|s|, k requires 0 <= k < |s| => s[k].uuid)
  }

  /** One more entity at the end adds its uuid at the end. */
  lemma {:induction false} UuidsOfSnoc(s: seq<Entity>, e: Entity)
    ensures UuidsOf(s + [e]) == UuidsOf(s) + [e.uuid]
  {
  }
}
