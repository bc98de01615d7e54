/**
 * The World class: the entity map keyed by uuid under a population limit,
 * the flock map keyed by species, the world's bounds and the food detection
 * distance, and the operations of one tick.
 *
 * The HashMaps' iteration orders are parameters: `order` lists the entity
 * map's keys as entities.values() visits them, `flockOrder` the flock map's
 * keys as flockMap.values() visits them. Random draws and clock readings are
 * parameters too, as is Math.sqrt.
 */
module Worlds {
  import opened Wrappers
  import opened Vectors
  import opened Numerics
  import opened Entities
  import opened Feeding
  import opened Tick
  import opened Flocking
  import opened Boids
  import opened Census
  import opened Simulation

  /** A species key of the flock map; Java's HashMap also accepts the null species. */
  type Species = Option<string>

  class World {
    const width: int
    const height: int
    const populationLimit: int
    const minimumPosition: Vector2
    const maximumPosition: Vector2
    var entities: map<Uuid, Entity>
    var flockMap: map<Species, BoidFlock>
    var foodDetectionDistance: int

    /** World(): a 5 x 5 world for 25 entities, detecting food within 4. */
    constructor Default()
      ensures width == 5 && height == 5 && populationLimit == 25 && foodDetectionDistance == 4
      ensures minimumPosition == Zero && maximumPosition == Vector2(5.0, 5.0)
      ensures entities == map[] && flockMap == map[]
    {
      width, height := 5, 5;
      populationLimit := 5 * 5;
      foodDetectionDistance := 4;
      minimumPosition, maximumPosition := Zero, Vector2(5.0, 5.0);
      entities, flockMap := map[], map[];
    }

    /**
     * World(width, height, numEntities): the population limit is the given
     * number; the food detection distance keeps Java's default 0.
     */
    constructor(w: int, h: int, n: int)
      ensures width == w && height == h && populationLimit == n && foodDetectionDistance == 0
      ensures minimumPosition == Zero && maximumPosition == Vector2(w as real, h as real)
      ensures entities == map[] && flockMap == map[]
    {
      width, height, populationLimit := w, h, n;
      foodDetectionDistance := 0;
      minimumPosition, maximumPosition := Zero, Vector2(w as real, h as real);
      entities, flockMap := map[], map[];
    }

    /** isFull: the map holds at least as many entities as the limit. */
    predicate IsFull()
      reads this
    {
      !(|entities| < populationLimit)
    }

    /** setFoodDetectionDistance: replaces the distance and nothing else. */
    method SetFoodDetectionDistance(d: int)
      modifies this
      ensures foodDetectionDistance == d && entities == old(entities) && flockMap == old(flockMap)
    {
      foodDetectionDistance := d;
    }

    /**
     * addEntity: puts e under its uuid when the world is not full, and
     * otherwise leaves the map as it was; either way the map never grows
     * past the limit.
     */
    method AddEntity(e: Entity)
      modifies this
      ensures !old(IsFull()) ==> entities == old(entities)[e.uuid := e]
      ensures old(IsFull()) ==> entities == old(entities)
      ensures |old(entities)| <= populationLimit ==> |entities| <= populationLimit
      ensures flockMap == old(flockMap) && foodDetectionDistance == old(foodDetectionDistance)
    {
      if |entities| < populationLimit {
        entities := entities[e.uuid := e];
      }
    }

    /** blocked(x, y): the loop over the entities, in iteration order. */
    method Blocked(order: seq<Uuid>, x: real, y: real) returns (blocked: bool)
      requires IsOrder(order, entities.Keys)
      ensures blocked <==> exists u :: u in entities && entities[u].kind != FoodKind &&
                                      entities[u].position == Vector2(x, y)
    {
      var scene := SceneOf(entities, order);
      ScenesAgree(entities, order);
      blocked := ScanBlocked(scene, x, y);
      BlockedAnyOrder(Snapshot(entities), order, x, y);
    }

    /** foodCount: the loop counts the Food entries of the map. */
    method FoodCount(order: seq<Uuid>) returns (sum: int)
      requires IsOrder(order, entities.Keys)
      ensures sum == |FoodKeys(Snapshot(entities))|
    {
      ghost var bs := SceneOf(Snapshot(entities), order);
      sum := 0;
      for i := 0 to |order|
        invariant sum == CountFood(bs[..i])
      {
        assert bs[..i + 1][..i] == bs[..i];
        var e := entities[order[i]];
        assert bs[i].kind == e.kind;
        if e.kind == FoodKind {
          sum := sum + 1;
        }
      }
      assert bs[..|order|] == bs;
      CountFoodIsFoodKeys(Snapshot(entities), order);
    }

    /** totalEntityEnergy: the truncating sum of the energies of every entity that is not Food. */
    method TotalEntityEnergy(order: seq<Uuid>) returns (sum: int)
      requires forall i :: 0 <= i < |order| ==> order[i] in entities
      ensures sum == EnergyFold(SceneOf(Snapshot(entities), order))
    {
      ghost var bs := SceneOf(Snapshot(entities), order);
      sum := 0;
      for i := 0 to |order|
        invariant sum == EnergyFold(bs[..i])
      {
        assert bs[..i + 1][..i] == bs[..i];
        var e := entities[order[i]];
        if e.kind != FoodKind {
          sum := DoubleToInt(sum as real + e.energy);
        }
      }
      assert bs[..|order|] == bs;
    }

    /**
     * moveEntityInRandomDirection: a new goal and timestamp after more than
     * 5000 ms, then the velocity toward the goal through setVelocity, and
     * the energy drops by the depletion value.
     */
    method MoveEntityInRandomDirection(e: Entity, d: BeingDraws, sqrt: real -> real)
      requires IsSqrt(sqrt) && 0.0 <= e.maxSpeed && (e.goal.Some? || Expired(e.State(), d))
      modifies e
      ensures e.State() == Wander(old(e.State()), d, sqrt)
    {
      if d.checkTime - e.lastRandomMovement > WanderInterval {
        e.SetGoal(Vector2(d.goalX as real, d.goalY as real));
        e.SetLastRandomMovement(d.stampTime);
      }
      e.SetVelocity(e.goal.value.Subtract(e.position), minimumPosition, maximumPosition, sqrt);
      e.SetEnergy(e.energy - e.energyDepletionValue);
    }

    /**
     * removeEatenFood(e): the loop over the world's entities, each met
     * once in iteration order by the eater e, which is one of them.
     */
    method RemoveEatenFood(e: Entity, order: seq<Uuid>)
      requires Keyed(entities) && e.uuid in entities && entities[e.uuid] == e
      requires forall i :: 0 <= i < |order| ==> order[i] in entities
      modifies entities.Values
      ensures Snapshot(entities) == EatFold(old(Snapshot(entities)), e.uuid, order)
    {
      ghost var t0 := Snapshot(entities);
      for k := 0 to |order|
        invariant Snapshot(entities) == EatFold(t0, e.uuid, order[..k])
      {
        EatOneAt(e, order[k]);
        assert order[..k + 1][..k] == order[..k];
      }
      assert order[..|order|] == order;
    }

    /** One iteration of removeEatenFood's loop: the eater e meets the entity stored under u. */
    method EatOneAt(e: Entity, u: Uuid)
      requires Keyed(entities) && e.uuid in entities && entities[e.uuid] == e && u in entities
      modifies e, entities[u]
      ensures Snapshot(entities) == EatOne(old(Snapshot(entities)), e.uuid, u)
    {
      ghost var t0 := Snapshot(entities);
      var worldEntity := entities[u];
      Meet(e, worldEntity, t0);
      SnapshotUpdateTwo(entities, t0, e.uuid, u);
      EatOneShape(t0, e.uuid, u);
    }

    /**
     * The body of removeEatenFood's loop on the two objects involved: the
     * window test, then Food or, for a carnivore, another living being.
     * `t0` is the world as values before the meeting.
     */
    method Meet(e: Entity, worldEntity: Entity, ghost t0: Table)
      requires e.uuid in t0 && worldEntity.uuid in t0
      requires t0[e.uuid] == e.State() && t0[worldEntity.uuid] == worldEntity.State()
      requires worldEntity == e <==> worldEntity.uuid == e.uuid
      modifies e, worldEntity
      ensures e.State() == EatOne(t0, e.uuid, worldEntity.uuid)[e.uuid]
      ensures worldEntity.State() == EatOne(t0, e.uuid, worldEntity.uuid)[worldEntity.uuid]
    {
      if worldEntity.position.x > e.position.x - Variance && worldEntity.position.x < e.position.x + Variance {
        if worldEntity.position.y > e.position.y - Variance && worldEntity.position.y < e.position.y + Variance {
          if worldEntity.kind == FoodKind {
            MeetFood(e, worldEntity);
            EatFoodAt(t0, e.uuid, worldEntity.uuid);
          }
          if worldEntity.kind == BeingKind && e.kind == BeingKind {
            if e.carnivore {
              if worldEntity != e {
                MeetPrey(e, worldEntity, t0);
              }
            }
          }
        }
      }
    }

    /** The eater meets Food: it gains or, for poisonous food, loses the food's energy, and the food is left with 0. */
    method MeetFood(e: Entity, worldEntity: Entity)
      modifies e, worldEntity
      ensures worldEntity.State() == old(worldEntity.State()).(energy := 0.0)
      ensures e != worldEntity ==>
        e.State() == old(e.State()).(energy := if worldEntity.poisonous then old(e.energy) - old(worldEntity.energy)
                                               else old(e.energy) + Mul(old(worldEntity.energy), e.consumptionEfficiency))
    {
      if worldEntity.poisonous {
        e.SetEnergy(e.energy - worldEntity.energy);
      } else {
        e.SetEnergy(e.energy + Mul(worldEntity.energy, e.consumptionEfficiency));
      }
      worldEntity.SetEnergy(0.0);
    }

    /** A carnivore meets another living being inside its window: it gains, and the prey is left with 0. */
    method MeetPrey(e: Entity, worldEntity: Entity, ghost t0: Table)
      requires e.uuid in t0 && worldEntity.uuid in t0
      requires t0[e.uuid] == e.State() && t0[worldEntity.uuid] == worldEntity.State()
      requires worldEntity != e && worldEntity.uuid != e.uuid
      requires InWindow(worldEntity.position, e.position)
      requires worldEntity.kind == BeingKind && e.kind == BeingKind && e.carnivore
      modifies e, worldEntity
      ensures e.State() == EatOne(t0, e.uuid, worldEntity.uuid)[e.uuid]
      ensures worldEntity.State() == EatOne(t0, e.uuid, worldEntity.uuid)[worldEntity.uuid]
    {
      if e.carnivore {
        e.SetEnergy(e.energy + Mul(worldEntity.energy, e.consumptionEfficiency));
      }
      worldEntity.SetEnergy(0.0);
    }

    /**
     * What the world keeps true between operations: every entity is stored
     * under its own uuid, every flock's members are entities of the world,
     * each flock has the world's bounds, and no flock object serves two
     * species.
     */
    ghost predicate Valid()
      reads this, flockMap.Values
    {
      Keyed(entities) &&
      (forall s :: s in flockMap ==>
         flockMap[s].InWorld(entities) &&
         flockMap[s].minimumPosition == minimumPosition && flockMap[s].maximumPosition == maximumPosition) &&
      forall s, s' :: s in flockMap && s' in flockMap && s != s' ==> flockMap[s] != flockMap[s']
    }

    /** The flocks of the flock map as values, in the map's iteration order. */
    ghost function FlockValues(flockOrder: seq<Species>): (r: seq<FlockValue>)
      requires forall f :: 0 <= f < |flockOrder| ==> flockOrder[f] in flockMap
      reads this, flockMap.Values
      ensures |r| == |flockOrder|
      ensures forall f :: 0 <= f < |flockOrder| ==>
        r[f] == FlockValue(flockMap[flockOrder[f]].Members(), flockMap[flockOrder[f]].State())
    {
      seq(|flockOrder|, f reads this, flockMap.Values requires 0 <= f < |flockOrder| && flockOrder[f] in flockMap =>
        FlockValue(flockMap[flockOrder[f]].Members(), flockMap[flockOrder[f]].State()))
    }

    /**
     * simulateOutsideOfGrid: the pass over the entities, then simulateFlock
     * for every flock; the world's entities and the flocks' goals end up as
     * the value model computes from the state on entry.
     */
    method SimulateOutsideOfGrid(order: seq<Uuid>, draws: seq<BeingDraws>, flockOrder: seq<Species>,
                                 fdraws: seq<FlockDraws>, bdraws: seq<seq<BoidDraws>>, sqrt: real -> real,
                                 ghost t0: Table, ghost flocks: seq<FlockValue>)
      requires IsSqrt(sqrt) && Valid() && Snapshot(entities) == t0 && Ready(t0, order, draws)
      requires SpeciesOrder(flockOrder, flockMap.Keys) && flocks == FlockValues(flockOrder)
      requires FlocksReady(t0, flocks) && FlockDrawsFit(flocks, fdraws, bdraws)
      modifies entities.Values, flockMap.Values
      ensures var r := Simulation.SimulateOutsideOfGrid(t0, order, draws, foodDetectionDistance, flocks,
                                                        minimumPosition, maximumPosition, fdraws, bdraws, sqrt);
        Snapshot(entities) == r.0 &&
        forall f :: 0 <= f < |flockOrder| ==> flockMap[flockOrder[f]].State() == r.1[f]
    {
      ghost var plan := OutsidePlan(t0, order, draws, foodDetectionDistance, flocks, minimumPosition,
                                    maximumPosition, fdraws, bdraws, sqrt);
      BothLoops(order, draws, flockOrder, fdraws, bdraws, sqrt, t0, flocks, plan);
    }

    /** The two loops of simulateOutsideOfGrid, the second following `plan` from where the first leaves the world. */
    method BothLoops(order: seq<Uuid>, draws: seq<BeingDraws>, flockOrder: seq<Species>,
                     fdraws: seq<FlockDraws>, bdraws: seq<seq<BoidDraws>>, sqrt: real -> real,
                     ghost t0: Table, ghost flocks: seq<FlockValue>, ghost plan: seq<(Table, seq<FlockState>)>)
      requires IsSqrt(sqrt) && Valid() && Snapshot(entities) == t0 && Ready(t0, order, draws)
      requires SpeciesOrder(flockOrder, flockMap.Keys) && flocks == FlockValues(flockOrder)
      requires FlocksPlanned(plan, IndependentPass(t0, order, draws, foodDetectionDistance, sqrt), order, flocks,
                             foodDetectionDistance, minimumPosition, maximumPosition, fdraws, bdraws, sqrt)
      modifies entities.Values, flockMap.Values
      ensures Snapshot(entities) == plan[|flocks|].0
      ensures forall f :: 0 <= f < |flockOrder| ==> flockMap[flockOrder[f]].State() == plan[|flocks|].1[f]
    {
      ghost var passed := IndependentPass(t0, order, draws, foodDetectionDistance, sqrt);
      PassAll(order, draws, sqrt, t0);
      assert unchanged(flockMap.Values);
      FlocksAll(order, flockOrder, fdraws, bdraws, sqrt, passed, flocks, plan);
    }

    /** The first loop of simulateOutsideOfGrid: every entity in iteration order. */
    method PassAll(order: seq<Uuid>, draws: seq<BeingDraws>, sqrt: real -> real, ghost t0: Table)
      requires IsSqrt(sqrt) && Keyed(entities) && Snapshot(entities) == t0 && Ready(t0, order, draws)
      modifies entities.Values
      ensures Snapshot(entities) == IndependentPass(t0, order, draws, foodDetectionDistance, sqrt)
    {
      for k := 0 to |order|
        invariant Snapshot(entities) == Pass(t0, order, draws, k, foodDetectionDistance, sqrt)
      {
        PassStep(order, draws, k, sqrt, t0);
      }
    }

    /** The k-th iteration of the first loop extends the pass by one visit. */
    method PassStep(order: seq<Uuid>, draws: seq<BeingDraws>, k: nat, sqrt: real -> real, ghost t0: Table)
      requires IsSqrt(sqrt) && Keyed(entities) && Ready(t0, order, draws) && k < |order|
      requires Snapshot(entities) == Pass(t0, order, draws, k, foodDetectionDistance, sqrt)
      modifies entities.Values
      ensures Snapshot(entities) == Pass(t0, order, draws, k + 1, foodDetectionDistance, sqrt)
    {
      ghost var p := Snapshot(entities);
      VisitStep(t0, p, order, draws, k, foodDetectionDistance, sqrt);
      VisitEntity(order, k, draws[k], sqrt, p);
      assert Snapshot(entities) == Visited(t0, p, order, draws, k, foodDetectionDistance, sqrt);
    }

    /**
     * One iteration of the first loop, for the entity at position k of the
     * order: a living being with no energy is marked dead, one neither in a
     * flock nor dead moves, and every living being then eats.
     */
    method VisitEntity(order: seq<Uuid>, k: nat, d: BeingDraws, sqrt: real -> real, ghost t: Table)
      requires IsSqrt(sqrt) && Keyed(entities) && Snapshot(entities) == t && InTable(t, order) && k < |order|
      requires Active(t[order[k]]) ==> MoveReady(t, order[k], d)
      modifies entities.Values
      ensures Snapshot(entities) == Visit(t, order, k, foodDetectionDistance, d, sqrt)
    {
      var e := entities[order[k]];
      if e.kind == BeingKind {
        StepBeing(e, order, k, d, sqrt, t);
        SnapshotUpdate(entities, t, order[k]);
        RemoveEatenFood(e, order);
      }
    }

    /** A visited living being before it eats: the dead mark, then the move of one neither in a flock nor dead. */
    method StepBeing(e: Entity, order: seq<Uuid>, k: nat, d: BeingDraws, sqrt: real -> real, ghost t: Table)
      requires IsSqrt(sqrt) && Keyed(entities) && Snapshot(entities) == t && InTable(t, order) && k < |order|
      requires e == entities[order[k]] && e.kind == BeingKind
      requires Active(t[order[k]]) ==> MoveReady(t, order[k], d)
      modifies e
      ensures e.State() == Prepared(t, order, k, foodDetectionDistance, d, sqrt)
    {
      if e.energy <= 0.0 {
        e.SetDead(true);
      }
      if !e.flock && !e.dead {
        MoveBeing(e, order, d, sqrt, t);
      }
    }

    /**
     * The moving part of a visit: toward the food smelled within the food
     * detection distance, else a wander; then position += velocity.
     */
    method MoveBeing(e: Entity, order: seq<Uuid>, d: BeingDraws, sqrt: real -> real, ghost t: Table)
      requires IsSqrt(sqrt) && Keyed(entities) && Snapshot(entities) == t && InTable(t, order)
      requires e.uuid in entities && entities[e.uuid] == e && MoveReady(t, e.uuid, d)
      modifies e
      ensures e.State() == Move(t, order, e.uuid, foodDetectionDistance, d, sqrt)
    {
      var scene := SceneOf(entities, order);
      ScenesAgree(entities, order);
      ghost var bs := Bodies(scene);
      var smelled := e.SmellFood(scene, foodDetectionDistance, sqrt);
      if smelled != null {
        var meal := e.SmellFood(scene, foodDetectionDistance, sqrt);
        ghost var i := Smell(e.position, bs, foodDetectionDistance, sqrt).value;
        assert t[order[i]] == bs[i] == meal.State();
        ChaseMeal(e, meal, scene, d, sqrt, e.State(), bs);
      } else {
        MoveEntityInRandomDirection(e, d, sqrt);
      }
      e.SetPosition(e.position.Add(e.velocity.value));
    }

    /** The food branch: the velocity on entry plus calculateVectorToFood, through setVelocity. */
    method ChaseMeal(e: Entity, meal: Entity, scene: seq<Entity>, d: BeingDraws, sqrt: real -> real,
                     ghost b: Body, ghost bs: seq<Body>)
      requires IsSqrt(sqrt) && e.State() == b && Bodies(scene) == bs
      requires meal.kind == FoodKind && b.velocity.Some? && 0.0 <= b.maxSpeed && b.position != meal.position
      modifies e
      ensures e.State() == Chase(b, meal.position, bs, d, sqrt)
    {
      var v := e.velocity.value;
      var toFood := e.CalculateVectorToFood(meal, scene, d.jitterX, d.jitterY, sqrt);
      e.SetVelocity(v.Add(toFood), minimumPosition, maximumPosition, sqrt);
    }

    /**
     * The second loop of simulateOutsideOfGrid: simulateFlock for every
     * flock, in iteration order, as `plan` lays out from t0.
     */
    method FlocksAll(order: seq<Uuid>, flockOrder: seq<Species>, fdraws: seq<FlockDraws>,
                     bdraws: seq<seq<BoidDraws>>, sqrt: real -> real, ghost t0: Table, ghost flocks: seq<FlockValue>,
                     ghost plan: seq<(Table, seq<FlockState>)>)
      requires Valid() && Snapshot(entities) == t0
      requires SpeciesOrder(flockOrder, flockMap.Keys) && flocks == FlockValues(flockOrder)
      requires FlocksPlanned(plan, t0, order, flocks, foodDetectionDistance, minimumPosition, maximumPosition,
                             fdraws, bdraws, sqrt)
      modifies entities.Values, flockMap.Values
      ensures Snapshot(entities) == plan[|flocks|].0
      ensures forall f :: 0 <= f < |flockOrder| ==> flockMap[flockOrder[f]].State() == plan[|flocks|].1[f]
    {
      ghost var fls := FlockObjects(flockOrder);
      FlockObjectsFacts(flockOrder, fls);
      ghost var members := seq(|fls|, f reads fls requires 0 <= f < |fls| => fls[f].flock);
      FlocksLoop(order, flockOrder, fdraws, bdraws, sqrt, fls, members, t0, flocks, plan);
    }

    /** The loop itself, over the flock objects `fls` of the flock map, following the plan of intermediate states. */
    method FlocksLoop(order: seq<Uuid>, flockOrder: seq<Species>, fdraws: seq<FlockDraws>, bdraws: seq<seq<BoidDraws>>,
                      sqrt: real -> real, ghost fls: seq<BoidFlock>, ghost members: seq<seq<Entity>>,
                      ghost t0: Table, ghost flocks: seq<FlockValue>, ghost plan: seq<(Table, seq<FlockState>)>)
      requires FlocksPlanned(plan, t0, order, flocks, foodDetectionDistance, minimumPosition, maximumPosition,
                             fdraws, bdraws, sqrt)
      requires Keyed(entities) && FlockSetup(flockOrder, fls, members, flocks)
      requires Snapshot(entities) == plan[0].0 && forall f :: 0 <= f < |fls| ==> fls[f].flock == members[f]
      requires forall f :: 0 <= f < |fls| ==> fls[f].State() == flocks[f].state
      modifies entities.Values, flockMap.Values
      ensures Snapshot(entities) == plan[|flocks|].0
      ensures forall f :: 0 <= f < |fls| ==> fls[f].State() == plan[|flocks|].1[f]
    {
      for n := 0 to |flockOrder|
        invariant Snapshot(entities) == plan[n].0 && |plan[n].1| == n
        invariant forall f :: 0 <= f < |fls| ==> fls[f].flock == members[f]
        invariant forall f :: n <= f < |fls| ==> fls[f].State() == flocks[f].state
        invariant forall f :: 0 <= f < n ==> fls[f].State() == plan[n].1[f]
      {
        var fl := flockMap[flockOrder[n]];
        FlockPlanStep(fl, order, n, fdraws, bdraws, sqrt, members[n], t0, flocks, plan);
      }
    }

    /**
     * What stays true of the flock objects throughout the loop: they are the
     * flock map's values in iteration order, distinct, with the world's
     * bounds, and their members are entities of the world stored under their
     * uuids.
     */
    ghost predicate FlockSetup(flockOrder: seq<Species>, fls: seq<BoidFlock>, members: seq<seq<Entity>>,
                               flocks: seq<FlockValue>)
      reads this
    {
      |fls| == |flockOrder| == |members| == |flocks| &&
      (forall f :: 0 <= f < |fls| ==> flockOrder[f] in flockMap && flockMap[flockOrder[f]] == fls[f]) &&
      (forall f, g :: 0 <= f < g < |fls| ==> fls[f] != fls[g]) &&
      (forall f :: 0 <= f < |fls| ==>
        UuidsOf(members[f]) == flocks[f].members &&
        fls[f].minimumPosition == minimumPosition && fls[f].maximumPosition == maximumPosition) &&
      forall f, k :: 0 <= f < |fls| && 0 <= k < |members[f]| ==>
        members[f][k].uuid in entities && entities[members[f][k].uuid] == members[f][k]
    }

    /** Iteration n of the second loop, matched against the plan: flock n takes plan[n] to plan[n + 1]. */
    method FlockPlanStep(fl: BoidFlock, order: seq<Uuid>, n: nat, fdraws: seq<FlockDraws>, bdraws: seq<seq<BoidDraws>>,
                         sqrt: real -> real, ghost ms: seq<Entity>, ghost t0: Table, ghost flocks: seq<FlockValue>,
                         ghost plan: seq<(Table, seq<FlockState>)>)
      requires FlocksPlanned(plan, t0, order, flocks, foodDetectionDistance, minimumPosition, maximumPosition,
                             fdraws, bdraws, sqrt)
      requires n < |flocks| && Keyed(entities) && Snapshot(entities) == plan[n].0
      requires fl.flock == ms && UuidsOf(ms) == flocks[n].members && fl.State() == flocks[n].state
      requires fl.minimumPosition == minimumPosition && fl.maximumPosition == maximumPosition
      requires forall k :: 0 <= k < |ms| ==> ms[k].uuid in entities && entities[ms[k].uuid] == ms[k]
      modifies fl, fl.flock
      ensures fl.flock == ms && Snapshot(entities) == plan[n + 1].0
      ensures |plan[n + 1].1| == n + 1 && plan[n + 1].1[..n] == plan[n].1 && fl.State() == plan[n + 1].1[n]
    {
      FlocksPlanNext(plan, t0, order, flocks, n, foodDetectionDistance, minimumPosition, maximumPosition,
                     fdraws, bdraws, sqrt);
      FlockIteration(fl, order, n, fdraws[n], bdraws[n], sqrt, ms, flocks, plan);
      assert plan[n + 1].1[..n] == plan[n].1;
    }

    /** Iteration n of the second loop: flock n, whose members are `ms`, takes the world from plan[n] to plan[n + 1]. */
    method FlockIteration(fl: BoidFlock, order: seq<Uuid>, n: nat, fd: FlockDraws, draws: seq<BoidDraws>,
                          sqrt: real -> real, ghost ms: seq<Entity>, ghost flocks: seq<FlockValue>,
                          ghost plan: seq<(Table, seq<FlockState>)>)
      requires IsSqrt(sqrt) && n < |flocks| && n + 1 < |plan| && Keyed(entities) && Snapshot(entities) == plan[n].0
      requires fl.flock == ms && UuidsOf(ms) == flocks[n].members && fl.State() == flocks[n].state
      requires fl.minimumPosition == minimumPosition && fl.maximumPosition == maximumPosition
      requires forall k :: 0 <= k < |ms| ==> ms[k].uuid in entities && entities[ms[k].uuid] == ms[k]
      requires FlockReady(plan[n].0, flocks[n].members) && (forall j :: 0 <= j < |order| ==> order[j] in plan[n].0)
      requires |draws| == |ms|
      requires var step := Flocking.SimulateFlock(plan[n].0, order, flocks[n].members, flocks[n].state, fd,
                                                  foodDetectionDistance, minimumPosition, maximumPosition, draws, sqrt);
        plan[n + 1] == (step.0, plan[n].1 + [step.1])
      modifies fl, fl.flock
      ensures fl.flock == ms && Snapshot(entities) == plan[n + 1].0 && fl.State() == plan[n + 1].1[|plan[n].1|]
    {
      assert fl.InWorld(entities);
      fl.SimulateFlock(entities, order, fd, foodDetectionDistance, draws, sqrt);
    }

    /** The flock objects of the flock map, in the map's iteration order. */
    function FlockObjects(flockOrder: seq<Species>): (r: seq<BoidFlock>)
      requires forall f :: 0 <= f < |flockOrder| ==> flockOrder[f] in flockMap
      reads this
      ensures |r| == |flockOrder| && forall f :: 0 <= f < |flockOrder| ==> r[f] == flockMap[flockOrder[f]]
    {
      seq(|flockOrder|, f reads this requires 0 <= f < |flockOrder| && flockOrder[f] in flockMap =>
        flockMap[flockOrder[f]])
    }

    /** What Valid says about the flocks, read off the flock objects in iteration order. */
    lemma {:induction false} FlockObjectsFacts(flockOrder: seq<Species>, fls: seq<BoidFlock>)
      requires Valid() && SpeciesOrder(flockOrder, flockMap.Keys) && fls == FlockObjects(flockOrder)
      ensures forall f, g :: 0 <= f < g < |fls| ==> fls[f] != fls[g]
      ensures forall f :: 0 <= f < |fls| ==>
        fls[f].minimumPosition == minimumPosition && fls[f].maximumPosition == maximumPosition
      ensures forall f, k :: 0 <= f < |fls| && 0 <= k < |fls[f].flock| ==>
        fls[f].flock[k].uuid in entities && entities[fls[f].flock[k].uuid] == fls[f].flock[k]
    {
      forall f, k | 0 <= f < |fls| && 0 <= k < |fls[f].flock|
        ensures fls[f].flock[k].uuid in entities && entities[fls[f].flock[k].uuid] == fls[f].flock[k]
      {
        assert fls[f].InWorld(entities);
      }
    }
  }

  /**
   * findRandomEmptyPosition: nextInt(width - 1) and nextInt(height - 1), or
   * the IllegalArgumentException nextInt throws on a bound below 1 (None).
   * It reads only the world's size. `dx` and `dy` are the raw draws, which
   * nextInt reduces into its range; a draw already in range is returned as
   * it is.
   */
  function RandomEmptyPosition(width: int, height: int, dx: int, dy: int): (r: Option<(int, int)>)
    ensures r.None? <==> width - 1 < 1 || height - 1 < 1
    ensures r.Some? ==> 0 <= r.value.0 < width - 1 && 0 <= r.value.1 < height - 1
    ensures r.Some? && 0 <= dx < width - 1 && 0 <= dy < height - 1 ==> r.value == (dx, dy)
  {
    if width - 1 < 1 || height - 1 < 1 then None
    else
      ReduceIntoRange(dx, width - 1);
      ReduceIntoRange(dy, height - 1);
      Some((dx % (width - 1), dy % (height - 1)))
  }

  /** The flock map's iteration order: every species once. */
  predicate SpeciesOrder(order: seq<Species>, keys: set<Species>) {
    (forall i, j :: 0 <= i < j < |order| ==> order[i] != order[j]) &&
    (forall i :: 0 <= i < |order| ==> order[i] in keys) &&
    (forall s :: s in keys ==> s in order)
  }

  /** Food inside the window: the eater's energy moves by the food's, then the food's drops to 0. */
  lemma {:induction false} EatFoodAt(t: Table, eater: Uuid, w: Uuid)
    requires eater in t && w in t && InWindow(t[w].position, t[eater].position) && t[w].kind == FoodKind
    ensures var r := EatOne(t, eater, w);
      var gained := if t[w].poisonous then t[eater].energy - t[w].energy
                    else t[eater].energy + Mul(t[w].energy, t[eater].consumptionEfficiency);
      r[w] == t[w].(energy := 0.0) &&
      (w != eater ==> r[eater] == t[eater].(energy := gained))
  {
  }

  /** The reduction of a draw into [0, bound) keeps a draw already there. */
  lemma {:induction false} ReduceIntoRange(draw: int, bound: int)
    requires 0 < bound
    ensures 0 <= draw % bound < bound
    ensures 0 <= draw < bound ==> draw % bound == draw
  {
  }

  /** EatOne changes the table at the eater and at w only. */
  lemma {:induction false} EatOneShape(t: Table, eater: Uuid, w: Uuid)
    requires eater in t && w in t
    ensures var r := EatOne(t, eater, w); r == t[eater := r[eater]][w := r[w]]
  {
  }

  /** Changing two entity objects of a map changes the snapshot at their two keys only. */
  lemma {:induction false} SnapshotUpdateTwo(es: map<Uuid, Entity>, t0: Table, a: Uuid, b: Uuid)
    requires t0.Keys == es.Keys && a in es && b in es && Keyed(es)
    requires forall v :: v in es && v != a && v != b ==> es[v].State() == t0[v]
    ensures Snapshot(es) == t0[a := es[a].State()][b := es[b].State()]
  {
  }
}
