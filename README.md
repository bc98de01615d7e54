# Life simulation engine, modelled in Dafny

This project models the simulation engine of a Java life simulator
(BnMcG/UoR-LifeSimulation) and proves properties of the model. The engine
has a `World` holding entities in a map keyed by UUID, under a population
limit. The entities are `Food`, `Obstacle` and `LivingBeing`, all
subclasses of the abstract `Entity`. Flocking beings of one species move
together as a `BoidFlock`, which steers its members with a set of boid
rules. All of them compute with the `Vector2` value type.

A tick (`World.simulateOutsideOfGrid`) works in two loops:

- First it visits every entity. A living being without energy is marked
  dead. A being that is neither dead nor flocking heads for the nearest
  food it smells, or wanders toward a random goal. It then steps by its
  velocity, and every living being eats what lies within ±10 of it. Food
  gives energy times efficiency, poisonous food takes energy away, and a
  carnivore eats other beings.
- Then it runs every flock's `simulateFlock`, which updates the members
  one after another.

A world is built from a text seed by `World.fromText(seed, maxEntities,
foodDetectionDistance, food)`. The seed reads "WIDTH HEIGHT FOOD%
OBSTACLES% [SPECIES QUANTITY]*". The builder places the food share of the
population limit, then the obstacle share, then every species' beings.
Each flocking being joins the flock of its species.

Modules, following the Java classes:

| module | file | models |
|---|---|---|
| `Vectors` | vectors.dfy | `Vector2` as a datatype; doubles are reals |
| `Numerics` | numerics.dfy | Java's `(int)` cast and `Math.round` on reals |
| `Entities` | entities.dfy | `Entity`, `Food`, `Obstacle`, `LivingBeing` as one class `Entity` with a `kind`; `Body` is its value snapshot |
| `Census` | census.dfy | `foodCount`, `totalEntityEnergy`, `blocked` on values |
| `Feeding` | feeding.dfy | `removeEatenFood` on values: the loop and its closed form |
| `Tick` | tick.dfy | the first loop of `simulateOutsideOfGrid` and `moveEntityInRandomDirection` on values |
| `Flocking` | flocking.dfy | `BoidFlock`'s rules and `simulateFlock` on values |
| `Boids` | boids.dfy | the `BoidFlock` class, proved against `Flocking` |
| `Simulation` | simulation.dfy | the whole tick on values |
| `Worlds` | world.dfy | the `World` class, proved against `Census`, `Feeding`, `Tick` and `Simulation` |
| `Seeds` | seeds.dfy | reading the seed text: `split(" ")`, `Integer.parseInt`, the header, the quantities, the pairs |
| `Generation` | generation.dfy | the 4-argument `fromText`: its steps as values, and the imperative builder proved against them |

Some things the model cannot see or compute become parameters:

- Every iteration over a `HashMap` reads its keys in an order passed in:
  `order` for the entity map, `flockOrder` for the flock map. The value
  lemmas hold for every such order.
- `java.util.Random` draws, `System.currentTimeMillis()` readings and
  fresh UUIDs are records of draws: `BeingDraws`, `BoidDraws`,
  `FlockDraws` and `SpawnDraw`.
- `Math.sqrt` is the parameter `sqrt`. `IsSqrt(sqrt)` says it is the
  exact non-negative root.
- The template files that `Food.load` and `LivingBeing.load` read are
  functions from a name to a body (`Sources`).
- Methods that mutate objects are proved against value functions of the
  state on entry, such as `Snapshot(entities)` and `Entity.State()`.
  The properties are proved as lemmas about those functions.

Where the code and its documentation disagree, the model follows the code:

- `setVelocity` computes a bounding offset and then discards it, because
  `velocity.add(offset)` builds a new vector that nobody keeps. The stored
  velocity never depends on the position or on the world's bounds.
- The food branch of the tick adds the result of `calculateVectorToFood`
  to the velocity once more. Since that result already includes the
  velocity, the being steers by `v + (v + unit)`.
- `simulateFlock` does not look at the dead flag: a dead flocking being
  still flies. `removeEatenFood` is called for dead and flocking beings
  as well.
- `centreOfMassRule` is multiplied by 0, so cohesion contributes nothing.
- When the world is full, `fromText` still puts a refused flocking being
  into its species' flock (`Generation.RefusedStillFlocks`).

## Model

| member | source | states |
|---|---|---|
| Vectors.SubtractThenAdd | src/uk/ac/reading/vv008146/project/Vector2.java:47-70 | subtracting b and adding it back gives the vector back |
| Vectors.AddThenSubtract | src/uk/ac/reading/vv008146/project/Vector2.java:47-70 | adding b and subtracting it again gives the vector back |
| Vectors.MultiplyByZero | src/uk/ac/reading/vv008146/project/Vector2.java:79-85 | scaling by 0 gives the zero vector of `new Vector2()` |
| Vectors.DivideThenMultiply | src/uk/ac/reading/vv008146/project/Vector2.java:79-96 | for k != 0, dividing by k and multiplying by k gives the vector back |
| Vectors.MagnitudeProperties | src/uk/ac/reading/vv008146/project/Vector2.java:98-100 | the magnitude is non-negative, squares to x² + y², and is 0 exactly for the zero vector |
| Vectors.MagnitudeAtMost | src/uk/ac/reading/vv008146/project/Vector2.java:98-100 | a magnitude is at most a limit exactly when x² + y² is at most the limit squared |
| Vectors.MagnitudeOfScaled | src/uk/ac/reading/vv008146/project/Vector2.java:79-100 | scaling by k scales the magnitude by abs(k) |
| Vectors.Rescaled | src/uk/ac/reading/vv008146/project/Vector2.java:79-100 | for v != 0, v / abs(v) · m is a non-negative multiple of v of magnitude exactly m |
| Numerics.Trunc | src/uk/ac/reading/vv008146/project/World.java:454 | rounding toward zero: the result lies within 1 of r, on the side of 0 |
| Numerics.DoubleToInt | src/uk/ac/reading/vv008146/project/World.java:454 | the `(int)` narrowing saturates at the 32-bit bounds and truncates in between |
| Numerics.JavaRound | src/uk/ac/reading/vv008146/project/World.java:195-196 | `Math.round` is the 32-bit int within a half of r, halves rounded up |
| Numerics.DoubleToIntOfInt | src/uk/ac/reading/vv008146/project/World.java:454 | an int that fits is unchanged by the cast |
| Entities.EntityDefaults | src/uk/ac/reading/vv008146/project/entities/Entity.java:50-67 | `Entity()` leaves position (0,0), energy 100, depletion 0.01, maximum speed 1.5, efficiency 0.10, bounding constant 5, and no velocity or goal |
| Entities.ObstacleBody | src/uk/ac/reading/vv008146/project/entities/Obstacle.java:13-23 | an obstacle has the given position, energy 5 and the zero velocity |
| Entities.BoundingOffset | src/uk/ac/reading/vv008146/project/entities/Entity.java:82-94 | per axis: +c below the minimum, −c above the maximum, else 0 |
| Entities.ClampSpeed | src/uk/ac/reading/vv008146/project/entities/Entity.java:73-80 | the stored velocity's magnitude is within the limit; a vector within the limit is kept; a longer one is rescaled to exactly the limit in the same direction |
| Entities.FoodDistanceIsDistance | src/uk/ac/reading/vv008146/project/entities/LivingBeing.java:140-159 | sqrt(abs(dx)² + abs(dy)²) is the Euclidean distance |
| Entities.NearestFood | src/uk/ac/reading/vv008146/project/entities/LivingBeing.java:126-166 | the running minimum finds a live food (a Food with energy > 0) that no live food is nearer than, with ties going to the first; None exactly when there is no live food |
| Entities.NearestStep | src/uk/ac/reading/vv008146/project/entities/LivingBeing.java:161-164 | one more entity seen replaces the minimum only when it is live food and strictly nearer |
| Entities.Smell | src/uk/ac/reading/vv008146/project/entities/LivingBeing.java:126-174 | smellFood answers the nearest live food (the first on a tie) within range; null exactly when every live food is farther than range, or there is none |
| Entities.UnitToward | src/uk/ac/reading/vv008146/project/entities/LivingBeing.java:180-188 | for distinct points, the direction has magnitude 1 and, scaled by the distance, gives back to − from |
| Entities.StepTowardFood | src/uk/ac/reading/vv008146/project/entities/LivingBeing.java:176-202 | if the unit step is not blocked: velocity + unit, and energy drops by the depletion value once; if blocked: velocity + the two nextInt(5) draws, and the being is unchanged |
| Entities.BlockedJitterInRange | src/uk/ac/reading/vv008146/project/entities/LivingBeing.java:196-199 | when the step is blocked and both draws are those of `nextInt(5)`, the offset added to the velocity is a whole number in [0, 5) on each axis |
| Entities.Entity.Food | src/uk/ac/reading/vv008146/project/entities/Food.java:32-43 | the given position and energy, the default sprite, the zero velocity, not poisonous |
| Entities.Entity.FoodWithSprite | src/uk/ac/reading/vv008146/project/entities/Food.java:55-63 | the given sprite, position and energy; velocity is not assigned; not poisonous |
| Entities.Entity.Obstacle | src/uk/ac/reading/vv008146/project/entities/Obstacle.java:13-23 | the obstacle body: the position, energy 5, the zero velocity |
| Entities.Entity.BeingWithSprite | src/uk/ac/reading/vv008146/project/entities/LivingBeing.java:47-58 | energy 10, alive, the clock reading as the last random movement, velocity not assigned |
| Entities.Entity.Being | src/uk/ac/reading/vv008146/project/entities/LivingBeing.java:60-76 | the herd sprite, energy 10, alive, flocking, the zero velocity, maximum speed 5, attack value 1 |
| Entities.Entity.Load | src/uk/ac/reading/vv008146/project/entities/Food.java:96-116 | a loaded food is the saved one with a fresh uuid (`food.setUuid()`); the same holds for `LivingBeing.load` followed by `setUuid()` in fromText (World.java:242) |
| Entities.Entity.SetVelocity | src/uk/ac/reading/vv008146/project/entities/Entity.java:73-98 | only the velocity changes, to the clamped vector; the discarded bounding offset leaves no trace |
| Entities.Entity.SetPosition | src/uk/ac/reading/vv008146/project/entities/Entity.java:134-136 | only the position changes, to the argument |
| Entities.Entity.SetEnergy | src/uk/ac/reading/vv008146/project/entities/Entity.java:142-144 | only the energy changes, to the argument |
| Entities.Entity.SetPoisonous | src/uk/ac/reading/vv008146/project/entities/Food.java:83-85 | only the poisonous flag changes, to the argument |
| Entities.Entity.SetDead | src/uk/ac/reading/vv008146/project/entities/LivingBeing.java:106-108 | only the dead flag changes |
| Entities.Entity.SetGoal | src/uk/ac/reading/vv008146/project/entities/LivingBeing.java:35-37 | only the goal changes |
| Entities.Entity.SetLastRandomMovement | src/uk/ac/reading/vv008146/project/entities/LivingBeing.java:114-116 | only the timestamp changes |
| Entities.Entity.SmellFood | src/uk/ac/reading/vv008146/project/entities/LivingBeing.java:126-174 | the loop returns the entity at the index Smell gives, or null, and changes nothing |
| Entities.Entity.CalculateVectorToFood | src/uk/ac/reading/vv008146/project/entities/LivingBeing.java:176-202 | the result and the being's new state are StepTowardFood's |
| Entities.ScanBlocked | src/uk/ac/reading/vv008146/project/World.java:403-417 | the loop answers whether some entity that is not Food sits exactly at (x, y) |
| Entities.ScenesAgree | src/uk/ac/reading/vv008146/project/World.java:406 | reading the map's objects in iteration order gives the same bodies as reading its snapshot in that order |
| Census.CountFoodIsFoodKeys | src/uk/ac/reading/vv008146/project/World.java:466-481 | foodCount is the number of Food entries of the map, whatever the iteration order |
| Census.CountFoodAmong | src/uk/ac/reading/vv008146/project/World.java:466-481 | over distinct keys, the count so far is the number of Food entries met |
| Census.EnergyFoldBounds | src/uk/ac/reading/vv008146/project/World.java:444-459 | with non-negative energies and a total below Integer.MAX_VALUE, the truncating sum never overflows, stays at or below the exact sum of the non-Food energies, and loses strictly less than 1 per non-Food entity (the exact sum is below the result plus their number); with no non-Food entity both are 0 |
| Census.EnergyFoldWhole | src/uk/ac/reading/vv008146/project/World.java:444-459 | whole-number energies whose partial sums fit in an int are summed exactly |
| Census.BlockedAnyOrder | src/uk/ac/reading/vv008146/project/World.java:403-417 | blocked holds exactly when some non-Food entry of the map sits at (x, y), whatever the iteration order; obstacles and beings block, food does not |
| Feeding.EatFold | src/uk/ac/reading/vv008146/project/World.java:509-552 | the loop of removeEatenFood never adds or removes an entry |
| Feeding.EatStep | src/uk/ac/reading/vv008146/project/World.java:514-551 | one more iteration of the loop extends the closed form by one entity |
| Feeding.EatOneAtEater | src/uk/ac/reading/vv008146/project/World.java:514-547 | a being that meets one entity gains exactly what that entity contributes |
| Feeding.EatFoldIsEaten | src/uk/ac/reading/vv008146/project/World.java:509-552 | for a living-being eater and distinct keys, the loop as written equals the closed form, in any order: the eater gains the sum of the contributions, everything edible is left with 0, nothing else changes |
| Feeding.EatenAtEater | src/uk/ac/reading/vv008146/project/World.java:523-542 | the eater ends with its energy plus the gain |
| Feeding.OutsideWindowUntouched | src/uk/ac/reading/vv008146/project/World.java:515-516 | an entity outside the strict ±10 window is untouched |
| Feeding.NonCarnivoreSparesBeings | src/uk/ac/reading/vv008146/project/World.java:535-547 | a non-carnivore never changes another living being |
| Feeding.EatenChangesOnlyEnergy | src/uk/ac/reading/vv008146/project/World.java:509-552 | only energies change; every entity other than the eater keeps its energy or is left with 0 |
| Feeding.EatenEnergies | src/uk/ac/reading/vv008146/project/World.java:523-545 | every edible entity is left with 0; the eater gains exactly the sum of the contributions |
| Feeding.FoodContribution | src/uk/ac/reading/vv008146/project/World.java:523-527 | poisonous food costs the eater the food's energy; other food gives energy times the eater's efficiency |
| Feeding.GainOfFood | src/uk/ac/reading/vv008146/project/World.java:514-547 | the gain is the sum of the per-entity contributions |
| Feeding.GainOfEmptied | src/uk/ac/reading/vv008146/project/World.java:524-545 | once everything edible has energy 0, the gain is 0 |
| Feeding.EdibleKept | src/uk/ac/reading/vv008146/project/World.java:515-538 | eating keeps what is edible: kinds, positions, identity and the carnivore flag do not change |
| Feeding.EatenIdempotent | src/uk/ac/reading/vv008146/project/World.java:509-552 | removeEatenFood is idempotent: a second call with the same positions changes nothing |
| Tick.Wander | src/uk/ac/reading/vv008146/project/World.java:490-502 | after more than 5000 ms, a new goal from the draws and a new timestamp, else both are kept; velocity is the clamped heading to the goal, within the maximum speed; energy drops by the depletion value on every call; nothing else changes |
| Tick.WanderGoalInBounds | src/uk/ac/reading/vv008146/project/World.java:493-497 | a goal drawn by nextInt over the maximum position lies in [0, maxX) × [0, maxY) |
| Tick.Chase | src/uk/ac/reading/vv008146/project/World.java:577-580 | heading for food sets the velocity to the clamp of v + (v + unit), charging the energy once, or, when blocked, to the clamp of v + (v + jitter) with the energy kept; only velocity and energy change |
| Tick.ChaseJitterInRange | src/uk/ac/reading/vv008146/project/entities/LivingBeing.java:196-199 | under `nextInt(5)` draws (`JitterFits`), a blocked chase steers by the clamp of v + (v + j) with j a whole-number vector in [0, 5) × [0, 5) |
| Tick.Move | src/uk/ac/reading/vv008146/project/World.java:575-589 | a moving being steps by exactly its new velocity, within its maximum speed; only energy, position, velocity, goal and timestamp change |
| Tick.Pass | src/uk/ac/reading/vv008146/project/World.java:561-594 | after k iterations the pass invariant holds: visited beings are settled, the others were at most eaten |
| Tick.Visited | src/uk/ac/reading/vv008146/project/World.java:564-592 | one more visit extends the pass invariant to k + 1 entities |
| Tick.IndependentPass | src/uk/ac/reading/vv008146/project/World.java:561-594 | the whole first loop satisfies the pass invariant for every entity |
| Tick.VisitStep | src/uk/ac/reading/vv008146/project/World.java:564-592 | the visit of entity k keeps the invariant and what later moves need |
| Tick.EvolvedEat | src/uk/ac/reading/vv008146/project/World.java:591 | eating by a visited being keeps the invariant |
| Tick.PassEffects | src/uk/ac/reading/vv008146/project/World.java:559-594 | no entry is added or removed; a dead being stays dead, and a being without energy dies; flocking and dead beings keep their position and velocity; every other being steps by exactly its new velocity, within its maximum speed; food and obstacles never move and either keep their energy or are eaten down to 0 |
| Simulation.FlockReadyAfterFlock | src/uk/ac/reading/vv008146/project/World.java:603 | one flock's step touches only its members, so every other flock stays ready to simulate |
| Simulation.PassKeepsFlocksReady | src/uk/ac/reading/vv008146/project/World.java:561-594 | the first loop never removes a velocity or changes a kind, so every flock can still be simulated |
| Simulation.FlocksPrefix | src/uk/ac/reading/vv008146/project/World.java:603 | after n flocks, a member has only flown and a non-member is unchanged |
| Simulation.SimulateOutsideOfGrid | src/uk/ac/reading/vv008146/project/World.java:559-605 | the whole tick keeps the keys and gives every flock a new state |
| Simulation.OutsidePlan | src/uk/ac/reading/vv008146/project/World.java:559-605 | the flock loop's plan from the end of the first loop ends where the whole tick does |
| Simulation.TickEffects | src/uk/ac/reading/vv008146/project/World.java:559-605 | over a whole tick, no entry is added or removed, kinds stay, dead beings stay dead, and food and obstacles never move: their energy is kept or dropped to 0 |
| Flocking.SumExceptIsSumMinus | src/uk/ac/reading/vv008146/project/behaviour/BoidFlock.java:95-111 | leaving out the boid's own vector is subtracting it from the total |
| Flocking.CentreOfMassOfGathered | src/uk/ac/reading/vv008146/project/behaviour/BoidFlock.java:95-111 | when all other members stand at p, the cohesion vector is p / 1000 |
| Flocking.CentreOfMassCancelled | src/uk/ac/reading/vv008146/project/behaviour/BoidFlock.java:76 | cohesion scaled by 0 contributes nothing |
| Flocking.AlignedFlockUncorrected | src/uk/ac/reading/vv008146/project/behaviour/BoidFlock.java:131-145 | when all members share one velocity, the alignment correction is zero |
| Flocking.SeparationOfIsolated | src/uk/ac/reading/vv008146/project/behaviour/BoidFlock.java:113-129 | when no other member is strictly within 300, separation is the zero vector |
| Flocking.SeparationIgnoresFar | src/uk/ac/reading/vv008146/project/behaviour/BoidFlock.java:117-124 | separation is unchanged when members at or beyond 300 are moved to other positions at or beyond 300, and when the boid's own entry changes in anything but its position: only other members strictly within 300 contribute |
| Flocking.SeparationShifted | src/uk/ac/reading/vv008146/project/behaviour/BoidFlock.java:113-129 | separation depends only on relative positions: shifting the flock does not change it |
| Flocking.Bounding | src/uk/ac/reading/vv008146/project/behaviour/BoidFlock.java:147-163 | per axis: +150 below the minimum, 0 within the bounds, −150 above the maximum (the minimum test comes first) |
| Flocking.BoundingInside | src/uk/ac/reading/vv008146/project/behaviour/BoidFlock.java:147-163 | inside the bounds the bounding rule is zero |
| Flocking.NearestObstacle | src/uk/ac/reading/vv008146/project/behaviour/BoidFlock.java:189-207 | the running minimum answers an obstacle strictly within 50 |
| Flocking.NearestObstacleIsNearest | src/uk/ac/reading/vv008146/project/behaviour/BoidFlock.java:189-207 | it is the nearest obstacle within 50, the first of them on a tie, and None exactly when there is none |
| Flocking.AvoidPointsAway | src/uk/ac/reading/vv008146/project/behaviour/BoidFlock.java:189-213 | the avoidance vector is boid − nearest obstacle, or zero with no obstacle near |
| Flocking.NearestObstacleSeesObstaclesOnly | src/uk/ac/reading/vv008146/project/behaviour/BoidFlock.java:189-213 | avoidance reads only obstacles: two worlds with the same obstacles give the same vector |
| Flocking.MeanderOffset | src/uk/ac/reading/vv008146/project/behaviour/BoidFlock.java:215-230 | the two draws with x negated for 25 < inversion < 50, y for inversion < 25, both for 50 < inversion < 75, else neither |
| Flocking.Meander | src/uk/ac/reading/vv008146/project/behaviour/BoidFlock.java:215-238 | the meander vector plus the offset gives the boid's goal; without a goal it is the offset |
| Flocking.MeanderOffsetSmall | src/uk/ac/reading/vv008146/project/behaviour/BoidFlock.java:218-230 | each component of the offset has the magnitude of its nextInt(10) draw, so it lies strictly within ±10 |
| Flocking.RandomPosition | src/uk/ac/reading/vv008146/project/behaviour/BoidFlock.java:176-187 | the flock goal becomes the smelled food's position, else stays; the boid's goal becomes the flock goal and nothing else changes; the rule vector plus the position is the goal |
| Flocking.GoalKeepsReady | src/uk/ac/reading/vv008146/project/behaviour/BoidFlock.java:186 | setting a member's goal keeps the flock ready to simulate |
| Flocking.Limited | src/uk/ac/reading/vv008146/project/behaviour/BoidFlock.java:165-174 | the stored velocity is within 1.5 and within the boid's own maximum speed; a sum within both is kept |
| Flocking.BoidUpdate | src/uk/ac/reading/vv008146/project/behaviour/BoidFlock.java:74-90 | one member's update touches only that member: it steps by its new velocity, within both limits, with the flock goal as its goal |
| Flocking.FlockPrefix | src/uk/ac/reading/vv008146/project/behaviour/BoidFlock.java:74-91 | after k updates in list order the first k members have flown and the rest are unchanged |
| Flocking.IterationUpdates | src/uk/ac/reading/vv008146/project/behaviour/BoidFlock.java:74-91 | iteration k updates member k on what the first k updates left: later boids read earlier boids' new positions |
| Flocking.FlockReadyKept | src/uk/ac/reading/vv008146/project/behaviour/BoidFlock.java:74-91 | updating members keeps the flock ready: velocities stay, kinds and keys stay |
| Flocking.SimulateFlock | src/uk/ac/reading/vv008146/project/behaviour/BoidFlock.java:67-93 | every member has flown; the timestamp is replaced exactly when more than 1000 ms have passed; an empty flock changes only the goal |
| Flocking.FlockEffects | src/uk/ac/reading/vv008146/project/behaviour/BoidFlock.java:67-93 | after simulateFlock each member has moved by exactly its new velocity, which is within 1.5 and its own maximum speed, and changed only velocity, position and goal; keys are unchanged |
| Boids.BoidFlock.constructor | src/uk/ac/reading/vv008146/project/behaviour/BoidFlock.java:44-61 | the given members and bounds, the drawn goal and the clock reading |
| Boids.BoidFlock.Add | src/uk/ac/reading/vv008146/project/behaviour/BoidFlock.java:63-65 | appends the being and changes nothing else |
| Boids.BoidFlock.CentreOfMassRule | src/uk/ac/reading/vv008146/project/behaviour/BoidFlock.java:95-111 | the loop computes CentreOfMass |
| Boids.BoidFlock.MaintainDistanceRule | src/uk/ac/reading/vv008146/project/behaviour/BoidFlock.java:113-129 | the loop computes MaintainDistance |
| Boids.BoidFlock.NormaliseVelocityRule | src/uk/ac/reading/vv008146/project/behaviour/BoidFlock.java:131-145 | the loop computes NormaliseVelocity |
| Boids.BoidFlock.BoundingRule | src/uk/ac/reading/vv008146/project/behaviour/BoidFlock.java:147-163 | computes Bounding with the flock's bounds |
| Boids.BoidFlock.SpeedLimitationRule | src/uk/ac/reading/vv008146/project/behaviour/BoidFlock.java:165-174 | the velocity clamped to 1.5 |
| Boids.BoidFlock.RandomPositionRule | src/uk/ac/reading/vv008146/project/behaviour/BoidFlock.java:176-187 | the flock goal becomes the smelled food's position, else is kept; the boid's goal is set to it; the result plus the position is the goal |
| Boids.BoidFlock.AvoidObstaclesRule | src/uk/ac/reading/vv008146/project/behaviour/BoidFlock.java:189-213 | the loop computes Avoid |
| Boids.BoidFlock.MeanderingRule | src/uk/ac/reading/vv008146/project/behaviour/BoidFlock.java:215-238 | computes Meander, including the missing-goal handler |
| Boids.BoidFlock.GoalRule | src/uk/ac/reading/vv008146/project/behaviour/BoidFlock.java:79 | randomPositionRule on the world map agrees with RandomPosition on its snapshot |
| Boids.BoidFlock.Steer | src/uk/ac/reading/vv008146/project/behaviour/BoidFlock.java:76-84 | the seven rules in Java's order; only the goal rule changes state |
| Boids.BoidFlock.Step | src/uk/ac/reading/vv008146/project/behaviour/BoidFlock.java:84-89 | the boid gets the Limited velocity and steps by it; only its snapshot entry changes |
| Boids.BoidFlock.UpdateBoid | src/uk/ac/reading/vv008146/project/behaviour/BoidFlock.java:74-90 | one iteration leaves the world and goal that BoidUpdate gives |
| Boids.BoidFlock.RedrawGoal | src/uk/ac/reading/vv008146/project/behaviour/BoidFlock.java:69-72 | the goal is redrawn exactly when more than 1000 ms have passed |
| Boids.BoidFlock.FlyAll | src/uk/ac/reading/vv008146/project/behaviour/BoidFlock.java:74-91 | the loop follows the plan of updates in list order |
| Boids.BoidFlock.SimulateFlock | src/uk/ac/reading/vv008146/project/behaviour/BoidFlock.java:67-93 | the world's entities and the flock's state end as Flocking.SimulateFlock computes from the state on entry; membership is unchanged |
| Boids.SnapshotUpdate | src/uk/ac/reading/vv008146/project/behaviour/BoidFlock.java:84-89 | changing one entity object changes the world's snapshot at that key only |
| Worlds.World.Default | src/uk/ac/reading/vv008146/project/World.java:42-63 | a 5 × 5 world for 25 entities, food detected within 4, bounds (0,0) to (5,5), empty maps |
| Worlds.World.constructor | src/uk/ac/reading/vv008146/project/World.java:92-98 | the given size and limit, detection distance 0, bounds (0,0) to (width, height), empty maps |
| Worlds.World.SetFoodDetectionDistance | src/uk/ac/reading/vv008146/project/World.java:80-82 | replaces the distance and nothing else |
| Worlds.World.AddEntity | src/uk/ac/reading/vv008146/project/World.java:132-139 | inserts under the uuid exactly when the world is not full (size < limit), else leaves the map; the size never grows past the limit |
| Worlds.World.Blocked | src/uk/ac/reading/vv008146/project/World.java:403-417 | true exactly when some non-Food entity sits at (x, y) |
| Worlds.World.FoodCount | src/uk/ac/reading/vv008146/project/World.java:466-481 | the number of Food entries of the map |
| Worlds.World.TotalEntityEnergy | src/uk/ac/reading/vv008146/project/World.java:444-459 | the truncating sum of the non-Food energies |
| Worlds.World.MoveEntityInRandomDirection | src/uk/ac/reading/vv008146/project/World.java:490-502 | the being's new state is Wander's |
| Worlds.World.RemoveEatenFood | src/uk/ac/reading/vv008146/project/World.java:509-552 | the world's new snapshot is the loop EatFold over the iteration order |
| Worlds.World.EatOneAt | src/uk/ac/reading/vv008146/project/World.java:514-551 | one iteration changes the snapshot as EatOne says |
| Worlds.World.MeetFood | src/uk/ac/reading/vv008146/project/World.java:517-533 | the food is left with 0; the eater gains the efficiency share, or loses the energy of poisonous food |
| Worlds.World.MeetPrey | src/uk/ac/reading/vv008146/project/World.java:535-547 | a carnivore gains the prey's efficiency share and the prey is left with 0 |
| Worlds.EatFoodAt | src/uk/ac/reading/vv008146/project/World.java:517-533 | food inside the window moves its energy share to the eater, and then drops to 0 |
| Worlds.World.VisitEntity | src/uk/ac/reading/vv008146/project/World.java:564-592 | one iteration of the first loop changes the snapshot as Visit says |
| Worlds.World.StepBeing | src/uk/ac/reading/vv008146/project/World.java:569-589 | the dead mark, then the move of a being neither flocking nor dead |
| Worlds.World.MoveBeing | src/uk/ac/reading/vv008146/project/World.java:577-588 | the being's new state is Move's |
| Worlds.World.ChaseMeal | src/uk/ac/reading/vv008146/project/World.java:579-580 | the being's new state is Chase's |
| Worlds.World.PassAll | src/uk/ac/reading/vv008146/project/World.java:561-594 | the first loop leaves the snapshot IndependentPass gives |
| Worlds.World.FlocksAll | src/uk/ac/reading/vv008146/project/World.java:603 | simulateFlock for every flock in iteration order follows the plan |
| Worlds.World.SimulateOutsideOfGrid | src/uk/ac/reading/vv008146/project/World.java:559-605 | the world's entities and every flock's state end as Simulation.SimulateOutsideOfGrid computes from the state on entry |
| Worlds.RandomEmptyPosition | src/uk/ac/reading/vv008146/project/World.java:427-436 | a cell in [0, width − 1) × [0, height − 1), keeping an in-range draw; nothing (the exception) exactly when width − 1 < 1 or height − 1 < 1 |
| Seeds.Pieces | src/uk/ac/reading/vv008146/project/World.java:173 | the text between spaces, one more piece than spaces, none holding a space |
| Seeds.JoinPieces | src/uk/ac/reading/vv008146/project/World.java:173 | joining the pieces with spaces gives the text back |
| Seeds.PiecesJoin | src/uk/ac/reading/vv008146/project/World.java:173 | splitting joined space-free pieces gives the pieces back |
| Seeds.Split | src/uk/ac/reading/vv008146/project/World.java:173 | `split(" ")`: text without a space is one piece; otherwise a prefix of the pieces between spaces that ends in a non-empty piece, every dropped piece being empty |
| Seeds.SplitJoin | src/uk/ac/reading/vv008146/project/World.java:173 | non-empty space-free tokens joined by spaces split back into themselves |
| Seeds.ParseInt | src/uk/ac/reading/vv008146/project/World.java:175-180 | a parsed value is a 32-bit int with the sign of the text |
| Seeds.Digits | src/uk/ac/reading/vv008146/project/World.java:175-180 | the decimal digits of n, with no leading zero, have value n |
| Seeds.ParseShow | src/uk/ac/reading/vv008146/project/World.java:175-180 | every 32-bit int written out parses back to itself |
| Seeds.ReadHeader | src/uk/ac/reading/vv008146/project/World.java:175-180 | the header is read exactly when the first four tokens exist and parse; otherwise the first missing or malformed one is the error |
| Seeds.ReadHeaderOfSeed | src/uk/ac/reading/vv008146/project/World.java:173-180 | a seed written as four numbers and further tokens reads back as those four numbers |
| Seeds.HeaderOfTokens | src/uk/ac/reading/vv008146/project/World.java:175-180 | four tokens that parse, then anything, read as that header |
| Seeds.Quantity | src/uk/ac/reading/vv008146/project/World.java:195-196 | round(maxEntities × percent / 100) is a 32-bit int |
| Seeds.QuantityBounds | src/uk/ac/reading/vv008146/project/World.java:195-196 | for 0 to 100 percent of a non-negative limit: between 0 and the limit, within a half of the exact share; 0% is none and 100% is all |
| Seeds.PairsFromShape | src/uk/ac/reading/vv008146/project/World.java:235-238 | from token i on, the loop reads pair k as tokens i + 2k and i + 2k + 1, and as many pairs as fit |
| Seeds.TrailingTokenIgnored | src/uk/ac/reading/vv008146/project/World.java:235 | a trailing token without a quantity after it is ignored |
| Generation.Repeat | src/uk/ac/reading/vv008146/project/World.java:199 | `for (j = 0; j < n; j++)` runs max(n, 0) times |
| Generation.PairOps | src/uk/ac/reading/vv008146/project/World.java:235-264 | the pairs loop makes only beings |
| Generation.PairStep | src/uk/ac/reading/vv008146/project/World.java:235-264 | a malformed quantity ends the run with its error; otherwise that many beings of the species are made, then the next pair |
| Generation.ScriptFoodFirst | src/uk/ac/reading/vv008146/project/World.java:199-232 | step k makes food exactly when k is below the food quantity |
| Generation.Create | src/uk/ac/reading/vv008146/project/World.java:199-264 | a made entity has the step's kind and uuid and lies on a cell of findRandomEmptyPosition; an obstacle fails only for lack of room |
| Generation.Run | src/uk/ac/reading/vv008146/project/World.java:199-264 | a run that succeeds made one entity per step, of the step's kind, with the step's uuid |
| Generation.RunStops | src/uk/ac/reading/vv008146/project/World.java:199-264 | an exception ends the run: later steps do not change the outcome |
| Generation.GenerateRuns | src/uk/ac/reading/vv008146/project/World.java:173-264 | a good header with a non-negative size leads to the run of the script |
| Generation.Spawned | src/uk/ac/reading/vv008146/project/World.java:132-139 | addEntity offered every body never holds more than the limit, or more than were offered |
| Generation.SpawnedIsTabled | src/uk/ac/reading/vv008146/project/World.java:132-139 | with fresh uuids, the world keeps exactly the first `limit` bodies offered |
| Generation.SpawnedKeepsFirst | src/uk/ac/reading/vv008146/project/World.java:132-139 | with fresh uuids, the world holds min(made, limit) entities: body k exactly when k is below that |
| Generation.SpawnedFood | src/uk/ac/reading/vv008146/project/World.java:199-220 | the food in the world is the food among the first min(made, limit) bodies |
| Generation.GeneratedCounts | src/uk/ac/reading/vv008146/project/World.java:195-262 | a generated world with fresh uuids holds min(made, limit) entities, of which min(foodQuantity, limit) are food |
| Generation.GroupsAreFlocks | src/uk/ac/reading/vv008146/project/World.java:250-260 | insert-or-append gives a flock exactly for each species with a flocking being, holding exactly its flocking beings in the order made |
| Generation.FlockOfMembers | src/uk/ac/reading/vv008146/project/World.java:250-260 | a uuid is in a species' flock exactly when a flocking being of that species with that uuid was made |
| Generation.ExactlyOneFlock | src/uk/ac/reading/vv008146/project/World.java:250-260 | with fresh uuids, every flocking being is in the flock of its species and in no other |
| Generation.RefusedStillFlocks | src/uk/ac/reading/vv008146/project/World.java:250-262 | a flocking being refused by a full world is not in the world, yet is a member of its species' flock |
| Generation.NothingRefused | src/uk/ac/reading/vv008146/project/World.java:250-262 | when nothing is refused, every flock member is a flocking entity of the world of that species |
| Generation.FlockStateFromFirst | src/uk/ac/reading/vv008146/project/World.java:250-260 | a flock keeps the goal and timestamp drawn when its first member opened it |
| Generation.Admit | src/uk/ac/reading/vv008146/project/World.java:262 | offering the entity to addEntity changes the entity map as AdmitStep says, and leaves the flocks |
| Generation.JoinFlock | src/uk/ac/reading/vv008146/project/World.java:250-260 | the flock map changes as GroupStep says, and the entity map does not |
| Generation.JoinExisting | src/uk/ac/reading/vv008146/project/World.java:251-253 | the species' flock gains the being at its end; the other flocks are unchanged |
| Generation.OpenFlock | src/uk/ac/reading/vv008146/project/World.java:254-258 | the first being of its species opens a new flock of one member with the drawn state |
| Generation.MakeEntity | src/uk/ac/reading/vv008146/project/World.java:199-247 | the new object's state is Create's body, or the exception Create names |
| Generation.CreateOne | src/uk/ac/reading/vv008146/project/World.java:199-262 | one step: the entity is made, joins its flock, and is offered to addEntity |
| Generation.CreateMany | src/uk/ac/reading/vv008146/project/World.java:240-263 | the inner loop leaves the world the run of its steps describes |
| Generation.CreatePairs | src/uk/ac/reading/vv008146/project/World.java:235-264 | the pairs loop leaves the world the run of the pairs describes |
| Generation.Populate | src/uk/ac/reading/vv008146/project/World.java:194-264 | the three loops leave the world the run of the whole script describes |
| Generation.Detect | src/uk/ac/reading/vv008146/project/World.java:266 | setting the detection distance keeps the entities and the flocks |
| Generation.FromText | src/uk/ac/reading/vv008146/project/World.java:167-269 | fromText fails exactly when Generate does, with its error; otherwise the world has the seed's size, the given limit and detection distance, the bounds (0,0) to (width, height), addEntity's outcome on everything made, and one flock per species |

## Left out

- The noise grid and the food rejection loop (World.java:186, 204-211, 278-293): `SimplexNoise` is not part of this model. The cell each food takes is the draw that loop accepts (`SpawnDraw.cellX`, `cellY`), so the loop that runs forever without a fertile cell is not modelled.
- A negative width or height fails before anything is made (`NegativeSize`), standing for the exception of allocating the noise array.
- Seeds.ParseInt: reads only the ASCII digits 0-9; Java's `Integer.parseInt` also accepts other Unicode decimal digits.
- Doubles are reals: no rounding, overflow to infinity or NaN. The float multiplier `(float) percent / 100` in fromText is the exact quotient.
- The NaN paths are preconditions. A flock of exactly one member divides by zero in `centreOfMassRule` and `normaliseVelocityRule` (`FlockReady` requires `|members| != 1`). A moving being must not sit exactly on live food, because `calculateVectorToFood` divides by the distance (`MoveReady`). `Vector2.scalarDivide` requires a non-zero divisor.
- Tick.MoveReady, Tick.Move, Tick.PassEffects: every moving being must have a velocity, although Java reads the old velocity only on the chase path (World.java:580, LivingBeing.java:194-198). A wandering being with a null velocity does not throw in Java, because `moveEntityInRandomDirection` sets the velocity (World.java:499) before it is read, but the model does not cover it. The plain `LivingBeing(spriteName, position, world)` constructor leaves the velocity null.
- Tick.MoveReady, Tick.Wander: a moving being needs a goal or an expired timer. Without either, `e.getGoal().subtract(...)` throws a `NullPointerException` in Java, which the model does not describe.
- Flocking.FlockReady, Flocking.SimulateFlock, Boids.BoidFlock.SimulateFlock: every flock member needs a velocity. A null one throws a `NullPointerException` in `normaliseVelocityRule`, which the model does not describe.
- Entities.ClampSpeed, Entities.Entity.SetVelocity, Flocking.Limited, Tick.Wander, Tick.Chase, Tick.Move, Worlds.World.MoveEntityInRandomDirection: the maximum speed must be non-negative (`0.0 <= maxSpeed`, also part of `MoveReady` and `FlockReady`). With a negative one, Entity.java:75-77 treats every velocity as too fast and scales it by the negative maximum, reversing it, and a zero velocity becomes NaN. Java never sets a negative value: the maximum speed is 1.5 (Entity.java:63) or 5 (LivingBeing.java:72).
- `Math.sqrt` is the parameter `sqrt`, since its values cannot be computed here; `IsSqrt` states the exact root.
- `java.util.Random`, `System.currentTimeMillis()`, `setUuid()`/`generateUuid()` are the draw records `BeingDraws`, `BoidDraws`, `FlockDraws` and `SpawnDraw`; the draws' ranges (`nextInt(n)` in [0, n)) are predicates such as `GoalDrawsFit` and `JitterFits`, assumed by the lemmas that need them rather than by the operations.
- The HashMaps' iteration orders are parameters. The lemmas about foodCount, blocked and removeEatenFood hold for every order; the tick and the flock loop are stated for the order given.
- `Entity.load` (Entity.java:226-243) keeps the saved uuid and is not called by the engine; it is not modelled. `Food.load` and `LivingBeing.load` read Java serialization files. They are the functions `foodFile` and `beingFile` of `Sources` from a name to a saved body, and Preferences' settings directory is not modelled.
- Worlds.World.SimulateOutsideOfGrid, Simulation.SimulateOutsideOfGrid, Simulation.FlocksPrefix, Simulation.TickEffects, Flocking.SimulateFlock, Boids.BoidFlock.SimulateFlock: require every flock member to be an entity of the world (`Valid`, `FlocksReady`, `FlockReady`), so a world in which fromText put a refused being into a flock is not covered.
- Tick.Wander, Worlds.World.MoveEntityInRandomDirection, Boids.BoidFlock.constructor, Boids.BoidFlock.RedrawGoal: `rng.nextInt(n)` throws `IllegalArgumentException` when n < 1 (a maximum position below 1, or a world width or height of 0); the model does not throw and takes the drawn goal as given. In a world built by fromText that holds a being, the width and height are at least 2 (placing it draws `nextInt(width - 1)` and `nextInt(height - 1)`, World.java:432-433), and the maximum position is (width, height).
- `Worlds.World`: the flock map always exists. Worlds not built by fromText in Java have a null flock map, and their tick throws.
- `isCarnivore()` is called but not defined in `LivingBeing.java`; it is a field `carnivore` of the entity.
- The 1-argument `fromText(seed)`, `toFile`/`fromFile`/`save`/`load`, `toString`/`toText`, `getNoise`, the getters and setters of bounds and colours: I/O or not part of the engine.
- `Direction`, `lastRandomDirection`, `goalLastSetMillis`, `GraveMarker`, the sprite loader and the JavaFX user interface: unused by the engine or presentation only.
- The `world` back-reference of every entity and flock is not a field; what it reads (the entities in iteration order, the bounds, the detection distance) is passed in. `Entity()` building a throw-away `new World()` is not modelled.
