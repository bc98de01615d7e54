/**
 * World.fromText(seed, maxEntities, foodDetectionDistance, food): a world
 * of the seed's width and height for maxEntities entities, then
 * round(maxEntities x food% / 100) food items, round(maxEntities x
 * obstacles% / 100) obstacles and, for every species/quantity pair, that
 * many beings of the species, each offered to addEntity in turn; a
 * flocking being joins the flock of its species, which is opened on its
 * first member.
 *
 * The template files, the random draws and the clock are parameters: the
 * k-th entity made takes the k-th draw record.
 */
module Generation {
  import opened Wrappers
  import opened Vectors
  import opened Entities
  import opened Flocking
  import opened Boids
  import opened Census
  import opened Simulation
  import opened Worlds
  import opened Seeds

  /** What Random, setUuid() and the clock give the k-th entity fromText makes. */
  datatype SpawnDraw = SpawnDraw(
    uuid: Uuid,           // the fresh uuid of setUuid() or of the Entity() constructor
    cellX: int,           // raw draws of findRandomEmptyPosition; for food, the cell the noise test accepts
    cellY: int,
    pick: int,            // raw draw of rng.nextInt(food.size()), food only
    goalX: int,           // what nextInt(width) and nextInt(height) return when this being opens a flock
    goalY: int,
    now: int)             // System.currentTimeMillis() when this being opens a flock

  /**
   * The food names and the template files: foodFile and beingFile give
   * what Food.load and LivingBeing.load read for a name, None when they
   * return null.
   */
  datatype Sources = Sources(
    food: seq<string>,
    foodFile: string -> Option<Body>,
    beingFile: string -> Option<Body>,
    spawn: nat -> SpawnDraw)

  datatype Job = FoodJob | ObstacleJob | BeingJob(name: string)

  /** One step of fromText: make an entity, or throw while reading a quantity. */
  datatype Op = Make(job: Job) | Fail(error: SeedError)

  /** How many times `for (j = 0; j < n; j++)` runs. */
  function Count(n: int): nat {
    if n < 0 then 0 else n
  }

  function Repeat(job: Job, n: int): (ops: seq<Op>)
    ensures |ops| == Count(n) && forall k :: 0 <= k < |ops| ==> ops[k] == Make(job)
  {
    seq(Count(n), _ => Make(job))
  }

  /** One more step of a repeated job. */
  lemma {:induction false} RepeatSnoc(d: seq<Op>, job: Job, j: nat)
    ensures d + Repeat(job, j) + [Make(job)] == d + Repeat(job, j + 1)
  {
    assert Repeat(job, j) + [Make(job)] == Repeat(job, j + 1);
  }

  /** A repeated job split after its j-th step. */
  lemma {:induction false} RepeatSplit(d: seq<Op>, job: Job, j: nat, n: int)
    requires j < Count(n)
    ensures d + Repeat(job, n) == (d + Repeat(job, j) + [Make(job)]) + Repeat(job, Count(n) - j - 1)
  {
    assert Repeat(job, n) == Repeat(job, j) + [Make(job)] + Repeat(job, Count(n) - j - 1);
  }

  /**
   * The species/quantity pairs from token i on: the quantity is parsed,
   * then that many beings are made; a malformed quantity ends the run.
   */
  function PairOps(ps: seq<(string, string)>, i: nat): (ops: seq<Op>)
    ensures forall k :: 0 <= k < |ops| && ops[k].Make? ==> ops[k].job.BeingJob?
    decreases |ps|
  {
    if |ps| == 0 then []
    else match ParseInt(ps[0].1)
      case None => [Fail(NotANumber(i + 1))]
      case Some(q) => Repeat(BeingJob(ps[0].0), q) + PairOps(ps[1..], i + 2)
  }

  /** Everything fromText makes after the header, in order. */
  function Script(tokens: seq<string>, h: Header, area: int): seq<Op> {
    Repeat(FoodJob, Quantity(area, h.foodPercent)) +
    Repeat(ObstacleJob, Quantity(area, h.obstaclesPercent)) +
    PairOps(PairsFrom(tokens, 4), 4)
  }

  /** The script as its three loops, grouped either way. */
  lemma {:induction false} ScriptParts(tokens: seq<string>, h: Header, area: int)
    ensures var a := Repeat(FoodJob, Quantity(area, h.foodPercent));
      var b := Repeat(ObstacleJob, Quantity(area, h.obstaclesPercent));
      var c := PairOps(PairsFrom(tokens, 4), 4);
      [] + a == a && Script(tokens, h, area) == a + (b + c) && Script(tokens, h, area) == (a + b) + c
  {
  }

  /** One turn of the pairs loop at token i, after the steps d. */
  lemma {:induction false} PairStep(d: seq<Op>, tokens: seq<string>, i: nat)
    requires i + 1 < |tokens|
    ensures ParseInt(tokens[i + 1]).None? ==> d + PairOps(PairsFrom(tokens, i), i) == d + [Fail(NotANumber(i + 1))]
    ensures ParseInt(tokens[i + 1]).Some? ==>
      d + PairOps(PairsFrom(tokens, i), i) ==
      (d + Repeat(BeingJob(tokens[i]), ParseInt(tokens[i + 1]).value)) + PairOps(PairsFrom(tokens, i + 2), i + 2)
  {
    var ps := PairsFrom(tokens, i);
    assert ps == [(tokens[i], tokens[i + 1])] + PairsFrom(tokens, i + 2);
    assert ps[1..] == PairsFrom(tokens, i + 2);
  }

  /** The pairs loop has nothing left once fewer than two tokens remain. */
  lemma {:induction false} PairsDone(d: seq<Op>, tokens: seq<string>, i: nat)
    requires !(i + 1 < |tokens|)
    ensures d + PairOps(PairsFrom(tokens, i), i) == d
  {
  }

  /** The food steps come first: step k makes food exactly when k is below the food quantity. */
  lemma {:induction false} ScriptFoodFirst(tokens: seq<string>, h: Header, area: int)
    ensures var ops := Script(tokens, h, area);
      forall k :: 0 <= k < |ops| ==> (ops[k] == Make(FoodJob) <==> k < Count(Quantity(area, h.foodPercent)))
  {
    var a := Repeat(FoodJob, Quantity(area, h.foodPercent));
    var b := Repeat(ObstacleJob, Quantity(area, h.obstaclesPercent));
    var c := PairOps(PairsFrom(tokens, 4), 4);
    assert Script(tokens, h, area) == a + (b + c);
  }

  function CellVector(c: (int, int)): Vector2 {
    Vector2(c.0 as real, c.1 as real)
  }

  function JobKind(job: Job): Kind {
    match job
    case FoodJob => FoodKind
    case ObstacleJob => ObstacleKind
    case BeingJob(_) => BeingKind
  }

  /**
   * The k-th entity, or the exception making it throws. Food: a cell, a
   * name drawn from the list, the loaded template; an obstacle: a cell;
   * a being: the loaded template, then a cell. A template of the wrong
   * class loads as null.
   */
  function Create(job: Job, k: nat, width: int, height: int, src: Sources): (r: Result<Body, SeedError>)
    ensures r.Success? ==> r.value.uuid == src.spawn(k).uuid && r.value.kind == JobKind(job)
    ensures r.Success? ==> exists c :: RandomEmptyPosition(width, height, src.spawn(k).cellX, src.spawn(k).cellY) == Some(c) &&
                                       r.value.position == CellVector(c)
    ensures r.Failure? && job.ObstacleJob? ==> r.error == NoRoom
  {
    var d := src.spawn(k);
    var cell := RandomEmptyPosition(width, height, d.cellX, d.cellY);
    match job
    case FoodJob =>
      if cell.None? then Failure(NoRoom)
      else if |src.food| == 0 then Failure(NoFoodNames)
      else
        var name := src.food[d.pick % |src.food|];
        var loaded := src.foodFile(name);
        if loaded.None? || loaded.value.kind != FoodKind then Failure(FoodNotLoaded(name))
        else Success(loaded.value.(uuid := d.uuid, position := CellVector(cell.value)))
    case ObstacleJob =>
      if cell.None? then Failure(NoRoom)
      else Success(ObstacleBody(d.uuid, CellVector(cell.value)))
    case BeingJob(name) =>
      var loaded := src.beingFile(name);
      if loaded.None? || loaded.value.kind != BeingKind then Failure(BeingNotLoaded(name))
      else if cell.None? then Failure(NoRoom)
      else Success(loaded.value.(uuid := d.uuid, position := CellVector(cell.value)))
  }

  /**
   * The steps run in order: the entities made so far, or the first
   * exception. A run that succeeds made one entity per step, of the
   * step's kind, with the step's uuid.
   */
  function Run(ops: seq<Op>, width: int, height: int, src: Sources): (r: Result<seq<Body>, SeedError>)
    ensures r.Success? ==> |r.value| == |ops|
    ensures r.Success? ==> forall k :: 0 <= k < |ops| ==>
      ops[k].Make? && r.value[k].kind == JobKind(ops[k].job) && r.value[k].uuid == src.spawn(k).uuid
    decreases |ops|
  {
    if |ops| == 0 then Success([])
    else match Run(ops[..|ops| - 1], width, height, src)
      case Failure(e) => Failure(e)
      case Success(bs) =>
        match ops[|ops| - 1]
        case Fail(e) => Failure(e)
        case Make(job) =>
          match Create(job, |bs|, width, height, src)
          case Failure(e) => Failure(e)
          case Success(b) => Success(bs + [b])
  }

  /** One more Make step on a run that succeeded. */
  lemma {:induction false} RunSnoc(ds: seq<Op>, job: Job, width: int, height: int, src: Sources, bs: seq<Body>)
    requires Run(ds, width, height, src) == Success(bs)
    ensures Run(ds + [Make(job)], width, height, src) ==
      match Create(job, |bs|, width, height, src)
      case Failure(e) => Failure(e)
      case Success(b) => Success(bs + [b])
  {
    assert (ds + [Make(job)])[..|ds|] == ds;
  }

  /** An exception ends the run: whatever steps come after it, the outcome stays. */
  lemma {:induction false} RunStops(a: seq<Op>, b: seq<Op>, width: int, height: int, src: Sources)
    requires Run(a, width, height, src).Failure?
    ensures Run(a + b, width, height, src) == Run(a, width, height, src)
    decreases |b|
  {
    if |b| > 0 {
      var n := |b| - 1;
      RunStops(a, b[..n], width, height, src);
      assert (a + b)[..|a + b| - 1] == a + b[..n];
    } else {
      assert a + b == a;
    }
  }

  datatype Generated = Generated(header: Header, bodies: seq<Body>)

  /**
   * fromText as a value: the header, then the run of the script, in
   * a world whose size the header gives; a negative size fails in
   * generateNoise before anything is made.
   */
  function Generate(seed: string, area: int, src: Sources): Result<Generated, SeedError> {
    var tokens := Split(seed);
    match ReadHeader(tokens)
    case Failure(e) => Failure(e)
    case Success(h) =>
      if h.width < 0 || h.height < 0 then Failure(NegativeSize)
      else match Run(Script(tokens, h, area), h.width, h.height, src)
        case Failure(e) => Failure(e)
        case Success(bs) => Success(Generated(h, bs))
  }

  /** Generate once the header is read and the size is not negative: the run of the script. */
  lemma {:induction false} GenerateRuns(seed: string, area: int, src: Sources, h: Header)
    requires ReadHeader(Split(seed)) == Success(h) && h.width >= 0 && h.height >= 0
    ensures var run := Run(Script(Split(seed), h, area), h.width, h.height, src);
      Generate(seed, area, src) == if run.Success? then Success(Generated(h, run.value)) else Failure(run.error)
  {
  }

  /** addEntity's outcome on one body: stored under its uuid while the map is below the limit. */
  function AdmitStep(limit: int, t: Table, b: Body): Table {
    if |t| < limit then t[b.uuid := b] else t
  }

  /** addEntity offered every body in turn, from the empty map. */
  function Spawned(limit: int, bs: seq<Body>): (t: Table)
    ensures |t| <= |bs|
    ensures 0 <= limit ==> |t| <= limit
    decreases |bs|
  {
    if |bs| == 0 then map[]
    else AdmitStep(limit, Spawned(limit, bs[..|bs| - 1]), bs[|bs| - 1])
  }

  lemma {:induction false} SpawnedSnoc(limit: int, bs: seq<Body>, b: Body)
    ensures Spawned(limit, bs + [b]) == AdmitStep(limit, Spawned(limit, bs), b)
  {
    assert (bs + [b])[..|bs|] == bs;
  }

  /** A being that takes part in flocking. */
  predicate JoinsFlock(b: Body) {
    b.kind == BeingKind && b.flock
  }

  /** The goal and timestamp a new BoidFlock draws. */
  function DrawnState(d: SpawnDraw): FlockState {
    FlockState(Vector2(d.goalX as real, d.goalY as real), d.now)
  }

  /**
   * The flock map after one more body: a flocking being is appended to the
   * flock of its species when there is one, and otherwise opens it with
   * the draws d.
   */
  function GroupStep(g: map<Species, FlockValue>, b: Body, d: SpawnDraw): map<Species, FlockValue> {
    if !JoinsFlock(b) then g
    else if b.species in g then g[b.species := g[b.species].(members := g[b.species].members + [b.uuid])]
    else g[b.species := FlockValue([b.uuid], DrawnState(d))]
  }

  /** The flock map fromText builds, one body after the other. */
  function Groups(bs: seq<Body>, spawn: nat -> SpawnDraw): (g: map<Species, FlockValue>)
    decreases |bs|
  {
    if |bs| == 0 then map[]
    else GroupStep(Groups(bs[..|bs| - 1], spawn), bs[|bs| - 1], spawn(|bs| - 1))
  }

  lemma {:induction false} GroupsSnoc(bs: seq<Body>, b: Body, spawn: nat -> SpawnDraw)
    ensures Groups(bs + [b], spawn) == GroupStep(Groups(bs, spawn), b, spawn(|bs|))
  {
    assert (bs + [b])[..|bs|] == bs;
  }

  /** The reference: the uuids of the flocking beings of species s, in the order they were made. */
  function FlockOf(bs: seq<Body>, s: Species): seq<Uuid>
    decreases |bs|
  {
    if |bs| == 0 then []
    else
      var b := bs[|bs| - 1];
      FlockOf(bs[..|bs| - 1], s) + (if JoinsFlock(b) && b.species == s then [b.uuid] else [])
  }

  /**
   * Insert-or-append builds one flock per species that has a flocking
   * being, holding exactly the flocking beings of that species, in order.
   */
  lemma {:induction false} GroupsAreFlocks(bs: seq<Body>, spawn: nat -> SpawnDraw)
    ensures forall s :: s in Groups(bs, spawn) <==> FlockOf(bs, s) != []
    ensures forall s :: s in Groups(bs, spawn) ==> Groups(bs, spawn)[s].members == FlockOf(bs, s)
    decreases |bs|
  {
    if |bs| > 0 {
      GroupsAreFlocks(bs[..|bs| - 1], spawn);
    }
  }

  /** The flock of s holds a uuid exactly when a flocking being of species s with that uuid was made. */
  lemma {:induction false} FlockOfMembers(bs: seq<Body>, s: Species, u: Uuid)
    ensures u in FlockOf(bs, s) <==>
      exists k :: 0 <= k < |bs| && JoinsFlock(bs[k]) && bs[k].species == s && bs[k].uuid == u
    decreases |bs|
  {
    if |bs| > 0 {
      var n := |bs| - 1;
      FlockOfMembers(bs[..n], s, u);
      if exists k :: 0 <= k < |bs| && JoinsFlock(bs[k]) && bs[k].species == s && bs[k].uuid == u {
        var k :| 0 <= k < |bs| && JoinsFlock(bs[k]) && bs[k].species == s && bs[k].uuid == u;
        if k < n {
          assert bs[..n][k] == bs[k];
        }
      }
    }
  }

  /** Every uuid is made once. */
  predicate DistinctUuids(bs: seq<Body>) {
    forall i, j :: 0 <= i < j < |bs| ==> bs[i].uuid != bs[j].uuid
  }

  /**
   * With fresh uuids, every flocking being is in the flock of its own
   * species and in no other flock.
   */
  lemma {:induction false} ExactlyOneFlock(bs: seq<Body>, spawn: nat -> SpawnDraw, k: nat, s: Species)
    requires DistinctUuids(bs)
    requires k < |bs| && JoinsFlock(bs[k])
    ensures bs[k].species in Groups(bs, spawn) && bs[k].uuid in Groups(bs, spawn)[bs[k].species].members
    ensures s in Groups(bs, spawn) && bs[k].uuid in Groups(bs, spawn)[s].members ==> s == bs[k].species
  {
    GroupsAreFlocks(bs, spawn);
    FlockOfMembers(bs, bs[k].species, bs[k].uuid);
    FlockOfMembers(bs, s, bs[k].uuid);
  }

  function Min(a: int, b: int): int {
    if a < b then a else b
  }

  /** Every body under its uuid: addEntity with no limit. */
  function Tabled(cs: seq<Body>): Table
    decreases |cs|
  {
    if |cs| == 0 then map[]
    else Tabled(cs[..|cs| - 1])[cs[|cs| - 1].uuid := cs[|cs| - 1]]
  }

  /** The uuids of the bodies. */
  function Uuids(cs: seq<Body>): set<Uuid>
    decreases |cs|
  {
    if |cs| == 0 then {} else Uuids(cs[..|cs| - 1]) + {cs[|cs| - 1].uuid}
  }

  lemma {:induction false} NotInUuids(cs: seq<Body>, u: Uuid)
    requires forall k :: 0 <= k < |cs| ==> cs[k].uuid != u
    ensures u !in Uuids(cs)
    decreases |cs|
  {
    if |cs| > 0 {
      NotInUuids(cs[..|cs| - 1], u);
    }
  }

  lemma {:induction false} DistinctPrefix(cs: seq<Body>, m: nat)
    requires DistinctUuids(cs) && m <= |cs|
    ensures DistinctUuids(cs[..m])
  {
  }

  /** With fresh uuids nothing is overwritten: one entry per body, each under its uuid. */
  lemma {:induction false} TabledShape(cs: seq<Body>)
    requires DistinctUuids(cs)
    ensures Tabled(cs).Keys == Uuids(cs) && |Tabled(cs)| == |cs|
    ensures forall k :: 0 <= k < |cs| ==> cs[k].uuid in Tabled(cs) && Tabled(cs)[cs[k].uuid] == cs[k]
    decreases |cs|
  {
    if |cs| > 0 {
      var n := |cs| - 1;
      var p := cs[..n];
      DistinctPrefix(cs, n);
      TabledShape(p);
      NotInUuids(p, cs[n].uuid);
    }
  }

  /** With fresh uuids, the Food entries are as many as the Food bodies. */
  lemma {:induction false} TabledFood(cs: seq<Body>)
    requires DistinctUuids(cs)
    ensures |FoodKeys(Tabled(cs))| == CountFood(cs)
    decreases |cs|
  {
    if |cs| > 0 {
      var n := |cs| - 1;
      var p := cs[..n];
      var c := cs[n];
      DistinctPrefix(cs, n);
      TabledFood(p);
      TabledShape(p);
      NotInUuids(p, c.uuid);
      var t := Tabled(p);
      if c.kind == FoodKind {
        assert FoodKeys(t[c.uuid := c]) == FoodKeys(t) + {c.uuid};
      } else {
        assert FoodKeys(t[c.uuid := c]) == FoodKeys(t);
      }
    }
  }

  /** With fresh uuids, addEntity keeps exactly the first `limit` bodies offered, and refuses the rest. */
  lemma {:induction false} SpawnedIsTabled(limit: int, bs: seq<Body>)
    requires DistinctUuids(bs)
    ensures Spawned(limit, bs) == Tabled(bs[..Min(|bs|, Count(limit))])
    decreases |bs|
  {
    if |bs| > 0 {
      var n := |bs| - 1;
      var prev := bs[..n];
      SpawnedIsTabled(limit, prev);
      var m := Min(n, Count(limit));
      assert prev[..m] == bs[..m];
      DistinctPrefix(bs, m);
      TabledShape(bs[..m]);
      var t := Spawned(limit, prev);
      assert t == Tabled(bs[..m]) && |t| == m;
      if n < limit {
        assert m == n && bs[..n + 1] == bs;
        assert Spawned(limit, bs) == t[bs[n].uuid := bs[n]];
        assert Tabled(bs) == Tabled(prev)[bs[n].uuid := bs[n]];
      } else {
        assert Min(|bs|, Count(limit)) == m;
        assert Spawned(limit, bs) == t;
      }
    }
  }

  /**
   * With fresh uuids, the world holds the first min(made, limit) bodies
   * under their uuids and none of the later ones.
   */
  lemma {:induction false} SpawnedKeepsFirst(limit: int, bs: seq<Body>)
    requires DistinctUuids(bs)
    ensures |Spawned(limit, bs)| == Min(|bs|, Count(limit))
    ensures forall k :: 0 <= k < |bs| ==> (bs[k].uuid in Spawned(limit, bs) <==> k < Min(|bs|, Count(limit)))
    ensures forall k :: 0 <= k < Min(|bs|, Count(limit)) ==> Spawned(limit, bs)[bs[k].uuid] == bs[k]
  {
    var m := Min(|bs|, Count(limit));
    var cs := bs[..m];
    SpawnedIsTabled(limit, bs);
    DistinctPrefix(bs, m);
    TabledShape(cs);
    forall k | 0 <= k < |bs|
      ensures bs[k].uuid in Tabled(cs) <==> k < m
    {
      if k < m {
        assert cs[k] == bs[k];
      } else {
        NotInUuids(cs, bs[k].uuid);
      }
    }
    forall k | 0 <= k < m
      ensures Tabled(cs)[bs[k].uuid] == bs[k]
    {
      assert cs[k] == bs[k];
    }
  }

  /** With fresh uuids, the Food in the world is the Food among the first min(made, limit) bodies. */
  lemma {:induction false} SpawnedFood(limit: int, bs: seq<Body>)
    requires DistinctUuids(bs)
    ensures |FoodKeys(Spawned(limit, bs))| == CountFood(bs[..Min(|bs|, Count(limit))])
  {
    var m := Min(|bs|, Count(limit));
    SpawnedIsTabled(limit, bs);
    DistinctPrefix(bs, m);
    TabledFood(bs[..m]);
  }

  /** The food count of a run whose first q bodies are the food ones. */
  lemma {:induction false} CountFoodFirst(cs: seq<Body>, q: nat)
    requires forall k :: 0 <= k < |cs| ==> (cs[k].kind == FoodKind <==> k < q)
    ensures CountFood(cs) == Min(q, |cs|)
    decreases |cs|
  {
    if |cs| > 0 {
      CountFoodFirst(cs[..|cs| - 1], q);
    }
  }

  /**
   * A generated world with fresh uuids holds min(all made, limit)
   * entities, and min(foodQuantity, limit) of them are food.
   */
  lemma {:induction false} GeneratedCounts(seed: string, area: int, src: Sources)
    requires Generate(seed, area, src).Success?
    requires DistinctUuids(Generate(seed, area, src).value.bodies)
    ensures var g := Generate(seed, area, src).value; var t := Spawned(area, g.bodies);
      |t| == Min(|g.bodies|, Count(area)) &&
      |FoodKeys(t)| == Min(Count(Quantity(area, g.header.foodPercent)), Count(area))
  {
    var g := Generate(seed, area, src).value;
    var bs := g.bodies;
    var m := Min(|bs|, Count(area));
    var qf := Count(Quantity(area, g.header.foodPercent));
    var ops := Script(Split(seed), g.header, area);
    assert Run(ops, g.header.width, g.header.height, src) == Success(bs);
    SpawnedKeepsFirst(area, bs);
    SpawnedFood(area, bs);
    ScriptFoodFirst(Split(seed), g.header, area);
    forall k | 0 <= k < m
      ensures bs[..m][k].kind == FoodKind <==> k < qf
    {
      assert bs[..m][k] == bs[k];
    }
    CountFoodFirst(bs[..m], qf);
  }

  /**
   * How fromText treats a flocking being addEntity refuses: the world
   * does not hold it, yet it is a member of its species' flock.
   */
  lemma {:induction false} RefusedStillFlocks(limit: int, bs: seq<Body>, spawn: nat -> SpawnDraw, k: nat)
    requires DistinctUuids(bs)
    requires 0 <= limit <= k < |bs| && JoinsFlock(bs[k])
    ensures bs[k].uuid !in Spawned(limit, bs)
    ensures bs[k].species in Groups(bs, spawn) && bs[k].uuid in Groups(bs, spawn)[bs[k].species].members
  {
    SpawnedKeepsFirst(limit, bs);
    ExactlyOneFlock(bs, spawn, k, bs[k].species);
  }

  /** When nothing is refused, every flock member is an entity of the world. */
  lemma {:induction false} NothingRefused(limit: int, bs: seq<Body>, spawn: nat -> SpawnDraw, s: Species, u: Uuid)
    requires DistinctUuids(bs) && |bs| <= limit
    requires s in Groups(bs, spawn) && u in Groups(bs, spawn)[s].members
    ensures u in Spawned(limit, bs) && Spawned(limit, bs)[u].species == s && JoinsFlock(Spawned(limit, bs)[u])
  {
    SpawnedKeepsFirst(limit, bs);
    GroupsAreFlocks(bs, spawn);
    FlockOfMembers(bs, s, u);
    var k :| 0 <= k < |bs| && JoinsFlock(bs[k]) && bs[k].species == s && bs[k].uuid == u;
    assert bs[..|bs|] == bs;
  }

  /**
   * A flock keeps the goal and timestamp drawn when its first member was
   * made; later members are appended without changing them.
   */
  lemma {:induction false} FlockStateFromFirst(bs: seq<Body>, spawn: nat -> SpawnDraw, s: Species)
    requires s in Groups(bs, spawn)
    ensures exists k :: (0 <= k < |bs| && JoinsFlock(bs[k]) && bs[k].species == s &&
      (forall j :: 0 <= j < k ==> !(JoinsFlock(bs[j]) && bs[j].species == s)) &&
      Groups(bs, spawn)[s].state == DrawnState(spawn(k)))
    decreases |bs|
  {
    var n := |bs| - 1;
    var prev := bs[..n];
    if s in Groups(prev, spawn) {
      FlockStateFromFirst(prev, spawn, s);
      var k :| 0 <= k < n && JoinsFlock(prev[k]) && prev[k].species == s &&
        (forall j :: 0 <= j < k ==> !(JoinsFlock(prev[j]) && prev[j].species == s)) &&
        Groups(prev, spawn)[s].state == DrawnState(spawn(k));
      assert forall j :: 0 <= j < k ==> prev[j] == bs[j];
    } else {
      GroupsAreFlocks(prev, spawn);
      forall j | 0 <= j < n
        ensures !(JoinsFlock(bs[j]) && bs[j].species == s)
      {
        FlockOfMembers(prev, s, bs[j].uuid);
        assert prev[j] == bs[j];
      }
    }
  }

  // ---------------------------------------------------------------------
  // The world as fromText builds it, step by step.

  /** The entity map holds the entities of t, each under its uuid. */
  ghost predicate EntitiesAre(es: map<Uuid, Entity>, t: Table)
    reads es.Values
  {
    Keyed(es) && Snapshot(es) == t
  }

  /** The entity map is addEntity's outcome on the bodies made so far. */
  ghost predicate EntitiesFrom(es: map<Uuid, Entity>, limit: int, bs: seq<Body>)
    reads es.Values
  {
    EntitiesAre(es, Spawned(limit, bs))
  }

  /** The flock map is the insert-or-append outcome on the bodies made so far. */
  ghost predicate FlocksFrom(fm: map<Species, BoidFlock>, minP: Vector2, maxP: Vector2, bs: seq<Body>, spawn: nat -> SpawnDraw)
    reads fm.Values
  {
    FlocksAre(fm, minP, maxP, Groups(bs, spawn))
  }

  /** One flock object per species of g, with g's members and state and the world's bounds. */
  ghost predicate FlocksAre(fm: map<Species, BoidFlock>, minP: Vector2, maxP: Vector2, g: map<Species, FlockValue>)
    reads fm.Values
  {
    FlockViews(fm) == Views(g, minP, maxP) &&
    (forall s, s' :: s in fm && s' in fm && s != s' ==> fm[s] != fm[s'])
  }

  /** Every flock of g with the world's bounds. */
  function Views(g: map<Species, FlockValue>, minP: Vector2, maxP: Vector2): (v: map<Species, (FlockValue, Vector2, Vector2)>)
    ensures v.Keys == g.Keys
  {
    map s | s in g :: (g[s], minP, maxP)
  }

  lemma {:induction false} ViewsPut(g: map<Species, FlockValue>, minP: Vector2, maxP: Vector2, s: Species, x: FlockValue)
    ensures Views(g[s := x], minP, maxP) == Views(g, minP, maxP)[s := (x, minP, maxP)]
  {
  }

  /** What each flock of the map holds: its members and state, and its bounds. */
  ghost function FlockViews(fm: map<Species, BoidFlock>): (v: map<Species, (FlockValue, Vector2, Vector2)>)
    reads fm.Values
    ensures v.Keys == fm.Keys
  {
    map s | s in fm :: (FlockValue(fm[s].Members(), fm[s].State()), fm[s].minimumPosition, fm[s].maximumPosition)
  }

  /** What the flocks hold stays as it was while none of them change. */
  twostate lemma {:induction false} FlocksFrame(fm: map<Species, BoidFlock>)
    requires unchanged(fm.Values)
    ensures FlockViews(fm) == old(FlockViews(fm))
  {
  }

  /** Offers the new entity to addEntity. */
  method Admit(w: World, e: Entity, ghost t: Table, ghost g: map<Species, FlockValue>)
    requires EntitiesAre(w.entities, t) && FlocksAre(w.flockMap, w.minimumPosition, w.maximumPosition, g)
    modifies w
    ensures EntitiesAre(w.entities, AdmitStep(w.populationLimit, t, e.State()))
    ensures FlocksAre(w.flockMap, w.minimumPosition, w.maximumPosition, g)
    ensures w.flockMap == old(w.flockMap)
  {
    ghost var es := w.entities;
    assert |es| == |t| by {
      assert es.Keys == t.Keys;
    }
    label Before:
    w.AddEntity(e);
    SnapshotFrame@Before(es);
    FlocksFrame@Before(w.flockMap);
    if |es| < w.populationLimit {
      SnapshotPut(es, e);
    }
  }

  /** A flocking being joins the flock of its species, or opens it with the draws d. */
  method JoinFlock(w: World, e: Entity, d: SpawnDraw, ghost t: Table, ghost g: map<Species, FlockValue>)
    requires EntitiesAre(w.entities, t) && FlocksAre(w.flockMap, w.minimumPosition, w.maximumPosition, g)
    requires JoinsFlock(e.State())
    modifies w, w.flockMap.Values
    ensures EntitiesAre(w.entities, t)
    ensures FlocksAre(w.flockMap, w.minimumPosition, w.maximumPosition, GroupStep(g, e.State(), d))
    ensures forall f :: f in w.flockMap.Values ==> f in old(w.flockMap.Values) || fresh(f)
  {
    if e.species in w.flockMap {
      JoinExisting(w, e, t, g);
    } else {
      OpenFlock(w, e, d, t, g);
    }
  }

  /** flockMap.get(species).add(being): the flock of the species gains the being at its end. */
  method JoinExisting(w: World, e: Entity, ghost t: Table, ghost g: map<Species, FlockValue>)
    requires EntitiesAre(w.entities, t) && FlocksAre(w.flockMap, w.minimumPosition, w.maximumPosition, g)
    requires e.species in w.flockMap
    modifies w.flockMap[e.species]
    ensures EntitiesAre(w.entities, t)
    ensures FlocksAre(w.flockMap, w.minimumPosition, w.maximumPosition,
                      g[e.species := g[e.species].(members := g[e.species].members + [e.uuid])])
  {
    ghost var s := e.species;
    ghost var x := g[s].(members := g[s].members + [e.uuid]);
    ViewsPut(g, w.minimumPosition, w.maximumPosition, s, x);
    ghost var v0 := FlockViews(w.flockMap);
    var fl := w.flockMap[e.species];
    ghost var before := fl.flock;
    assert v0[s] == (g[s], w.minimumPosition, w.maximumPosition);
    fl.Add(e);
    UuidsOfSnoc(before, e);
    SnapshotFrame(w.entities);
    assert FlockViews(w.flockMap)[s] == (x, w.minimumPosition, w.maximumPosition);
    forall s' | s' in w.flockMap && s' != s
      ensures FlockViews(w.flockMap)[s'] == v0[s']
    {
      assert w.flockMap[s'] != fl;
    }
    assert FlockViews(w.flockMap) == v0[s := (x, w.minimumPosition, w.maximumPosition)];
  }

  /** flockMap.put(species, new BoidFlock(...)): the first being of its species opens the flock. */
  method OpenFlock(w: World, e: Entity, d: SpawnDraw, ghost t: Table, ghost g: map<Species, FlockValue>)
    requires EntitiesAre(w.entities, t) && FlocksAre(w.flockMap, w.minimumPosition, w.maximumPosition, g)
    requires e.species !in w.flockMap
    modifies w
    ensures EntitiesAre(w.entities, t)
    ensures FlocksAre(w.flockMap, w.minimumPosition, w.maximumPosition, g[e.species := FlockValue([e.uuid], DrawnState(d))])
    ensures forall f :: f in w.flockMap.Values ==> f in old(w.flockMap.Values) || fresh(f)
  {
    var fl := new BoidFlock([e], w.minimumPosition, w.maximumPosition, d.goalX, d.goalY, d.now);
    assert UuidsOf([e]) == [e.uuid];
    Install(w, e.species, fl, t, g, FlockValue([e.uuid], DrawnState(d)));
  }

  /** A new flock put in the flock map under a species it did not hold. */
  method Install(w: World, s: Species, fl: BoidFlock, ghost t: Table, ghost g: map<Species, FlockValue>, ghost x: FlockValue)
    requires EntitiesAre(w.entities, t) && FlocksAre(w.flockMap, w.minimumPosition, w.maximumPosition, g)
    requires s !in w.flockMap && fl !in w.flockMap.Values
    requires FlockValue(fl.Members(), fl.State()) == x
    requires fl.minimumPosition == w.minimumPosition && fl.maximumPosition == w.maximumPosition
    modifies w
    ensures w.flockMap == old(w.flockMap)[s := fl]
    ensures EntitiesAre(w.entities, t)
    ensures FlocksAre(w.flockMap, w.minimumPosition, w.maximumPosition, g[s := x])
  {
    ViewsPut(g, w.minimumPosition, w.maximumPosition, s, x);
    ghost var es := w.entities;
    ghost var fm := w.flockMap;
    FlocksFrame(fm);
    w.flockMap := w.flockMap[s := fl];
    SnapshotFrame(es);
    FlockViewsPut(fm, s, fl);
  }

  /** The views of a flock map with one more flock. */
  lemma {:induction false} FlockViewsPut(fm: map<Species, BoidFlock>, s: Species, fl: BoidFlock)
    requires s !in fm
    ensures FlockViews(fm[s := fl]) ==
      FlockViews(fm)[s := (FlockValue(fl.Members(), fl.State()), fl.minimumPosition, fl.maximumPosition)]
  {
    var v1 := FlockViews(fm[s := fl]);
    var v0 := FlockViews(fm);
    forall s' | s' in fm
      ensures v1[s'] == v0[s']
    {
      assert fm[s := fl][s'] == fm[s'];
    }
    MapPut(v1, v0, s, (FlockValue(fl.Members(), fl.State()), fl.minimumPosition, fl.maximumPosition));
  }

  /** A map that agrees with m0 off k and holds v at k is m0 updated at k. */
  lemma {:induction false} MapPut<K, V>(m: map<K, V>, m0: map<K, V>, k: K, v: V)
    requires m.Keys == m0.Keys + {k} && k in m && m[k] == v
    requires forall k' :: k' in m0 && k' != k ==> m[k'] == m0[k']
    ensures m == m0[k := v]
  {
  }

  /** The k-th entity as a new object, or the exception making it throws. */
  method MakeEntity(width: int, height: int, job: Job, k: nat, src: Sources) returns (made: Result<Entity, SeedError>)
    ensures var r := Create(job, k, width, height, src);
      (made.Success? <==> r.Success?) && (made.Failure? ==> made.error == r.error) &&
      (made.Success? ==> fresh(made.value) && made.value.State() == r.value)
  {
    var d := src.spawn(k);
    var cell := RandomEmptyPosition(width, height, d.cellX, d.cellY);
    if job.FoodJob? {
      if cell.None? {
        return Failure(NoRoom);
      }
      if |src.food| == 0 {
        return Failure(NoFoodNames);
      }
      var name := src.food[d.pick % |src.food|];
      var loaded := src.foodFile(name);
      if loaded.None? || loaded.value.kind != FoodKind {
        return Failure(FoodNotLoaded(name));
      }
      var e := new Entity.Load(d.uuid, loaded.value.(position := CellVector(cell.value)));
      return Success(e);
    } else if job.ObstacleJob? {
      if cell.None? {
        return Failure(NoRoom);
      }
      var e := new Entity.Obstacle(d.uuid, CellVector(cell.value));
      return Success(e);
    } else {
      var loaded := src.beingFile(job.name);
      if loaded.None? || loaded.value.kind != BeingKind {
        return Failure(BeingNotLoaded(job.name));
      }
      if cell.None? {
        return Failure(NoRoom);
      }
      var e := new Entity.Load(d.uuid, loaded.value.(position := CellVector(cell.value)));
      return Success(e);
    }
  }

  /** One made entity: joins or opens its flock when it flocks, then goes through addEntity. */
  method Place(w: World, e: Entity, d: SpawnDraw, ghost t: Table, ghost g: map<Species, FlockValue>)
    requires EntitiesAre(w.entities, t) && FlocksAre(w.flockMap, w.minimumPosition, w.maximumPosition, g)
    modifies w, w.flockMap.Values
    ensures EntitiesAre(w.entities, AdmitStep(w.populationLimit, t, e.State()))
    ensures FlocksAre(w.flockMap, w.minimumPosition, w.maximumPosition, GroupStep(g, e.State(), d))
    ensures forall f :: f in w.flockMap.Values ==> f in old(w.flockMap.Values) || fresh(f)
  {
    ghost var g' := GroupStep(g, e.State(), d);
    if e.kind == BeingKind && e.flock {
      JoinFlock(w, e, d, t, g);
    } else {
      assert g' == g;
    }
    Admit(w, e, t, g');
  }

  /**
   * One step of the script: the k-th entity is made, joins its flock when
   * it is a flocking being, and is offered to addEntity.
   */
  method CreateOne(w: World, job: Job, k: nat, src: Sources, ghost bs: seq<Body>) returns (err: Option<SeedError>)
    requires k == |bs| && EntitiesFrom(w.entities, w.populationLimit, bs) && FlocksFrom(w.flockMap, w.minimumPosition, w.maximumPosition, bs, src.spawn)
    modifies w, w.flockMap.Values
    ensures var r := Create(job, k, w.width, w.height, src);
      (err.None? <==> r.Success?) && (err.Some? ==> err.value == r.error) &&
      (err.None? ==> EntitiesFrom(w.entities, w.populationLimit, bs + [r.value]) && FlocksFrom(w.flockMap, w.minimumPosition, w.maximumPosition, bs + [r.value], src.spawn))
    ensures forall f :: f in w.flockMap.Values ==> f in old(w.flockMap.Values) || fresh(f)
  {
    var made := MakeEntity(w.width, w.height, job, k, src);
    if made.Failure? {
      return Some(made.error);
    }
    var e := made.value;
    ghost var b := e.State();
    SpawnedSnoc(w.populationLimit, bs, b);
    GroupsSnoc(bs, b, src.spawn);
    Place(w, e, src.spawn(k), Spawned(w.populationLimit, bs), Groups(bs, src.spawn));
    err := None;
  }

  /**
   * `for (j = 0; j < n; j++)` making one entity of the job each time; the
   * outcome is the run of the steps so far followed by n more of the job.
   */
  method CreateMany(w: World, job: Job, n: int, k: nat, src: Sources, ghost done: seq<Op>, ghost bs: seq<Body>)
      returns (err: Option<SeedError>, next: nat, ghost bs': seq<Body>)
    requires k == |bs| && Run(done, w.width, w.height, src) == Success(bs)
    requires EntitiesFrom(w.entities, w.populationLimit, bs) && FlocksFrom(w.flockMap, w.minimumPosition, w.maximumPosition, bs, src.spawn)
    modifies w, w.flockMap.Values
    ensures var r := Run(done + Repeat(job, n), w.width, w.height, src);
      (err.None? <==> r.Success?) && (err.Some? ==> err.value == r.error) &&
      (err.None? ==> r.value == bs' && next == |bs'| && EntitiesFrom(w.entities, w.populationLimit, bs') && FlocksFrom(w.flockMap, w.minimumPosition, w.maximumPosition, bs', src.spawn))
    ensures forall f :: f in w.flockMap.Values ==> f in old(w.flockMap.Values) || fresh(f)
  {
    ghost var ds := done;
    bs' := bs;
    next := k;
    for j := 0 to Count(n)
      invariant ds == done + Repeat(job, j) && next == |bs'|
      invariant Run(ds, w.width, w.height, src) == Success(bs')
      invariant EntitiesFrom(w.entities, w.populationLimit, bs') && FlocksFrom(w.flockMap, w.minimumPosition, w.maximumPosition, bs', src.spawn)
      invariant forall f :: f in w.flockMap.Values ==> f in old(w.flockMap.Values) || fresh(f)
    {
      RunSnoc(ds, job, w.width, w.height, src, bs');
      err := CreateOne(w, job, next, src, bs');
      if err.Some? {
        RepeatSplit(done, job, j, n);
        RunStops(ds + [Make(job)], Repeat(job, Count(n) - j - 1), w.width, w.height, src);
        return;
      }
      bs' := bs' + [Create(job, next, w.width, w.height, src).value];
      RepeatSnoc(done, job, j);
      ds := ds + [Make(job)];
      next := next + 1;
    }
    assert ds == done + Repeat(job, n);
    err := None;
  }

  /** The food loop, the obstacle loop and the species/quantity loop, in that order. */
  method Populate(w: World, tokens: seq<string>, h: Header, src: Sources) returns (err: Option<SeedError>, ghost bs: seq<Body>)
    requires w.width == h.width && w.height == h.height
    requires EntitiesFrom(w.entities, w.populationLimit, []) && FlocksFrom(w.flockMap, w.minimumPosition, w.maximumPosition, [], src.spawn)
    modifies w, w.flockMap.Values
    ensures var r := Run(Script(tokens, h, w.populationLimit), h.width, h.height, src);
      (err.None? <==> r.Success?) && (err.Some? ==> err.value == r.error) &&
      (err.None? ==> r.value == bs && EntitiesFrom(w.entities, w.populationLimit, bs) && FlocksFrom(w.flockMap, w.minimumPosition, w.maximumPosition, bs, src.spawn))
  {
    var foodQuantity := Quantity(w.populationLimit, h.foodPercent);
    var obstaclesQuantity := Quantity(w.populationLimit, h.obstaclesPercent);
    ghost var food := Repeat(FoodJob, foodQuantity);
    ghost var obstacles := Repeat(ObstacleJob, obstaclesQuantity);
    ghost var pairs := PairOps(PairsFrom(tokens, 4), 4);
    ScriptParts(tokens, h, w.populationLimit);
    var k: nat;
    err, k, bs := CreateMany(w, FoodJob, foodQuantity, 0, src, [], []);
    if err.Some? {
      RunStops(food, obstacles + pairs, h.width, h.height, src);
      return;
    }
    err, k, bs := CreateMany(w, ObstacleJob, obstaclesQuantity, k, src, food, bs);
    if err.Some? {
      RunStops(food + obstacles, pairs, h.width, h.height, src);
      return;
    }
    err, bs := CreatePairs(w, tokens, src, food + obstacles, k, bs);
  }

  /**
   * `for (i = 4; i < split.length - 1; i += 2)`: the pairs from token 4 on;
   * the outcome is the run of the steps so far followed by the pairs.
   */
  method CreatePairs(w: World, tokens: seq<string>, src: Sources, ghost done: seq<Op>, k: nat, ghost bs: seq<Body>)
      returns (err: Option<SeedError>, ghost bs': seq<Body>)
    requires k == |bs| && Run(done, w.width, w.height, src) == Success(bs)
    requires EntitiesFrom(w.entities, w.populationLimit, bs) && FlocksFrom(w.flockMap, w.minimumPosition, w.maximumPosition, bs, src.spawn)
    modifies w, w.flockMap.Values
    ensures var r := Run(done + PairOps(PairsFrom(tokens, 4), 4), w.width, w.height, src);
      (err.None? <==> r.Success?) && (err.Some? ==> err.value == r.error) &&
      (err.None? ==> r.value == bs' && EntitiesFrom(w.entities, w.populationLimit, bs') && FlocksFrom(w.flockMap, w.minimumPosition, w.maximumPosition, bs', src.spawn))
  {
    ghost var all := done + PairOps(PairsFrom(tokens, 4), 4);
    ghost var ds := done;
    var next := k;
    bs' := bs;
    var i := 4;
    while i + 1 < |tokens|
      invariant all == ds + PairOps(PairsFrom(tokens, i), i)
      invariant next == |bs'| && Run(ds, w.width, w.height, src) == Success(bs')
      invariant EntitiesFrom(w.entities, w.populationLimit, bs') && FlocksFrom(w.flockMap, w.minimumPosition, w.maximumPosition, bs', src.spawn)
      invariant forall f :: f in w.flockMap.Values ==> f in old(w.flockMap.Values) || fresh(f)
      decreases |tokens| - i
    {
      err, next, ds, bs' := CreatePair(w, tokens, i, src, ds, next, bs');
      if err.Some? {
        return;
      }
      i := i + 2;
    }
    PairsDone(ds, tokens, i);
    err := None;
  }

  /** One turn of the pairs loop: the quantity at token i + 1, then that many beings named by token i. */
  method CreatePair(w: World, tokens: seq<string>, i: nat, src: Sources, ghost ds: seq<Op>, next: nat, ghost bs: seq<Body>)
      returns (err: Option<SeedError>, next': nat, ghost ds': seq<Op>, ghost bs': seq<Body>)
    requires i + 1 < |tokens|
    requires next == |bs| && Run(ds, w.width, w.height, src) == Success(bs)
    requires EntitiesFrom(w.entities, w.populationLimit, bs) && FlocksFrom(w.flockMap, w.minimumPosition, w.maximumPosition, bs, src.spawn)
    modifies w, w.flockMap.Values
    ensures err.Some? ==> Run(ds + PairOps(PairsFrom(tokens, i), i), w.width, w.height, src) == Failure(err.value)
    ensures err.None? ==> ds + PairOps(PairsFrom(tokens, i), i) == ds' + PairOps(PairsFrom(tokens, i + 2), i + 2)
    ensures err.None? ==> next' == |bs'| && Run(ds', w.width, w.height, src) == Success(bs')
    ensures err.None? ==> EntitiesFrom(w.entities, w.populationLimit, bs') && FlocksFrom(w.flockMap, w.minimumPosition, w.maximumPosition, bs', src.spawn)
    ensures forall f :: f in w.flockMap.Values ==> f in old(w.flockMap.Values) || fresh(f)
  {
    PairStep(ds, tokens, i);
    var quantity := ParseInt(tokens[i + 1]);
    if quantity.None? {
      assert (ds + [Fail(NotANumber(i + 1))])[..|ds|] == ds;
      return Some(NotANumber(i + 1)), next, ds, bs;
    }
    var name := tokens[i];
    err, next', bs' := CreateMany(w, BeingJob(name), quantity.value, next, src, ds, bs);
    ds' := ds + Repeat(BeingJob(name), quantity.value);
    if err.Some? {
      RunStops(ds', PairOps(PairsFrom(tokens, i + 2), i + 2), w.width, w.height, src);
    }
  }

  /**
   * fromText(seed, maxEntities, foodDetectionDistance, food): the world
   * Generate describes, or the exception it names. The world's size and
   * limit are the seed's and maxEntities, its entity map is addEntity's
   * outcome on everything made, its flock map one flock per species, and
   * the food detection distance is the argument.
   */
  method FromText(seed: string, maxEntities: int, foodDetectionDistance: int, src: Sources)
      returns (r: Result<World, SeedError>)
    ensures var g := Generate(seed, maxEntities, src);
      (r.Success? <==> g.Success?) && (r.Failure? ==> r.error == g.error)
    ensures r.Success? ==> var g := Generate(seed, maxEntities, src).value; var w := r.value;
      w.width == g.header.width && w.height == g.header.height &&
      w.populationLimit == maxEntities && w.foodDetectionDistance == foodDetectionDistance &&
      w.minimumPosition == Zero && w.maximumPosition == Vector2(w.width as real, w.height as real) &&
      EntitiesFrom(w.entities, w.populationLimit, g.bodies) && FlocksFrom(w.flockMap, w.minimumPosition, w.maximumPosition, g.bodies, src.spawn)
  {
    var tokens := Split(seed);
    var header := ReadHeader(tokens);
    if header.Failure? {
      return Failure(header.error);
    }
    var h := header.value;
    if h.width < 0 || h.height < 0 {
      return Failure(NegativeSize);
    }
    GenerateRuns(seed, maxEntities, src, h);
    r := Build(tokens, h, maxEntities, foodDetectionDistance, src);
  }

  /** fromText once the header is read: a fresh world populated by the body script. */
  method Build(tokens: seq<string>, h: Header, maxEntities: int, foodDetectionDistance: int, src: Sources)
      returns (r: Result<World, SeedError>)
    ensures var run := Run(Script(tokens, h, maxEntities), h.width, h.height, src);
      (r.Success? <==> run.Success?) && (r.Failure? ==> r.error == run.error)
    ensures r.Success? ==> var bs := Run(Script(tokens, h, maxEntities), h.width, h.height, src).value; var w := r.value;
      w.width == h.width && w.height == h.height &&
      w.populationLimit == maxEntities && w.foodDetectionDistance == foodDetectionDistance &&
      w.minimumPosition == Zero && w.maximumPosition == Vector2(w.width as real, w.height as real) &&
      EntitiesFrom(w.entities, w.populationLimit, bs) && FlocksFrom(w.flockMap, w.minimumPosition, w.maximumPosition, bs, src.spawn)
  {
    var w := new World(h.width, h.height, maxEntities);
    var err;
    ghost var bs;
    err, bs := Populate(w, tokens, h, src);
    if err.Some? {
      return Failure(err.value);
    }
    Detect(w, foodDetectionDistance, Spawned(w.populationLimit, bs), Groups(bs, src.spawn));
    return Success(w);
  }

  /** The last step of fromText: setting the detection distance keeps the entities and the flocks. */
  method Detect(w: World, d: int, ghost t: Table, ghost g: map<Species, FlockValue>)
    requires EntitiesAre(w.entities, t) && FlocksAre(w.flockMap, w.minimumPosition, w.maximumPosition, g)
    modifies w
    ensures w.foodDetectionDistance == d
    ensures EntitiesAre(w.entities, t) && FlocksAre(w.flockMap, w.minimumPosition, w.maximumPosition, g)
  {
    label Before:
    w.SetFoodDetectionDistance(d);
    SnapshotFrame@Before(w.entities);
    FlocksFrame@Before(w.flockMap);
  }
}
