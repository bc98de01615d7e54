/**
 * World.removeEatenFood on values: one eater, every entity of the world in
 * iteration order, a window of +-10 around the eater on both axes (strict
 * on both sides).
 *
 * `EatFold` is the loop as written, one entity after another; `Eaten` and
 * `Gain` say in closed form what the loop amounts to, and the lemmas below
 * connect the two and state the feeding rules.
 */
module Feeding {
  import opened Vectors
  import opened Entities

  /** How far away an entity can be from food and still eat it. */
  const Variance := 10.0

  /** p lies strictly inside the window of half-width 10 around q, on both axes. */
  predicate InWindow(p: Vector2, q: Vector2) {
    p.x > q.x - Variance && p.x < q.x + Variance &&
    p.y > q.y - Variance && p.y < q.y + Variance
  }

  /** One iteration of the loop: the eater meets world entity w. */
  function EatOne(t: Table, eater: Uuid, w: Uuid): Table
    requires eater in t && w in t
  {
    var e := t[eater];
    var we := t[w];
    if !InWindow(we.position, e.position) then t
    else if we.kind == FoodKind then
      var gained := if we.poisonous then e.energy - we.energy
                    else e.energy + Mul(we.energy, e.consumptionEfficiency);
      var fed := t[eater := e.(energy := gained)];
      fed[w := fed[w].(energy := 0.0)]
    else if we.kind == BeingKind && e.kind == BeingKind && e.carnivore && w != eater then
      var fed := t[eater := e.(energy := e.energy + Mul(we.energy, e.consumptionEfficiency))];
      fed[w := fed[w].(energy := 0.0)]
    else t
  }

  /** The loop of removeEatenFood over the entities `ws`, in order. */
  function EatFold(t: Table, eater: Uuid, ws: seq<Uuid>): Table
    requires eater in t && forall i :: 0 <= i < |ws| ==> ws[i] in t
    ensures EatFold(t, eater, ws).Keys == t.Keys
    decreases |ws|
  {
    if |ws| == 0 then t
    else
      var earlier := EatFold(t, eater, ws[..|ws| - 1]);
      EatOne(earlier, eater, ws[|ws| - 1])
  }

  /** w is eaten by the eater: it is another entity, inside the window, and Food, or prey of a carnivore. */
  predicate Edible(t: Table, eater: Uuid, w: Uuid)
    requires eater in t && w in t
  {
    w != eater && InWindow(t[w].position, t[eater].position) &&
    (t[w].kind == FoodKind || (t[w].kind == BeingKind && t[eater].kind == BeingKind && t[eater].carnivore))
  }

  /** What eating w is worth to the eater: minus its energy if it is poisonous food, else its energy times the efficiency. */
  function Contribution(t: Table, eater: Uuid, w: Uuid): real
    requires eater in t && w in t
  {
    if !Edible(t, eater, w) then 0.0
    else if t[w].kind == FoodKind && t[w].poisonous then -t[w].energy
    else Mul(t[w].energy, t[eater].consumptionEfficiency)
  }

  /** The eater's total gain over the entities `ws`. */
  function Gain(t: Table, eater: Uuid, ws: seq<Uuid>): real
    requires eater in t && forall i :: 0 <= i < |ws| ==> ws[i] in t
    decreases |ws|
  {
    if |ws| == 0 then 0.0
    else Gain(t, eater, ws[..|ws| - 1]) + Contribution(t, eater, ws[|ws| - 1])
  }

  /**
   * The closed form: the eater gains Gain, every edible entity among `ws` is
   * left with energy 0, and nothing else changes.
   */
  function Eaten(t: Table, eater: Uuid, ws: seq<Uuid>): Table
    requires eater in t && forall i :: 0 <= i < |ws| ==> ws[i] in t
  {
    map u | u in t ::
      if u == eater then t[u].(energy := t[u].energy + Gain(t, eater, ws))
      else if u in ws && Edible(t, eater, u) then t[u].(energy := 0.0)
      else t[u]
  }

  predicate Distinct(ws: seq<Uuid>) {
    forall i, j :: 0 <= i < j < |ws| ==> ws[i] != ws[j]
  }

  /** Meeting one more entity w extends the closed form by w. */
  lemma {:induction false} EatStep(t: Table, eater: Uuid, prefix: seq<Uuid>, w: Uuid)
    requires eater in t && t[eater].kind == BeingKind
    requires forall i :: 0 <= i < |prefix| ==> prefix[i] in t
    requires w in t && w !in prefix
    ensures EatOne(Eaten(t, eater, prefix), eater, w) == Eaten(t, eater, prefix + [w])
  {
    var s := Eaten(t, eater, prefix);
    var r := Eaten(t, eater, prefix + [w]);
    var n := EatOne(s, eater, w);
    EatStepAtEater(t, eater, prefix, w);
    SameOutside(t, eater, prefix, w);
    if w != eater {
      EatStepAtW(t, eater, prefix, w);
    }
    assert n.Keys == r.Keys;
    forall u | u in r ensures n[u] == r[u] {
      if u != eater && u != w {
        EatOneElsewhere(s, eater, w, u);
      }
    }
  }

  /** EatOne changes only the eater and w. */
  lemma {:induction false} EatOneElsewhere(t: Table, eater: Uuid, w: Uuid, u: Uuid)
    requires eater in t && w in t && u in t && u != eater && u != w
    ensures EatOne(t, eater, w)[u] == t[u]
  {
  }

  /** The eater's entry after one more step. */
  lemma {:induction false} EatStepAtEater(t: Table, eater: Uuid, prefix: seq<Uuid>, w: Uuid)
    requires eater in t && t[eater].kind == BeingKind
    requires forall i :: 0 <= i < |prefix| ==> prefix[i] in t
    requires w in t && w !in prefix
    ensures EatOne(Eaten(t, eater, prefix), eater, w)[eater] == Eaten(t, eater, prefix + [w])[eater]
  {
    var s := Eaten(t, eater, prefix);
    EatenAtEater(t, eater, prefix);
    EatenAtEater(t, eater, prefix + [w]);
    GainOfFood(t, eater, prefix, w);
    EatOneAtEater(s, eater, w);
    if w != eater {
      assert s[w] == t[w];
    }
    ContributionKept(t, s, eater, w);
  }

  /** The eater's entry in the closed form. */
  lemma {:induction false} EatenAtEater(t: Table, eater: Uuid, ws: seq<Uuid>)
    requires eater in t && forall i :: 0 <= i < |ws| ==> ws[i] in t
    ensures Eaten(t, eater, ws)[eater] == t[eater].(energy := t[eater].energy + Gain(t, eater, ws))
  {
  }

  /** A living-being eater that meets w gains exactly what w contributes. */
  lemma {:induction false} EatOneAtEater(t: Table, eater: Uuid, w: Uuid)
    requires eater in t && w in t && t[eater].kind == BeingKind
    ensures EatOne(t, eater, w)[eater] == t[eater].(energy := t[eater].energy + Contribution(t, eater, w))
  {
    var e := t[eater];
    var we := t[w];
    if InWindow(we.position, e.position) && we.kind == FoodKind {
      assert w != eater;
    }
  }

  /** What w contributes does not depend on the eater's energy. */
  lemma {:induction false} ContributionKept(t: Table, s: Table, eater: Uuid, w: Uuid)
    requires eater in t && w in t && eater in s && w in s
    requires s[eater] == t[eater].(energy := s[eater].energy)
    requires w == eater || s[w] == t[w]
    ensures Contribution(s, eater, w) == Contribution(t, eater, w)
  {
  }

  /** w's entry after it is met. */
  lemma {:induction false} EatStepAtW(t: Table, eater: Uuid, prefix: seq<Uuid>, w: Uuid)
    requires eater in t && t[eater].kind == BeingKind
    requires forall i :: 0 <= i < |prefix| ==> prefix[i] in t
    requires w in t && w !in prefix && w != eater
    ensures EatOne(Eaten(t, eater, prefix), eater, w)[w] == Eaten(t, eater, prefix + [w])[w]
  {
    var s := Eaten(t, eater, prefix);
    assert s[w] == t[w];
    assert w in prefix + [w];
  }

  /** Away from the eater and from w, adding w to the entities met changes no entry. */
  lemma {:induction false} SameOutside(t: Table, eater: Uuid, prefix: seq<Uuid>, w: Uuid)
    requires eater in t
    requires forall i :: 0 <= i < |prefix| ==> prefix[i] in t
    requires w in t
    ensures forall u :: u in t && u != eater && u != w ==>
      Eaten(t, eater, prefix)[u] == Eaten(t, eater, prefix + [w])[u]
  {
    forall u | u in t && u != eater && u != w
      ensures Eaten(t, eater, prefix)[u] == Eaten(t, eater, prefix + [w])[u]
    {
      assert u in prefix + [w] <==> u in prefix;
    }
  }

  /**
   * For a living-being eater, the loop as written equals the closed form,
   * whatever the order of the distinct entities `ws`.
   */
  lemma {:induction false} EatFoldIsEaten(t: Table, eater: Uuid, ws: seq<Uuid>)
    requires eater in t && t[eater].kind == BeingKind
    requires forall i :: 0 <= i < |ws| ==> ws[i] in t
    requires Distinct(ws)
    ensures EatFold(t, eater, ws) == Eaten(t, eater, ws)
    decreases |ws|
  {
    if |ws| == 0 {
      assert Eaten(t, eater, ws) == t;
    } else {
      var n := |ws| - 1;
      var prefix := ws[..n];
      assert Distinct(prefix);
      assert ws[n] !in prefix;
      EatFoldIsEaten(t, eater, prefix);
      EatStep(t, eater, prefix, ws[n]);
      assert prefix + [ws[n]] == ws;
    }
  }

  /** Entities outside the window are not touched. */
  lemma {:induction false} OutsideWindowUntouched(t: Table, eater: Uuid, ws: seq<Uuid>, u: Uuid)
    requires eater in t && forall i :: 0 <= i < |ws| ==> ws[i] in t
    requires u in t && u != eater && !InWindow(t[u].position, t[eater].position)
    ensures Eaten(t, eater, ws)[u] == t[u]
  {
  }

  /** A non-carnivore never changes another living being. */
  lemma {:induction false} NonCarnivoreSparesBeings(t: Table, eater: Uuid, ws: seq<Uuid>, u: Uuid)
    requires eater in t && forall i :: 0 <= i < |ws| ==> ws[i] in t
    requires u in t && u != eater && t[u].kind == BeingKind && !t[eater].carnivore
    ensures Eaten(t, eater, ws)[u] == t[u]
  {
  }

  /** Only the eater's energy and the eaten entities' energies change; kinds and positions stay. */
  lemma {:induction false} EatenChangesOnlyEnergy(t: Table, eater: Uuid, ws: seq<Uuid>, u: Uuid)
    requires eater in t && forall i :: 0 <= i < |ws| ==> ws[i] in t
    requires u in t
    ensures Eaten(t, eater, ws)[u] == t[u].(energy := Eaten(t, eater, ws)[u].energy)
    ensures u != eater ==> Eaten(t, eater, ws)[u].energy == t[u].energy || Eaten(t, eater, ws)[u].energy == 0.0
  {
  }

  /** Every edible entity keeps nothing, and the eater gains exactly the contributions. */
  lemma {:induction false} EatenEnergies(t: Table, eater: Uuid, ws: seq<Uuid>, u: Uuid)
    requires eater in t && forall i :: 0 <= i < |ws| ==> ws[i] in t
    requires u in ws && u in t
    ensures Edible(t, eater, u) ==> Eaten(t, eater, ws)[u].energy == 0.0
    ensures Eaten(t, eater, ws)[eater].energy == t[eater].energy + Gain(t, eater, ws)
  {
  }

  /** The gain is the sum of the per-entity contributions. */
  lemma {:induction false} GainOfFood(t: Table, eater: Uuid, ws: seq<Uuid>, w: Uuid)
    requires eater in t && forall i :: 0 <= i < |ws| ==> ws[i] in t
    requires w in t && w !in ws
    ensures Gain(t, eater, ws + [w]) == Gain(t, eater, ws) + Contribution(t, eater, w)
  {
    assert (ws + [w])[..|ws|] == ws;
  }

  /** Poisonous food in the window costs the eater its energy; other food pays energy times efficiency. */
  lemma {:induction false} FoodContribution(t: Table, eater: Uuid, w: Uuid)
    requires eater in t && w in t && w != eater && t[w].kind == FoodKind
    requires InWindow(t[w].position, t[eater].position)
    ensures t[w].poisonous ==> Contribution(t, eater, w) == -t[w].energy
    ensures !t[w].poisonous ==> Contribution(t, eater, w) == Mul(t[w].energy, t[eater].consumptionEfficiency)
  {
  }

  /** With nothing left to eat the gain is 0. */
  lemma {:induction false} GainOfEmptied(t: Table, eater: Uuid, ws: seq<Uuid>)
    requires eater in t && forall i :: 0 <= i < |ws| ==> ws[i] in t
    requires forall i :: 0 <= i < |ws| && Edible(t, eater, ws[i]) ==> t[ws[i]].energy == 0.0
    ensures Gain(t, eater, ws) == 0.0
    decreases |ws|
  {
    if |ws| > 0 {
      GainOfEmptied(t, eater, ws[..|ws| - 1]);
      MulZero(t[eater].consumptionEfficiency);
      MulCommutes(0.0, t[eater].consumptionEfficiency);
    }
  }

  /** Edibility depends only on kinds, positions, the carnivore flag and identity, which eating keeps. */
  lemma {:induction false} EdibleKept(t: Table, eater: Uuid, ws: seq<Uuid>, u: Uuid)
    requires eater in t && forall i :: 0 <= i < |ws| ==> ws[i] in t
    requires u in t
    ensures Edible(Eaten(t, eater, ws), eater, u) == Edible(t, eater, u)
  {
  }

  /**
   * removeEatenFood is idempotent: a second call with unchanged positions
   * changes nothing, because everything edible already has energy 0.
   */
  lemma {:induction false} EatenIdempotent(t: Table, eater: Uuid, ws: seq<Uuid>)
    requires eater in t && forall i :: 0 <= i < |ws| ==> ws[i] in t
    ensures var once := Eaten(t, eater, ws); Eaten(once, eater, ws) == once
  {
    var once := Eaten(t, eater, ws);
    forall i | 0 <= i < |ws| && Edible(once, eater, ws[i])
      ensures once[ws[i]].energy == 0.0
    {
      EdibleKept(t, eater, ws, ws[i]);
    }
    GainOfEmptied(once, eater, ws);
    forall u | u in once
      ensures Eaten(once, eater, ws)[u] == once[u]
    {
      EdibleKept(t, eater, ws, u);
    }
  }
}
