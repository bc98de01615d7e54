/**
 * The world's read-only accumulator loops on values: foodCount,
 * totalEntityEnergy and blocked, each over entities.values() in the map's
 * iteration order, with what they amount to whatever that order is.
 */
module Census {
  import opened Vectors
  import opened Numerics
  import opened Entities

  /** The uuids of the Food entries of t. */
  function FoodKeys(t: Table): set<Uuid> {
    set u | u in t && t[u].kind == FoodKind
  }

  /** foodCount's loop: one more for every Food met. */
  function CountFood(bs: seq<Body>): nat
    decreases |bs|
  {
    if |bs| == 0 then 0
    else CountFood(bs[..|bs| - 1]) + (if bs[|bs| - 1].kind == FoodKind then 1 else 0)
  }

  /** The Food entries among the first k of the order. */
  function FoodAmong(t: Table, order: seq<Uuid>): set<Uuid> {
    set u | u in order && u in t && t[u].kind == FoodKind
  }

  /**
   * Counted over distinct uuids of t, the loop has met exactly the Food
   * entries among them.
   */
  lemma {:induction false} CountFoodAmong(t: Table, order: seq<Uuid>)
    requires forall i :: 0 <= i < |order| ==> order[i] in t
    requires forall i, j :: 0 <= i < j < |order| ==> order[i] != order[j]
    ensures CountFood(SceneOf(t, order)) == |FoodAmong(t, order)|
    decreases |order|
  {
    if |order| > 0 {
      var n := |order| - 1;
      var prefix := order[..n];
      CountFoodAmong(t, prefix);
      assert SceneOf(t, order)[..n] == SceneOf(t, prefix);
      assert order == prefix + [order[n]];
      FoodAmongStep(t, prefix, order[n]);
    }
  }

  /** Meeting one more uuid adds it to the Food met exactly when it is Food. */
  lemma {:induction false} FoodAmongStep(t: Table, prefix: seq<Uuid>, last: Uuid)
    requires last in t && last !in prefix
    ensures |FoodAmong(t, prefix + [last])| == |FoodAmong(t, prefix)| + (if t[last].kind == FoodKind then 1 else 0)
  {
    var before := FoodAmong(t, prefix);
    var after := FoodAmong(t, prefix + [last]);
    assert forall u :: u in prefix + [last] <==> u in prefix || u == last;
    if t[last].kind == FoodKind {
      assert after == before + {last};
    } else {
      assert after == before;
    }
  }

  /** foodCount is the number of Food entries in the map, whatever the iteration order. */
  lemma {:induction false} CountFoodIsFoodKeys(t: Table, order: seq<Uuid>)
    requires IsOrder(order, t.Keys)
    ensures CountFood(SceneOf(t, order)) == |FoodKeys(t)|
  {
    CountFoodAmong(t, order);
    assert FoodAmong(t, order) == FoodKeys(t);
  }

  /**
   * totalEntityEnergy's loop: `sum += e.getEnergy()` for every entity that
   * is not Food; the compound assignment to an int truncates the double sum
   * back to an int at every step.
   */
  function EnergyFold(bs: seq<Body>): int
    decreases |bs|
  {
    if |bs| == 0 then 0
    else
      var s := EnergyFold(bs[..|bs| - 1]);
      var b := bs[|bs| - 1];
      if b.kind == FoodKind then s else DoubleToInt(s as real + b.energy)
  }

  /** The exact sum of the energies of the entities that are not Food. */
  function ExactEnergy(bs: seq<Body>): real
    decreases |bs|
  {
    if |bs| == 0 then 0.0
    else
      var b := bs[|bs| - 1];
      ExactEnergy(bs[..|bs| - 1]) + (if b.kind == FoodKind then 0.0 else b.energy)
  }

  /** How many entities are not Food. */
  function NonFood(bs: seq<Body>): nat
    decreases |bs|
  {
    if |bs| == 0 then 0
    else NonFood(bs[..|bs| - 1]) + (if bs[|bs| - 1].kind == FoodKind then 0 else 1)
  }

  /** Every entity that is not Food has a non-negative energy. */
  predicate NonNegative(bs: seq<Body>) {
    forall i :: 0 <= i < |bs| && bs[i].kind != FoodKind ==> 0.0 <= bs[i].energy
  }

  /**
   * With non-negative energies and an exact total below Integer.MAX_VALUE,
   * the truncating loop never overflows; it stays at or below the exact
   * total and loses less than 1 for every entity added.
   */
  lemma {:induction false} EnergyFoldBounds(bs: seq<Body>)
    requires NonNegative(bs)
    requires ExactEnergy(bs) < MaxInt as real
    ensures 0 <= EnergyFold(bs)
    ensures EnergyFold(bs) as real <= ExactEnergy(bs) < EnergyFold(bs) as real + NonFood(bs) as real + 1.0
    ensures NonFood(bs) > 0 ==> ExactEnergy(bs) < EnergyFold(bs) as real + NonFood(bs) as real
    ensures NonFood(bs) == 0 ==> EnergyFold(bs) == 0 && ExactEnergy(bs) == 0.0
    decreases |bs|
  {
    if |bs| > 0 {
      var n := |bs| - 1;
      var prefix := bs[..n];
      ExactEnergyGrows(bs);
      EnergyFoldBounds(prefix);
    }
  }

  /** The exact total over a prefix is no larger, when energies of non-Food are non-negative. */
  lemma {:induction false} ExactEnergyGrows(bs: seq<Body>)
    requires |bs| > 0
    requires NonNegative(bs)
    ensures ExactEnergy(bs[..|bs| - 1]) <= ExactEnergy(bs)
    ensures NonNegative(bs[..|bs| - 1])
  {
  }

  /** Whole-number energies that keep every partial sum inside the int range are added exactly. */
  lemma {:induction false} EnergyFoldWhole(bs: seq<Body>)
    requires NonNegative(bs)
    requires forall i :: 0 <= i < |bs| && bs[i].kind != FoodKind ==> bs[i].energy == bs[i].energy.Floor as real
    requires ExactEnergy(bs) < MaxInt as real
    ensures EnergyFold(bs) as real == ExactEnergy(bs)
    decreases |bs|
  {
    if |bs| > 0 {
      var n := |bs| - 1;
      ExactEnergyGrows(bs);
      EnergyFoldWhole(bs[..n]);
      EnergyFoldBounds(bs[..n]);
      var b := bs[n];
      if b.kind != FoodKind {
        var s := EnergyFold(bs[..n]);
        assert s as real + b.energy == (s + b.energy.Floor) as real;
        DoubleToIntOfInt(s + b.energy.Floor);
      }
    }
  }

  /** blocked's answer does not depend on the iteration order: some non-Food entry sits exactly at (x, y). */
  lemma {:induction false} BlockedAnyOrder(t: Table, order: seq<Uuid>, x: real, y: real)
    requires IsOrder(order, t.Keys)
    ensures BlockedAt(SceneOf(t, order), x, y) <==>
      exists u :: u in t && t[u].kind != FoodKind && t[u].position == Vector2(x, y)
  {
    var scene := SceneOf(t, order);
    if exists u :: u in t && t[u].kind != FoodKind && t[u].position == Vector2(x, y) {
      var u :| u in t && t[u].kind != FoodKind && t[u].position == Vector2(x, y);
      var i :| 0 <= i < |order| && order[i] == u;
      assert scene[i] == t[u];
    }
  }
}
