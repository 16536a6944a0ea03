/** `Beam._find_nearest_enemy` of the later snapshot: a new homing beam locks on
    to the enemy whose centre is nearest to the player's centre, looking first at
    the ordinary enemies and then at the clowns. */
module Targeting {
  import opened Geometry
  import opened Wrappers

  /** The squared distance between two centres. Comparing these integers orders
      enemies exactly as comparing `math.hypot` of the same differences. */
  function Dist2(a: Rect, b: Rect): nat
  {
    var dx := a.CenterX() - b.CenterX();
    var dy := a.CenterY() - b.CenterY();
    dx * dx + dy * dy
  }

  /** `k` indexes an enemy at minimal distance from `from`, and every enemy before
      it is strictly farther: the first of the nearest. */
  predicate IsFirstNearest(from: Rect, all: seq<Rect>, k: nat)
  {
    && k < |all|
    && (forall j :: 0 <= j < |all| ==> Dist2(from, all[k]) <= Dist2(from, all[j]))
    && (forall j :: 0 <= j < k ==> Dist2(from, all[j]) > Dist2(from, all[k]))
  }

  /** `_find_nearest_enemy(bird, enemies, clown_enemies)`: the index of the target
      in `emys + cemys`, or `None` when both groups are empty. The strict `<` keeps
      the first of equally near enemies, so ordinary enemies win ties against clowns. */
  method FindNearestEnemy(bird: Rect, emys: seq<Rect>, cemys: seq<Rect>) returns (nearest: Option<nat>)
    ensures nearest.None? <==> emys == [] && cemys == []
    ensures nearest.Some? ==> IsFirstNearest(bird, emys + cemys, nearest.value)
  {
    var all := emys + cemys;
    nearest := None;
    var minDistance: nat := 0;
    var i := 0;
    while i < |all|
      invariant 0 <= i <= |all|
      invariant nearest.None? <==> i == 0
      invariant nearest.Some? ==>
        && nearest.value < i
        && minDistance == Dist2(bird, all[nearest.value])
        && (forall j :: 0 <= j < i ==> minDistance <= Dist2(bird, all[j]))
        && (forall j :: 0 <= j < nearest.value ==> Dist2(bird, all[j]) > minDistance)
    {
      var distance := Dist2(bird, all[i]);
      if nearest.None? || distance < minDistance {
        minDistance := distance;
        nearest := Some(i);
      }
      i := i + 1;
    }
  }

  /** The characterisation picks exactly one enemy. */
  lemma FirstNearestUnique(from: Rect, all: seq<Rect>, k1: nat, k2: nat)
    requires IsFirstNearest(from, all, k1) && IsFirstNearest(from, all, k2)
    ensures k1 == k2
  {
    var d1, d2 := Dist2(from, all[k1]), Dist2(from, all[k2]);
    assert d1 <= d2 && d2 <= d1;
  }

  /** An ordinary enemy as near as every clown is chosen over all clowns. */
  lemma TiesGoToOrdinaryEnemies(from: Rect, emys: seq<Rect>, cemys: seq<Rect>, k: nat, e: nat)
    requires IsFirstNearest(from, emys + cemys, k)
    requires e < |emys| && forall c :: 0 <= c < |cemys| ==> Dist2(from, emys[e]) <= Dist2(from, cemys[c])
    ensures k < |emys|
  {
    var all := emys + cemys;
    assert all[e] == emys[e];
    var dk := Dist2(from, all[k]);
    assert dk <= Dist2(from, all[e]);
  }
}
