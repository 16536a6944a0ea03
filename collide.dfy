/** The sprite-group collision rules the main loops rely on, over rectangles:
    `spritecollide` (which members of a group a rectangle overlaps),
    `groupcollide(a, b, True, True)` (each target consumes the beams it touches,
    in target order) and `groupcollide(a, b, True, False)` (targets touching any
    hazard die, the hazards stay). */
module Collide {
  import opened Geometry

  /** `spritecollide(r, group, ...)`: the members of `group` that `r` overlaps, in group order. */
  function Touching(r: Rect, group: seq<Rect>): (t: seq<Rect>)
    ensures |t| <= |group|
    ensures forall x :: x in t <==> x in group && Overlaps(r, x)
  {
    if group == [] then []
    else
      var last := group[|group| - 1];
      Touching(r, group[..|group| - 1]) + (if Overlaps(r, last) then [last] else [])
  }

  /** The members of `group` that `r` does not overlap, in group order. */
  function Untouched(r: Rect, group: seq<Rect>): (u: seq<Rect>)
    ensures forall x :: x in u <==> x in group && !Overlaps(r, x)
  {
    if group == [] then []
    else
      var last := group[|group| - 1];
      Untouched(r, group[..|group| - 1]) + (if Overlaps(r, last) then [] else [last])
  }

  /** Splitting a group by one rectangle loses and invents nothing. */
  lemma {:induction false} TouchingSplit(r: Rect, group: seq<Rect>)
    ensures multiset(Touching(r, group)) + multiset(Untouched(r, group)) == multiset(group)
    ensures |Touching(r, group)| + |Untouched(r, group)| == |group|
    decreases |group|
  {
    if group != [] {
      var init := group[..|group| - 1];
      var last := group[|group| - 1];
      TouchingSplit(r, init);
      assert group == init + [last];
      assert multiset(group) == multiset(init) + multiset{last};
      if Overlaps(r, last) {
        assert Touching(r, group) == Touching(r, init) + [last];
        assert Untouched(r, group) == Untouched(r, init);
      } else {
        assert Touching(r, group) == Touching(r, init);
        assert Untouched(r, group) == Untouched(r, init) + [last];
      }
    }
  }

  /** `groupcollide(targets, beams, True, True)`: each target, in order, removes
      every remaining beam it overlaps and dies if there was at least one.
      The result is (surviving targets, killed targets, remaining beams). */
  function Consume(targets: seq<Rect>, beams: seq<Rect>): (seq<Rect>, seq<Rect>, seq<Rect>)
    decreases |targets|
  {
    if targets == [] then ([], [], beams)
    else
      var (spared, killed, left) := Consume(targets[..|targets| - 1], beams);
      var t := targets[|targets| - 1];
      if Touching(t, left) != [] then (spared, killed + [t], Untouched(t, left))
      else (spared + [t], killed, left)
  }

  /** Every target either survives or is killed; each kill uses up at least one
      beam, so there are never more kills than beams; beams are only removed. */
  lemma {:induction false} ConsumeCounts(targets: seq<Rect>, beams: seq<Rect>)
    ensures var (spared, killed, left) := Consume(targets, beams);
      && multiset(spared) + multiset(killed) == multiset(targets)
      && |killed| + |left| <= |beams|
      && multiset(left) <= multiset(beams)
    decreases |targets|
  {
    if targets != [] {
      var init := targets[..|targets| - 1];
      var t := targets[|targets| - 1];
      ConsumeCounts(init, beams);
      var (spared, killed, left) := Consume(init, beams);
      assert targets == init + [t];
      assert multiset(targets) == multiset(init) + multiset{t};
      if Touching(t, left) != [] {
        TouchingSplit(t, left);
        assert Consume(targets, beams) == (spared, killed + [t], Untouched(t, left));
        assert multiset(killed + [t]) == multiset(killed) + multiset{t};
        assert multiset(Untouched(t, left)) <= multiset(left);
      } else {
        assert Consume(targets, beams) == (spared + [t], killed, left);
        assert multiset(spared + [t]) == multiset(spared) + multiset{t};
      }
    }
  }

  /** No surviving target overlaps a beam that is left. */
  lemma {:induction false} ConsumeSeparates(targets: seq<Rect>, beams: seq<Rect>)
    ensures var (spared, killed, left) := Consume(targets, beams);
      forall s, b :: s in spared && b in left ==> !Overlaps(s, b)
    decreases |targets|
  {
    if targets != [] {
      var init := targets[..|targets| - 1];
      var t := targets[|targets| - 1];
      ConsumeSeparates(init, beams);
      var (spared, killed, left) := Consume(init, beams);
      if Touching(t, left) != [] {
        var u := Untouched(t, left);
        forall s, b | s in spared && b in u
          ensures !Overlaps(s, b)
        {
          assert b in left;
        }
      } else {
        forall s, b | s in spared + [t] && b in left
          ensures !Overlaps(s, b)
        {
          if s == t {
            assert b !in Touching(t, left);
          }
        }
      }
    }
  }

  /** A beam that no target overlaps is never used up. */
  lemma {:induction false} ConsumeKeepsUntouched(targets: seq<Rect>, beams: seq<Rect>, b: Rect)
    requires b in beams && forall t :: t in targets ==> !Overlaps(t, b)
    ensures b in Consume(targets, beams).2
    decreases |targets|
  {
    if targets != [] {
      var init := targets[..|targets| - 1];
      var t := targets[|targets| - 1];
      assert forall x :: x in init ==> x in targets;
      ConsumeKeepsUntouched(init, beams, b);
      var left := Consume(init, beams).2;
      assert b in Untouched(t, left);
    }
  }

  /** The above together: `groupcollide(targets, beams, True, True)` partitions the
      targets, spends at least one beam per kill, leaves no survivor touching a beam,
      and keeps every beam no target touches. */
  lemma ConsumeSound(targets: seq<Rect>, beams: seq<Rect>)
    ensures var (spared, killed, left) := Consume(targets, beams);
      && multiset(spared) + multiset(killed) == multiset(targets)
      && |killed| + |left| <= |beams|
      && multiset(left) <= multiset(beams)
      && (forall s, b :: s in spared && b in left ==> !Overlaps(s, b))
      && (forall b :: b in beams && (forall t :: t in targets ==> !Overlaps(t, b)) ==> b in left)
  {
    ConsumeCounts(targets, beams);
    ConsumeSeparates(targets, beams);
    forall b | b in beams && (forall t :: t in targets ==> !Overlaps(t, b))
      ensures b in Consume(targets, beams).2
    {
      ConsumeKeepsUntouched(targets, beams, b);
    }
  }

  /** The survivors are never more than the targets. */
  lemma ConsumeShrinks(targets: seq<Rect>, beams: seq<Rect>)
    ensures |Consume(targets, beams).0| <= |targets|
  {
    ConsumeCounts(targets, beams);
    var spared := Consume(targets, beams).0;
    assert |multiset(spared)| <= |multiset(targets)|;
  }

  /** Every killed target overlapped at least one of the original beams. */
  lemma {:induction false} ConsumeKillsOnContact(targets: seq<Rect>, beams: seq<Rect>)
    ensures forall k :: k in Consume(targets, beams).1 ==> exists b :: b in beams && Overlaps(k, b)
    decreases |targets|
  {
    if targets != [] {
      var init := targets[..|targets| - 1];
      var t := targets[|targets| - 1];
      ConsumeKillsOnContact(init, beams);
      ConsumeCounts(init, beams);
      var left := Consume(init, beams).2;
      if Touching(t, left) != [] {
        var b := Touching(t, left)[0];
        assert b in left;
        assert b in multiset(beams);
      }
    }
  }

  /** Whether `t` overlaps some hazard. */
  predicate HitsAny(t: Rect, hazards: seq<Rect>)
  {
    exists h :: h in hazards && Overlaps(t, h)
  }

  /** `groupcollide(targets, hazards, True, False)`: the targets that overlap no hazard stay. */
  function Spared(targets: seq<Rect>, hazards: seq<Rect>): seq<Rect>
  {
    if targets == [] then []
    else
      var t := targets[|targets| - 1];
      Spared(targets[..|targets| - 1], hazards) + (if HitsAny(t, hazards) then [] else [t])
  }

  /** ... and the ones that overlap some hazard die, in target order (the dictionary's keys). */
  function Struck(targets: seq<Rect>, hazards: seq<Rect>): seq<Rect>
  {
    if targets == [] then []
    else
      var t := targets[|targets| - 1];
      Struck(targets[..|targets| - 1], hazards) + (if HitsAny(t, hazards) then [t] else [])
  }

  /** The targets split into the spared and the struck, losing and inventing none. */
  lemma {:induction false} StrikePartition(targets: seq<Rect>, hazards: seq<Rect>)
    ensures multiset(Spared(targets, hazards)) + multiset(Struck(targets, hazards)) == multiset(targets)
    ensures |Spared(targets, hazards)| + |Struck(targets, hazards)| == |targets|
    decreases |targets|
  {
    if targets != [] {
      var init := targets[..|targets| - 1];
      var t := targets[|targets| - 1];
      StrikePartition(init, hazards);
      assert targets == init + [t];
      assert multiset(targets) == multiset(init) + multiset{t};
      if HitsAny(t, hazards) {
        assert Spared(targets, hazards) == Spared(init, hazards);
        assert Struck(targets, hazards) == Struck(init, hazards) + [t];
      } else {
        assert Spared(targets, hazards) == Spared(init, hazards) + [t];
        assert Struck(targets, hazards) == Struck(init, hazards);
      }
    }
  }

  /** No spared target overlaps any hazard, and every struck one overlaps at least one. */
  lemma {:induction false} StrikeSeparates(targets: seq<Rect>, hazards: seq<Rect>)
    ensures forall s, h :: s in Spared(targets, hazards) && h in hazards ==> !Overlaps(s, h)
    ensures forall k :: k in Struck(targets, hazards) ==> exists h :: h in hazards && Overlaps(k, h)
    decreases |targets|
  {
    if targets != [] {
      var init := targets[..|targets| - 1];
      var t := targets[|targets| - 1];
      StrikeSeparates(init, hazards);
    }
  }

  /** Without hazards nothing dies. */
  lemma {:induction false} StrikeNothing(targets: seq<Rect>)
    ensures Spared(targets, []) == targets && Struck(targets, []) == []
    decreases |targets|
  {
    if targets != [] {
      StrikeNothing(targets[..|targets| - 1]);
      assert targets == targets[..|targets| - 1] + [targets[|targets| - 1]];
    }
  }
}
