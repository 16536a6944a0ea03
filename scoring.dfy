/** The later snapshot's counters as values: the score and skill level after a
    run of beam kills, the item counters after a run of power-up pickups, and the
    auto-fire timer. The main loop's methods are proved against these functions. */
module Scoring {

  /** Points for a beam kill (ordinary enemy or clown) and for a power-up item. */
  const BeamKillPoints: int := 10
  /** Points for a kill by a durian or a soccer ball. */
  const CompanionKillPoints: int := 5
  /** Points for a kill by a gravity field. */
  const GravityKillPoints: int := 10
  /** Every 150 points a skill may be chosen. */
  const LevelPoints: int := 150
  /** `beam_span` is clamped to this before the auto-fire test. */
  const MaxBeamSpan: int := 29

  /** `int(score / 150)` for a non-negative score. */
  function Level(score: int): int
  {
    score / LevelPoints
  }

  lemma LevelMonotone(a: int, b: int)
    requires a <= b
    ensures Level(a) <= Level(b)
  {
  }

  /** The counters a beam kill touches: the score, `level_save` and `wait_skill`. */
  datatype Progress = Progress(score: int, levelSave: int, waitSkill: bool)

  /** One beam kill: ten points, and a skill choice when the score enters a level
      above the saved one. */
  function BeamKill(p: Progress): Progress
  {
    var s := p.score + BeamKillPoints;
    if Level(s) > p.levelSave then Progress(s, Level(s), true) else p.(score := s)
  }

  /** `k` beam kills in a row. */
  function BeamKills(p: Progress, k: nat): Progress
    decreases k
  {
    if k == 0 then p else BeamKill(BeamKills(p, k - 1))
  }

  /** After `k > 0` beam kills the score has grown by `10 k`, `level_save` is the larger
      of its old value and the new score's level, and a skill choice is pending exactly
      when one was before or the new level exceeds the old `level_save`. Because the
      score only grows, the intermediate levels never matter. */
  lemma {:induction false} BeamKillsClosedForm(p: Progress, k: nat)
    ensures var q := BeamKills(p, k);
      && q.score == p.score + BeamKillPoints * k
      && q.levelSave == (if k > 0 && Level(q.score) > p.levelSave then Level(q.score) else p.levelSave)
      && q.waitSkill == (p.waitSkill || (k > 0 && Level(q.score) > p.levelSave))
    decreases k
  {
    if k > 0 {
      BeamKillsClosedForm(p, k - 1);
      var q1 := BeamKills(p, k - 1);
      LevelMonotone(q1.score, q1.score + BeamKillPoints);
    }
  }

  /** `level_save` never decreases and never passes the score's level. */
  lemma BeamKillsKeepLevel(p: Progress, k: nat)
    requires 0 <= p.levelSave <= Level(p.score)
    ensures var q := BeamKills(p, k);
      p.levelSave <= q.levelSave <= Level(q.score) && q.score >= p.score
  {
    BeamKillsClosedForm(p, k);
    LevelMonotone(p.score, BeamKills(p, k).score);
  }

  /** The counters a power-up pickup touches. */
  datatype Items = Items(itemCount: int, beamSpan: int, xbeam: real, score: int)

  /** One power-up: a larger beam image, ten points, one more item, and a shorter
      fire interval on every second item. */
  function Pickup(it: Items): Items
  {
    var c := it.itemCount + 1;
    Items(c, if c % 2 == 0 then it.beamSpan + 1 else it.beamSpan, it.xbeam + 0.2, it.score + BeamKillPoints)
  }

  function Pickups(it: Items, k: nat): Items
    decreases k
  {
    if k == 0 then it else Pickup(Pickups(it, k - 1))
  }

  /** After `k` pickups: `k` more items, `beam_span` grown by the number of even counts
      passed (so by one per two items), `xbeam` grown by `0.2 k`, the score by `10 k`. */
  lemma {:induction false} PickupsClosedForm(it: Items, k: nat)
    ensures var r := Pickups(it, k);
      && r.itemCount == it.itemCount + k
      && r.beamSpan == it.beamSpan + (it.itemCount + k) / 2 - it.itemCount / 2
      && r.xbeam == it.xbeam + 0.2 * k as real
      && r.score == it.score + BeamKillPoints * k
    decreases k
  {
    if k > 0 {
      PickupsClosedForm(it, k - 1);
      var c := it.itemCount + k;
      assert c / 2 == (c - 1) / 2 + (if c % 2 == 0 then 1 else 0);
    }
  }

  /** `beam_span` never exceeds half the items collected, when it starts that way. */
  lemma PickupsKeepSpan(it: Items, k: nat)
    requires 0 <= it.itemCount && 0 <= it.beamSpan <= it.itemCount / 2
    ensures var r := Pickups(it, k); 0 <= r.beamSpan <= r.itemCount / 2
  {
    PickupsClosedForm(it, k);
  }

  /** The auto-fire step: the clamped span, the new timer and whether a beam fires. */
  function Autofire(beamTimer: int, beamSpan: int): (int, int, bool)
  {
    var span := if beamSpan >= MaxBeamSpan then MaxBeamSpan else beamSpan;
    var t := beamTimer + 1;
    var fire := t % (30 - span) == 0;
    (if fire then 0 else t, span, fire)
  }

  /** With a non-negative span the divisor is between 1 and 30, so the fire interval
      is between 1 and 30 frames: starting from a reset timer, the next beam comes on
      exactly the `(30 - span)`-th frame. */
  lemma AutofireInterval(beamTimer: int, beamSpan: int)
    requires beamSpan >= 0 && 0 <= beamTimer
    ensures var (t, span, fire) := Autofire(beamTimer, beamSpan);
      && 0 <= span <= MaxBeamSpan && 1 <= 30 - span <= 30
      && (beamTimer + 1 < 30 - span ==> !fire && t == beamTimer + 1)
      && (beamTimer + 1 == 30 - span ==> fire && t == 0)
  {
  }
}
