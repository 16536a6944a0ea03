/** The spawn schedule of both main loops, keyed on the frame counter `tmr`, and
    the corner snapping that places a new clown. Which random ring position or
    item position is drawn is an input of the model. */
module Spawn {
  import opened Geometry

  /** Later snapshot: an ordinary enemy every 20 frames until the boss appears. */
  predicate EnemyDue(tmr: int, bossAppeared: bool) { tmr % 20 == 0 && !bossAppeared }

  /** Later snapshot: a clown every 100 frames until the boss appears. */
  predicate ClownDue(tmr: int, bossAppeared: bool) { tmr % 100 == 0 && !bossAppeared }

  /** Later snapshot: a power-up item every 100 frames, never on frame 0, boss or not. */
  predicate ItemDue(tmr: int) { tmr != 0 && tmr % 100 == 0 }

  /** Later snapshot: a gravity item every 1000 frames, never on frame 0. */
  predicate GravityItemDue(tmr: int) { tmr != 0 && tmr % 1000 == 0 }

  /** Later snapshot: the boss fires its fan every 100 frames once it has appeared. */
  predicate BossFanDue(tmr: int, bossAppeared: bool) { tmr % 100 == 0 && bossAppeared }

  /** Both snapshots: the difficulty ramp runs when at least five whole seconds
      (`tmr // 50`, at 50 frames a second) have passed since the last ramp; the later
      snapshot stops ramping once the boss has appeared. */
  predicate RampDue(tmr: int, lastIncrease: int, bossAppeared: bool)
  {
    tmr / 50 - lastIncrease >= 5 && !bossAppeared
  }

  /** Earlier snapshot: an enemy every 200 frames. */
  predicate EarlyEnemyDue(tmr: int) { tmr % 200 == 0 }

  /** How the schedules nest: every clown frame is an enemy frame, every gravity
      item frame is an item frame, before the boss every item frame also brings a
      clown, and after it the item frames are exactly the fan frames after frame 0. */
  lemma ScheduleNesting(tmr: int, bossAppeared: bool)
    ensures ClownDue(tmr, bossAppeared) ==> EnemyDue(tmr, bossAppeared)
    ensures GravityItemDue(tmr) ==> ItemDue(tmr)
    ensures ItemDue(tmr) && !bossAppeared ==> ClownDue(tmr, bossAppeared)
    ensures bossAppeared && tmr != 0 ==> (ItemDue(tmr) <==> BossFanDue(tmr, bossAppeared))
    ensures !(EnemyDue(tmr, bossAppeared) && BossFanDue(tmr, bossAppeared))
  {
  }

  /** `ClownEnemy`'s snapping: the raw ring position (floating point in the game)
      becomes the off-screen corner on its side of the screen's centre. */
  function ClownCorner(spawnX: real, spawnY: real): (c: (int, int))
    ensures c.0 == -50 || c.0 == WIDTH + 50
    ensures c.1 == -50 || c.1 == HEIGHT + 50
    ensures (c.0 == -50) <==> spawnX < (WIDTH as real) / 2.0
    ensures (c.1 == -50) <==> spawnY < (HEIGHT as real) / 2.0
  {
    var x := if spawnX < (WIDTH as real) / 2.0 then -50 else WIDTH + 50;
    var y := if spawnY < (HEIGHT as real) / 2.0 then -50 else HEIGHT + 50;
    (x, y)
  }

  /** A clown placed at a snapped corner fails `check_bound` on both axes whatever
      its size, and one at most 100 pixels wide and high does not even touch the
      screen, so the screen-wide gravity field cannot reach it there. */
  lemma ClownStartsOffScreen(spawnX: real, spawnY: real, w: nat, h: nat)
    ensures var c := ClownCorner(spawnX, spawnY);
      CheckBound(CenteredAt(c.0, c.1, w, h)) == (false, false)
    ensures var c := ClownCorner(spawnX, spawnY);
      w <= 100 && h <= 100 ==> !Overlaps(CenteredAt(c.0, c.1, w, h), Screen)
  {
  }
}
