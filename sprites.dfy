/** The sprites whose `update` changes their own fields: the gravity field and the
    explosion (lifetime countdowns), and the two companions chosen at a skill
    pause, the durian (bounces off the walls) and the soccer ball (bounces off the
    walls, the enemies and the boss). Both snapshots share these rules. */
module Sprites {
  import opened Geometry

  /** One countdown step of `Gravity.update` and `Explosion.update`:
      the new lifetime and whether the sprite is still alive. */
  function Countdown(life: int): (int, bool)
  {
    (life - 1, life - 1 >= 0)
  }

  /** Whether a sprite with lifetime `life` is still alive after `k` updates. */
  function AliveAfter(life: int, k: nat): bool
  {
    if k == 0 then true
    else
      var (next, alive) := Countdown(life);
      alive && AliveAfter(next, k - 1)
  }

  /** A sprite created with lifetime `n >= 0` survives exactly `n` updates:
      it is removed on update number `n + 1`. */
  lemma {:induction false} AliveAfterExactly(life: int, k: nat)
    ensures AliveAfter(life, k) <==> k == 0 || k <= life
    decreases k
  {
    if k > 0 {
      AliveAfterExactly(life - 1, k - 1);
    }
  }

  /** The image index `life // 10 % 2` of an explosion. */
  function ImageIndex(life: int): int
  {
    (life / 10) % 2
  }

  /** The index is always 0 or 1, even for the final negative lifetime, and it
      alternates every ten updates. */
  lemma ImageIndexAlternates(life: int)
    ensures 0 <= ImageIndex(life) <= 1
    ensures ImageIndex(life - 10) == 1 - ImageIndex(life)
  {
    assert (life - 10) / 10 == life / 10 - 1;
  }

  /** `Gravity`: covers the whole screen (`Screen`) while `life` has not gone negative. */
  class Gravity {
    var life: int

    constructor (life: int)
      ensures this.life == life
    {
      this.life := life;
    }

    /** `Gravity.update`: count down; `alive` is false on the update that kills it. */
    method Update() returns (alive: bool)
      modifies this`life
      ensures (life, alive) == Countdown(old(life))
    {
      life := life - 1;
      alive := !(life < 0);
    }
  }

  /** `Explosion`: an effect at the centre of the destroyed sprite. */
  class Explosion {
    const cx: int
    const cy: int
    var life: int
    var image: int

    constructor (cx: int, cy: int, life: int)
      ensures this.cx == cx && this.cy == cy && this.life == life && image == 0
    {
      this.cx, this.cy := cx, cy;
      this.life := life;
      image := 0;
    }

    /** `Explosion.update`: count down, pick the image for the new lifetime
        (always a valid index of the two images), and die below zero. */
    method Update() returns (alive: bool)
      modifies this`life, this`image
      ensures (life, alive) == Countdown(old(life))
      ensures image == ImageIndex(life) && 0 <= image <= 1
    {
      life := life - 1;
      image := (life / 10) % 2;
      alive := !(life < 0);
    }
  }

  /** A companion's position and direction signs. */
  datatype Motion = Motion(rect: Rect, vx: int, vy: int)

  function Reflect(v: int, hit: bool): int
  {
    if hit then -v else v
  }

  /** `Durian.update` on values: move `speed` times the direction, then flip `vx` for
      each vertical wall the rectangle is past and `vy` for each horizontal one. */
  function DurianStep(m: Motion): Motion
  {
    var r := m.rect.Move(DurianSpeed * m.vx, DurianSpeed * m.vy);
    Motion(r,
           Reflect(Reflect(m.vx, r.Left() < 0), r.Right() > WIDTH),
           Reflect(Reflect(m.vy, r.Top() < 0), r.Bottom() > HEIGHT))
  }

  const DurianSpeed: int := 3

  /** The durian's arena invariant: unit direction signs; at most one step past a
      wall, and then heading back in; a size that fits the screen with a step to spare. */
  predicate DurianBounded(m: Motion)
  {
    && (m.vx == 1 || m.vx == -1) && (m.vy == 1 || m.vy == -1)
    && m.rect.w <= WIDTH - DurianSpeed && m.rect.h <= HEIGHT - DurianSpeed
    && -DurianSpeed <= m.rect.Left() && m.rect.Right() <= WIDTH + DurianSpeed
    && -DurianSpeed <= m.rect.Top() && m.rect.Bottom() <= HEIGHT + DurianSpeed
    && (m.rect.Left() < 0 ==> m.vx == 1) && (m.rect.Right() > WIDTH ==> m.vx == -1)
    && (m.rect.Top() < 0 ==> m.vy == 1) && (m.rect.Bottom() > HEIGHT ==> m.vy == -1)
  }

  /** The durian never drifts off: its invariant holds after every update. */
  lemma DurianStaysInArena(m: Motion)
    requires DurianBounded(m)
    ensures DurianBounded(DurianStep(m))
    ensures DurianStep(m).rect.w == m.rect.w && DurianStep(m).rect.h == m.rect.h
  {
  }

  /** A durian that fits the screen and starts on it, moving down-right, satisfies the invariant. */
  lemma DurianStartsBounded(r: Rect)
    requires CheckBound(r) == (true, true) && r.w <= WIDTH - DurianSpeed && r.h <= HEIGHT - DurianSpeed
    ensures DurianBounded(Motion(r, 1, 1))
  {
  }

  /** The position is not clamped: a durian that starts more than one step past a
      corner flips on every update and shakes there for ever. */
  lemma DurianStuckInCorner()
    ensures var m := Motion(Rect(-10, -10, 40, 40), 1, 1);
      DurianStep(m) == Motion(Rect(-7, -7, 40, 40), -1, -1) && DurianStep(DurianStep(m)) == m
  {
  }

  class Durian {
    var rect: Rect
    var vx: int
    var vy: int
    var hasDamagedBoss: bool

    /** `Durian(player)`: centred on the player, moving down-right. */
    constructor (cx: int, cy: int, w: nat, h: nat)
      ensures rect == CenteredAt(cx, cy, w, h) && vx == 1 && vy == 1 && !hasDamagedBoss
    {
      rect := CenteredAt(cx, cy, w, h);
      vx, vy := 1, 1;
      hasDamagedBoss := false;
    }

    function State(): Motion
      reads this
    {
      Motion(rect, vx, vy)
    }

    /** `Durian.update`. */
    method Update()
      modifies this`rect, this`vx, this`vy
      ensures State() == DurianStep(old(State()))
    {
      rect := rect.Move(DurianSpeed * vx, DurianSpeed * vy);
      if rect.Left() < 0 {
        vx := -vx;
      }
      if rect.Right() > WIDTH {
        vx := -vx;
      }
      if rect.Top() < 0 {
        vy := -vy;
      }
      if rect.Bottom() > HEIGHT {
        vy := -vy;
      }
    }
  }

  const BallSpeed: int := 10

  /** The soccer ball's wall rule: one flip per axis when past either wall of that axis. */
  function BallWallStep(m: Motion): Motion
  {
    var r := m.rect.Move(BallSpeed * m.vx, BallSpeed * m.vy);
    Motion(r,
           Reflect(m.vx, r.Left() < 0 || r.Right() > WIDTH),
           Reflect(m.vy, r.Top() < 0 || r.Bottom() > HEIGHT))
  }

  /** The two enemy tests of `Soccerball.update`, for a ball `b` and an enemy `e`. */
  predicate HorizontalHitTest(b: Rect, e: Rect)
  {
    b.Left() <= e.Right() || b.Right() >= e.Left()
  }

  predicate VerticalHitTest(b: Rect, e: Rect)
  {
    b.Top() >= e.Bottom() || b.Bottom() <= e.Top()
  }

  /** For an enemy the ball overlaps, the horizontal test always passes and the
      vertical test never does: every touched enemy flips `vx` and none flips `vy`. */
  lemma EnemyHitTests(b: Rect, e: Rect)
    requires Overlaps(b, e)
    ensures HorizontalHitTest(b, e) && !VerticalHitTest(b, e)
  {
  }

  /** The number of rectangles in `group` that `r` overlaps. */
  function CountOverlapping(r: Rect, group: seq<Rect>): (n: nat)
    ensures n <= |group|
  {
    if group == [] then 0
    else CountOverlapping(r, group[..|group| - 1]) + (if Overlaps(r, group[|group| - 1]) then 1 else 0)
  }

  /** Flip the sign of `v` once per overlapped rectangle: the parity decides. */
  function FlipTimes(v: int, n: nat): (r: int)
    ensures r == if n % 2 == 0 then v else -v
  {
    if n == 0 then v else -FlipTimes(v, n - 1)
  }

  function Abs(a: int): nat { if a < 0 then -a else a }

  /** The test at the end of the boss bounce that would push an embedded ball out:
      it asks for a centre strictly below and strictly above the boss's top edge. */
  predicate EmbeddedTest(ball: Rect, boss: Rect)
  {
    ball.CenterX() > boss.Left() && ball.CenterX() < boss.Right() &&
    ball.CenterY() > boss.Top() && ball.CenterY() < boss.Top()
  }

  /** No ball and boss ever pass that test, so its correction never runs. */
  lemma EmbeddedTestNeverHolds(ball: Rect, boss: Rect)
    ensures !EmbeddedTest(ball, boss)
  {
  }

  /** The ball's part of the boss collision on values: when the ball overlaps the
      boss, reverse along the axis with the larger centre offset (vertical on a tie). */
  function BossBounce(m: Motion, boss: Rect): Motion
  {
    var dx := Abs(m.rect.CenterX() - boss.CenterX());
    var dy := Abs(m.rect.CenterY() - boss.CenterY());
    var hit := Overlaps(boss, m.rect);
    Motion(m.rect, Reflect(m.vx, hit && dx > dy), Reflect(m.vy, hit && dx <= dy))
  }

  /** The bounce never moves the ball; a ball clear of the boss keeps its direction,
      and one touching it reverses exactly one component, the horizontal one exactly
      when the centres are further apart horizontally than vertically. */
  lemma BossBounceSpec(m: Motion, boss: Rect)
    requires m.vx != 0 && m.vy != 0
    ensures var b := BossBounce(m, boss);
      && b.rect == m.rect
      && (!Overlaps(boss, m.rect) ==> b == m)
      && (Overlaps(boss, m.rect) ==> (b.vx == -m.vx <==> b.vy == m.vy))
      && (Overlaps(boss, m.rect) ==>
            (b.vx == -m.vx <==> Abs(m.rect.CenterX() - boss.CenterX()) > Abs(m.rect.CenterY() - boss.CenterY())))
  {
  }

  class Soccerball {
    var rect: Rect
    var vx: int
    var vy: int

    /** `Soccerball(player)`: centred on the player, moving down-right. */
    constructor (cx: int, cy: int, w: nat, h: nat)
      ensures rect == CenteredAt(cx, cy, w, h) && vx == 1 && vy == 1
    {
      rect := CenteredAt(cx, cy, w, h);
      vx, vy := 1, 1;
    }

    function State(): Motion
      reads this
    {
      Motion(rect, vx, vy)
    }

    /** `Soccerball.update(group)`: the wall rule, then one pass over the enemies
        the moved ball overlaps; each flips `vx` and none flips `vy`, so `vx` ends
        reversed exactly when an odd number of enemies are touched. */
    method Update(enemies: seq<Rect>)
      modifies this`rect, this`vx, this`vy
      ensures var w := BallWallStep(old(State()));
        rect == w.rect && vy == w.vy && vx == FlipTimes(w.vx, CountOverlapping(rect, enemies))
    {
      rect := rect.Move(BallSpeed * vx, BallSpeed * vy);
      if rect.Left() < 0 || rect.Right() > WIDTH {
        vx := -vx;
      }
      if rect.Top() < 0 || rect.Bottom() > HEIGHT {
        vy := -vy;
      }
      ghost var w := State();
      var i := 0;
      while i < |enemies|
        invariant 0 <= i <= |enemies|
        invariant rect == w.rect && vy == w.vy
        invariant vx == FlipTimes(w.vx, CountOverlapping(rect, enemies[..i]))
      {
        assert enemies[..i + 1][..i] == enemies[..i];
        var e := enemies[i];
        if Overlaps(rect, e) {
          EnemyHitTests(rect, e);
          if HorizontalHitTest(rect, e) {
            vx := -vx;
          }
          if VerticalHitTest(rect, e) {
            vy := -vy;
          }
        }
        i := i + 1;
      }
      assert enemies[..|enemies|] == enemies;
    }

    /** The ball's part of the boss collision in the later snapshot: `hit` tells
        whether the ball touches the boss, the direction follows `BossBounce`, and
        the embedded-ball correction that follows never fires. */
    method BounceOffBoss(boss: Rect) returns (hit: bool)
      modifies this`vx, this`vy
      ensures hit == Overlaps(boss, rect)
      ensures State() == BossBounce(old(State()), boss)
    {
      hit := Overlaps(boss, rect);
      if hit {
        var dx := Abs(rect.CenterX() - boss.CenterX());
        var dy := Abs(rect.CenterY() - boss.CenterY());
        if dx > dy {
          vx := -vx;
        } else {
          vy := -vy;
        }
        EmbeddedTestNeverHolds(rect, boss);
        if EmbeddedTest(rect, boss) {
          assert false;
        }
      }
    }
  }
}
