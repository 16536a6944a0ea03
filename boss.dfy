/** The later snapshot's boss: `Boss.__update__` (descend into place, force a
    nearly dead boss to zero health, explode once, leave the game some time after
    the defeat) and `Appearance.__update__` (create the boss once the score reaches
    1000, purge the enemies, flash the warning, then drive the boss). The wall clock
    becomes two inputs: whether the warning period is still running and whether
    the five seconds after the defeat have passed. */
module BossRules {
  import opened Geometry
  import opened Sprites

  /** The line the boss's top edge descends to. */
  const RestTop: int := 150
  /** The boss's starting health. */
  const StartHealth: int := 300
  /** The score at which the boss appears. */
  const BossScore: int := 1000

  /** The boss's fields that its update reads and writes. */
  datatype BossState = BossState(rect: Rect, health: int, appearing: bool, defeated: bool)

  /** `Boss()`: centred on the top edge's midpoint, full health, descending. */
  function BossStart(w: nat, h: nat): BossState
  {
    BossState(CenteredAt(WIDTH / 2, 0, w, h), StartHealth, true, false)
  }

  /** One `Boss.__update__` on values: the new fields and whether an explosion is returned. */
  function BossStep(s: BossState): (BossState, bool)
  {
    var moved := if s.appearing then s.rect.Move(0, 1) else s.rect;
    var arrived := s.appearing && moved.Top() >= RestTop;
    var r := if arrived then Rect(moved.x, RestTop, moved.w, moved.h) else moved;
    var health := if s.health <= 1 then 0 else s.health;
    var explode := health <= 0 && !s.defeated;
    (BossState(r, health, s.appearing && !arrived, s.defeated || explode), explode)
  }

  /** While descending the boss moves down one pixel a step, stopping with its top
      exactly on the rest line, after which it never moves again; only the vertical
      position changes. */
  lemma BossDescent(s: BossState)
    ensures var s' := BossStep(s).0;
      && s'.rect.x == s.rect.x && s'.rect.w == s.rect.w && s'.rect.h == s.rect.h
      && (s.appearing ==>
            && s'.rect.Top() == (if s.rect.Top() + 1 >= RestTop then RestTop else s.rect.Top() + 1)
            && (s'.appearing <==> s.rect.Top() + 1 < RestTop))
      && (!s.appearing ==> s'.rect == s.rect && !s'.appearing)
  {
  }

  /** After an update the health is never negative and never exactly 1; the boss is
      defeated from then on exactly when it was already, or its health was at most 1;
      the explosion comes exactly on the update that first defeats it. */
  lemma BossHealthRule(s: BossState)
    ensures var (s', e) := BossStep(s);
      && s'.health >= 0 && s'.health != 1
      && (s'.health == 0 <==> s.health <= 1)
      && (s.health > 1 ==> s'.health == s.health)
      && (s'.defeated <==> s.defeated || s.health <= 1)
      && (e <==> s'.defeated && !s.defeated)
  {
  }

  /** The boss is either above the rest line and descending, or resting on it. */
  predicate Placed(s: BossState)
  {
    (s.appearing ==> s.rect.Top() < RestTop) && (!s.appearing ==> s.rect.Top() == RestTop)
  }

  lemma BossStartPlaced(w: nat, h: nat)
    ensures Placed(BossStart(w, h))
  {
  }

  /** Updates keep the boss placed, whatever happens to its health. */
  lemma BossStepPlaced(s: BossState, health: int)
    requires Placed(s)
    ensures Placed(BossStep(s.(health := health)).0)
  {
  }

  /** `k` updates without damage. */
  function BossIter(s: BossState, k: nat): BossState
    decreases k
  {
    if k == 0 then s else BossIter(BossStep(s).0, k - 1)
  }

  /** A boss `d` pixels above the rest line reaches it in exactly `d` updates:
      after `k <= d` updates it is `k` pixels lower and still descending iff `k < d`. */
  lemma {:induction false} BossArrivalTime(s: BossState, k: nat)
    requires s.appearing && s.rect.Top() < RestTop && k <= RestTop - s.rect.Top()
    ensures BossIter(s, k).rect.Top() == s.rect.Top() + k
    ensures BossIter(s, k).appearing <==> k < RestTop - s.rect.Top()
    decreases k
  {
    if k > 0 {
      var s1 := BossStep(s).0;
      BossDescent(s);
      if k > 1 {
        BossArrivalTime(s1, k - 1);
      } else {
        assert BossIter(s, 1) == BossIter(s1, 0);
      }
    }
  }

  /** Updates with the health lowered by `hits[i]` before update `i` (what the main
      loop does between updates): the final state and how many explosions came out. */
  function BossRun(s: BossState, hits: seq<int>): (BossState, nat)
    decreases |hits|
  {
    if hits == [] then (s, 0)
    else
      var (s1, e) := BossStep(s.(health := s.health - hits[0]));
      var (f, n) := BossRun(s1, hits[1..]);
      (f, n + (if e then 1 else 0))
  }

  /** Whatever the damage, a run produces at most one explosion, and one exactly when
      the run defeats a boss that was not yet defeated; a defeat is never undone. */
  lemma {:induction false} BossExplodesOnce(s: BossState, hits: seq<int>)
    ensures var (f, n) := BossRun(s, hits);
      && n <= 1
      && (n == 1 <==> f.defeated && !s.defeated)
      && (s.defeated ==> f.defeated)
    decreases |hits|
  {
    if hits != [] {
      var s1 := BossStep(s.(health := s.health - hits[0])).0;
      BossExplodesOnce(s1, hits[1..]);
      BossHealthRule(s.(health := s.health - hits[0]));
    }
  }

  /** A boss can be defeated while still descending, so the two flags are not
      exclusive: a descending boss with at most 1 health is defeated by its update,
      and is still descending afterwards when it is more than a pixel above the rest line. */
  lemma DefeatedWhileAppearing(s: BossState)
    requires s.appearing && s.health <= 1
    ensures BossStep(s).0.defeated
    ensures s.rect.Top() + 1 < RestTop ==> BossStep(s).0.appearing
  {
  }

  class Boss {
    var rect: Rect
    var health: int
    var appearing: bool
    var defeated: bool

    function State(): BossState
      reads this
    {
      BossState(rect, health, appearing, defeated)
    }

    ghost predicate Valid()
      reads this
    {
      Placed(State())
    }

    /** `Boss()`: the image size is a parameter of the model. */
    constructor (w: nat, h: nat)
      ensures State() == BossStart(w, h) && Valid()
    {
      rect := CenteredAt(WIDTH / 2, 0, w, h);
      health := StartHealth;
      appearing := true;
      defeated := false;
    }

    /** `Boss.__update__`: the new fields follow `BossStep`; on the update that
        defeats the boss a fresh explosion of lifetime 100 at its centre is returned;
        on a later update, once `clearElapsed` (five seconds since the defeat) holds,
        the game ends. */
    method Update(clearElapsed: bool) returns (exp: Explosion?, exit: bool)
      requires Valid()
      modifies this`rect, this`health, this`appearing, this`defeated
      ensures Valid()
      ensures State() == BossStep(old(State())).0
      ensures (exp != null) == BossStep(old(State())).1
      ensures exp != null ==> fresh(exp) && exp.cx == rect.CenterX() && exp.cy == rect.CenterY() && exp.life == 100
      ensures exit == (old(defeated) && clearElapsed)
    {
      exp := null;
      exit := false;
      if appearing {
        rect := rect.Move(0, 1);
        if rect.Top() >= RestTop {
          rect := Rect(rect.x, RestTop, rect.w, rect.h);
          appearing := false;
        }
      }
      if health <= 1 {
        health := 0;
      }
      if health <= 0 && !defeated {
        defeated := true;
        exp := new Explosion(rect.CenterX(), rect.CenterY(), 100);
        return;
      }
      if defeated {
        if clearElapsed {
          exit := true;
        }
      }
    }

    /** The main loop's `boss.health -= n`. */
    method Hit(n: int)
      requires Valid()
      modifies this`health
      ensures Valid() && health == old(health) - n
    {
      health := health - n;
    }
  }

  /** The appearance controller's fields, with the boss's fields when it exists. */
  datatype AppearState = AppearState(appeared: bool, flashTime: int, visible: bool, boss: BossOrNone)

  datatype BossOrNone = NoBoss | TheBoss(state: BossState)

  /** The warning flash: the boss becomes visible on a flash frame (`flash % 80 < 10`)
      after the fourth. */
  predicate FlashShows(flashTime: int)
  {
    flashTime % 80 < 10 && flashTime > 4
  }

  /** One `Appearance.__update__` on values: the new fields, whether the enemies were
      purged, and whether the boss ended the game. The warning period runs while the
      boss has appeared and `warning` holds. */
  function AppearStep(a: AppearState, score: int, warning: bool, clearElapsed: bool, w: nat, h: nat)
    : (AppearState, bool, bool)
  {
    var create := score >= BossScore && !a.appeared;
    var a1 := if create then AppearState(true, 0, false, TheBoss(BossStart(w, h))) else a;
    if a1.appeared && warning then
      var flash := a1.flashTime + 1;
      (a1.(flashTime := flash, visible := a1.visible || FlashShows(flash)), create, false)
    else if a1.boss.TheBoss? && a1.visible then
      var b := a1.boss.state;
      (a1.(boss := TheBoss(BossStep(b).0)), create, b.defeated && clearElapsed)
    else (a1, create, false)
  }

  /** The controller's invariant: a boss exists exactly when it has appeared, is only
      shown once it exists, and is placed. */
  predicate AppearValid(a: AppearState)
  {
    && (a.appeared <==> a.boss.TheBoss?)
    && (a.visible ==> a.appeared)
    && a.flashTime >= 0
    && (a.boss.TheBoss? ==> Placed(a.boss.state))
  }

  /** The initial controller. */
  const AppearStart: AppearState := AppearState(false, 0, false, NoBoss)

  /** One step keeps the invariant; the enemies are purged exactly on the step that
      brings the boss in, which happens exactly when the score first reaches 1000; an
      appeared boss is never replaced or withdrawn, and the game ends only through a
      boss that was already defeated. */
  lemma AppearStepSpec(a: AppearState, score: int, warning: bool, clearElapsed: bool, w: nat, h: nat)
    requires AppearValid(a)
    ensures var (a', purge, exit) := AppearStep(a, score, warning, clearElapsed, w, h);
      && AppearValid(a')
      && (purge <==> !a.appeared && score >= BossScore)
      && (a'.appeared <==> a.appeared || score >= BossScore)
      && (purge ==> a'.boss.state.health == StartHealth && !a'.boss.state.defeated)
      && (a.appeared ==> a'.boss.state.rect.w == a.boss.state.rect.w && a'.boss.state.rect.h == a.boss.state.rect.h)
      && (exit ==> a.boss.TheBoss? && a.boss.state.defeated)
  {
    var (a', purge, exit) := AppearStep(a, score, warning, clearElapsed, w, h);
    if a.boss.TheBoss? {
      BossDescent(a.boss.state);
      BossStepPlaced(a.boss.state, a.boss.state.health);
      assert a.boss.state.(health := a.boss.state.health) == a.boss.state;
    }
  }

  /** The controller over a run of frames, each with its score and clock inputs:
      the final state and how many purges happened. */
  datatype FrameInput = FrameInput(score: int, warning: bool, clearElapsed: bool)

  function AppearRun(a: AppearState, frames: seq<FrameInput>, w: nat, h: nat): (AppearState, nat)
    decreases |frames|
  {
    if frames == [] then (a, 0)
    else
      var f := frames[0];
      var (a1, purge, _) := AppearStep(a, f.score, f.warning, f.clearElapsed, w, h);
      var (af, n) := AppearRun(a1, frames[1..], w, h);
      (af, n + (if purge then 1 else 0))
  }

  /** Over any run the boss appears at most once, and exactly once from the initial
      state when some frame's score reaches 1000. */
  lemma {:induction false} AppearsOnce(a: AppearState, frames: seq<FrameInput>, w: nat, h: nat)
    requires AppearValid(a)
    ensures var (af, n) := AppearRun(a, frames, w, h);
      && n <= 1
      && AppearValid(af)
      && (n == 1 <==> !a.appeared && exists i :: 0 <= i < |frames| && frames[i].score >= BossScore)
      && (af.appeared <==> a.appeared || n == 1)
    decreases |frames|
  {
    if frames != [] {
      var f := frames[0];
      AppearStepSpec(a, f.score, f.warning, f.clearElapsed, w, h);
      var (a1, purge, _) := AppearStep(a, f.score, f.warning, f.clearElapsed, w, h);
      AppearsOnce(a1, frames[1..], w, h);
      var rest := frames[1..];
      if exists i :: 0 <= i < |rest| && rest[i].score >= BossScore {
        var i :| 0 <= i < |rest| && rest[i].score >= BossScore;
        assert frames[i + 1] == rest[i];
      }
      if exists i :: 0 <= i < |frames| && frames[i].score >= BossScore {
        var i :| 0 <= i < |frames| && frames[i].score >= BossScore;
        if i > 0 {
          assert rest[i - 1] == frames[i];
        }
      }
    }
  }

  class Appearance {
    var bossAppeared: bool
    var boss: Boss?
    var flashTime: int
    var bossVisible: bool

    function State(): AppearState
      reads this, boss
    {
      AppearState(bossAppeared, flashTime, bossVisible, if boss == null then NoBoss else TheBoss(boss.State()))
    }

    ghost predicate Valid()
      reads this, boss
    {
      AppearValid(State())
    }

    constructor ()
      ensures State() == AppearStart && Valid()
    {
      bossAppeared := false;
      boss := null;
      flashTime := 0;
      bossVisible := false;
    }

    /** `Appearance.__update__`: `score` is the current score, `warning` whether the
        four-second warning is still running, `clearElapsed` whether five seconds
        have passed since the boss's defeat, and `w`, `h` the boss image's size.
        `purge` asks the caller to kill every enemy and clown; `exit` ends the game.
        The explosion the boss's update may return is dropped here. */
    method Update(score: int, warning: bool, clearElapsed: bool, w: nat, h: nat) returns (purge: bool, exit: bool)
      requires Valid()
      modifies this, boss
      ensures Valid()
      ensures (State(), purge, exit) == AppearStep(old(State()), score, warning, clearElapsed, w, h)
      ensures old(boss) != null ==> boss == old(boss)
      ensures old(boss) == null && boss != null ==> fresh(boss)
    {
      purge := false;
      exit := false;
      if score >= BossScore && !bossAppeared {
        bossAppeared := true;
        boss := new Boss(w, h);
        purge := true;
        flashTime := 0;
        bossVisible := false;
      }
      if bossAppeared && warning {
        flashTime := flashTime + 1;
        if FlashShows(flashTime) {
          bossVisible := true;
        }
      } else if boss != null && bossVisible {
        var _, e := boss.Update(clearElapsed);
        exit := e;
      }
      AppearStepSpec(old(State()), score, warning, clearElapsed, w, h);
    }
  }
}
