/** The later snapshot's main loop: one `GameState.Tick` is one pass of the
    `while True` loop of `main`, in the source's order except at the end of the
    frame, where the explosions, gravity fields and durians count down and bounce
    (`AnimateSprites`) before the player, the beams and the enemies move
    (`MovePhase`); the two touch disjoint state, so the order does not change the
    result. Positions are integer rectangles; what the game draws from the random
    generator, the float headings of the moving sprites (as per-frame
    displacements), the wall clock and the image sizes are inputs. */
module Game {
  import opened Geometry
  import opened Wrappers
  import opened Player
  import opened Sprites
  import opened Fan
  import opened Spawn
  import opened Collide
  import opened Scoring
  import opened BossRules

  /** The sizes of the images the sprites' rectangles are taken from; a boss beam's
      image is rotated to its heading, so its size is a function of that heading. */
  datatype Sizes = Sizes(
    bird: (nat, nat), beam: (nat, nat), enemy: (nat, nat), clown: (nat, nat),
    item: (nat, nat), gravityItem: (nat, nat), durian: (nat, nat), ball: (nat, nat),
    boss: (nat, nat), bossBeamBox: real -> (nat, nat))

  /** The events of one frame that the loop reacts to. */
  datatype Event = QuitEvent | Key1 | Key2 | OtherKey

  /** Everything one frame reads from outside the model: events and held keys, the
      random spawn positions and the boss's random base angle, each moving sprite's displacement (its float heading times its speed,
      by position in its group), and the clock tests: whether the warning is still
      running, and whether five seconds have passed since the boss's defeat when the
      boss block updates it (`bossClearElapsed`) and when `Appearance` updates it
      later in the frame (`appearClearElapsed`). */
  datatype Frame = Frame(
    events: seq<Event>, pressed: set<Key>,
    enemyAt: (int, int), clownAt: (real, real), itemAt: (int, int), gravityItemAt: (int, int),
    fanBase: int,
    beamMoves: seq<(int, int)>, bossBeamMoves: seq<(int, int)>,
    emyMoves: seq<(int, int)>, cemyMoves: seq<(int, int)>,
    warning: bool, bossClearElapsed: bool, appearClearElapsed: bool)

  /** How a frame ends: the loop goes on, is paused for a skill choice (`continue`),
      or `main` returns (window closed, player hit) or the program exits (boss beaten
      and five seconds passed). `Crashed` is the `UnboundLocalError` of a clown kill by
      a companion before any clown was shot. */
  datatype Outcome = Running | Paused | Quitted | Defeated | Cleared | Crashed

  datatype Skill = DurianSkill | BallSkill

  /** The event loop's effect so far: whether the window was closed, whether a skill
      choice is still pending, and the companion chosen, if any. */
  datatype EventResult = EventResult(quit: bool, wait: bool, chosen: Option<Skill>)

  function EventStep(r: EventResult, e: Event): EventResult
  {
    match e
    case QuitEvent => r.(quit := true)
    case Key1 => if r.wait then r.(wait := false, chosen := Some(DurianSkill)) else r
    case Key2 => if r.wait then r.(wait := false, chosen := Some(BallSkill)) else r
    case OtherKey => r
  }

  /** The events in order, stopping at the first quit. */
  function Events(wait: bool, evs: seq<Event>): EventResult
    decreases |evs|
  {
    if evs == [] then EventResult(false, wait, None)
    else
      var r := Events(wait, evs[..|evs| - 1]);
      if r.quit then r else EventStep(r, evs[|evs| - 1])
  }

  /** An event is a skill key. */
  predicate IsSkillKey(e: Event) { e == Key1 || e == Key2 }

  /** The skill a skill key selects. */
  function SkillOf(e: Event): Skill { if e == Key1 then DurianSkill else BallSkill }

  /** `evs[i]` is the first skill key, and no quit comes before it. */
  predicate FirstSkillKey(evs: seq<Event>, i: int)
  {
    0 <= i < |evs| && IsSkillKey(evs[i]) &&
    forall j :: 0 <= j < i ==> evs[j] != QuitEvent && !IsSkillKey(evs[j])
  }

  /** A frame's events choose a companion exactly when a choice was pending and a skill
      key comes before any quit; the first such key decides which, later ones are
      ignored, and the choice is then no longer pending. The window is closed exactly
      when a quit event came. */
  lemma {:induction false} EventsChooseOnce(wait: bool, evs: seq<Event>)
    ensures var r := Events(wait, evs);
      && r.wait == (wait && r.chosen == None)
      && (r.chosen != None ==> wait && exists i :: FirstSkillKey(evs, i))
      && (forall i :: wait && FirstSkillKey(evs, i) ==> r.chosen == Some(SkillOf(evs[i])))
      && (wait && !r.quit && r.chosen == None ==> forall j :: 0 <= j < |evs| ==> !IsSkillKey(evs[j]))
      && (r.quit <==> QuitEvent in evs)
    decreases |evs|
  {
    if evs != [] {
      var n := |evs| - 1;
      var init := evs[..n];
      var e := evs[n];
      assert evs == init + [e];
      EventsChooseOnce(wait, init);
      var r0 := Events(wait, init);
      var r := Events(wait, evs);
      assert forall i :: 0 <= i < n ==> init[i] == evs[i];
      assert QuitEvent in evs <==> QuitEvent in init || e == QuitEvent;
      if r0.chosen != None {
        var i :| FirstSkillKey(init, i);
        assert FirstSkillKey(evs, i);
      }
      forall i | wait && FirstSkillKey(evs, i)
        ensures r.chosen == Some(SkillOf(evs[i]))
      {
        if i < n {
          assert FirstSkillKey(init, i);
        } else {
          assert QuitEvent !in init by {
            forall j | 0 <= j < n ensures init[j] != QuitEvent {
              assert evs[j] != QuitEvent;
            }
          }
        }
      }
    }
  }

  /** Once the window is closed, later events change nothing. */
  lemma {:induction false} QuitSticks(wait: bool, evs: seq<Event>, n: nat)
    requires n <= |evs| && Events(wait, evs[..n]).quit
    ensures Events(wait, evs) == Events(wait, evs[..n])
    decreases |evs| - n
  {
    if n < |evs| {
      var init := evs[..|evs| - 1];
      assert init[..n] == evs[..n];
      QuitSticks(wait, init, n);
    } else {
      assert evs[..n] == evs;
    }
  }

  /** A sprite of size `size` centred at `at` when `due`, none otherwise. */
  function SpawnIf(due: bool, at: (int, int), size: (nat, nat)): seq<Rect>
  {
    if due then [CenteredAt(at.0, at.1, size.0, size.1)] else []
  }

  /** The ramp's counters `(enemies per spawn, spawn directions, last increase)`
      after the ramp has run on frame `tmr`. */
  function RampStep(c: (int, int, int), tmr: int, bossAppeared: bool): (int, int, int)
  {
    if RampDue(tmr, c.2, bossAppeared) then (c.0 + 100, c.1 + 2, tmr / 50) else c
  }

  /** The boss's fan on frame `tmr`, when due: three beams at the boss's centre,
      headed around `base`. */
  function BossVolley(tmr: int, a: AppearState, base: int, box: real -> (nat, nat)): seq<Rect>
  {
    if BossFanDue(tmr, a.appeared) && a.boss.TheBoss? then
      var r := a.boss.state.rect;
      Shots(r.CenterX(), r.CenterY(), box, FanAngles(base as real, 3))
    else []
  }

  /** `Beam.update` and `Bossbeam.update` over a group: move each beam and keep the
      ones not removed by the corner test. */
  function Advance(rs: seq<Rect>, moves: seq<(int, int)>): (out: seq<Rect>)
    ensures |out| <= |rs|
    ensures forall b :: b in out ==> !BeamGone(b)
    ensures forall b :: b in out ==> exists k :: 0 <= k < |rs| && b == rs[k].Move(MoveAt(moves, k).0, MoveAt(moves, k).1)
  {
    if rs == [] then []
    else
      var n := |rs| - 1;
      var d := MoveAt(moves, n);
      var m := rs[n].Move(d.0, d.1);
      Advance(rs[..n], moves) + (if BeamGone(m) then [] else [m])
  }

  /** A beam whose moved centre is strictly inside the screen on either axis survives. */
  lemma {:induction false} AdvanceKeepsInnerBeams(rs: seq<Rect>, moves: seq<(int, int)>, k: nat)
    requires k < |rs|
    ensures var d := MoveAt(moves, k); var m := rs[k].Move(d.0, d.1);
      (0 < m.CenterX() < WIDTH || 0 < m.CenterY() < HEIGHT) ==> m in Advance(rs, moves)
    decreases |rs|
  {
    var n := |rs| - 1;
    if k < n {
      AdvanceKeepsInnerBeams(rs[..n], moves, k);
    }
  }

  /** Objects of a group are distinct, as the members of a pygame group are. */
  predicate Distinct<T(==)>(s: seq<T>)
  {
    forall i, j :: 0 <= i < j < |s| ==> s[i] != s[j]
  }

  /** The rectangles of the durians. */
  function DurianRects(ds: seq<Durian>): seq<Rect>
    reads ds
  {
    seq(|ds|, i reads ds requires 0 <= i < |ds| => ds[i].rect)
  }

  /** The rectangles of the soccer balls. */
  function BallRects(bs: seq<Soccerball>): seq<Rect>
    reads bs
  {
    seq(|bs|, i reads bs requires 0 <= i < |bs| => bs[i].rect)
  }

  /** The durians touching the boss that had not yet damaged it during this contact. */
  function FreshContacts(boss: Rect, ds: seq<Durian>): nat
    reads ds
  {
    if ds == [] then 0
    else
      var d := ds[|ds| - 1];
      FreshContacts(boss, ds[..|ds| - 1]) + (if Overlaps(boss, d.rect) && !d.hasDamagedBoss then 1 else 0)
  }

  /** The explosions' centres. */
  function ExpCentres(es: seq<Explosion>): (cs: seq<(int, int)>)
    ensures |cs| == |es| && forall i :: 0 <= i < |es| ==> cs[i] == (es[i].cx, es[i].cy)
  {
    seq(|es|, i requires 0 <= i < |es| => (es[i].cx, es[i].cy))
  }

  /** `es` are new explosions of lifetime 100, one at each of `centres`, in order. */
  ghost predicate NewExplosions(es: seq<Explosion>, centres: seq<(int, int)>)
    reads es
  {
    ExpCentres(es) == centres && forall i :: 0 <= i < |es| ==> es[i].life == 100
  }

  /** The clown a `for cemy in ...` loop leaves bound: the last one it visited, or
      the previous binding when it visited none. */
  function LastBound(visited: seq<Rect>, prev: Option<Rect>): (c: Option<Rect>)
    ensures c == None ==> prev == None && visited == []
    ensures visited != [] ==> c == Some(visited[|visited| - 1])
  {
    if visited == [] then prev else Some(visited[|visited| - 1])
  }

  /** The centres of `n` explosions all placed at the stale clown `c`, if there is one. */
  function StaleCentres(n: nat, c: Option<Rect>): (cs: seq<(int, int)>)
    ensures c.Some? ==> |cs| == n && forall i :: 0 <= i < n ==> cs[i] == (c.value.CenterX(), c.value.CenterY())
  {
    match c
    case None => []
    case Some(r) => seq(n, _ => (r.CenterX(), r.CenterY()))
  }

  /** The soccer balls touching the boss. */
  function BallContacts(boss: Rect, bs: seq<Soccerball>): nat
    reads bs
  {
    if bs == [] then 0
    else BallContacts(boss, bs[..|bs| - 1]) + (if Overlaps(boss, bs[|bs| - 1].rect) then 1 else 0)
  }

  /** The sprites that survive a countdown step, given their lifetimes before it:
      those whose lifetime is still non-negative after losing one. */
  function Survivors<T>(xs: seq<T>, lives: seq<int>): (out: seq<T>)
    requires |lives| == |xs|
    ensures |out| <= |xs|
  {
    if xs == [] then []
    else
      var n := |xs| - 1;
      Survivors(xs[..n], lives[..n]) + (if Countdown(lives[n]).1 then [xs[n]] else [])
  }

  /** The survivors are exactly the sprites whose lifetime stays non-negative: each
      survivor is one of the sprites, and each sprite with lifetime left survives. */
  lemma {:induction false} SurvivorsMembers<T>(xs: seq<T>, lives: seq<int>)
    requires |lives| == |xs|
    ensures forall x :: x in Survivors(xs, lives) ==> x in xs
    ensures forall i :: 0 <= i < |xs| && Countdown(lives[i]).1 ==> xs[i] in Survivors(xs, lives)
    decreases |xs|
  {
    if xs != [] {
      var n := |xs| - 1;
      SurvivorsMembers(xs[..n], lives[..n]);
      forall i | 0 <= i < n
        ensures xs[..n][i] == xs[i] && lives[..n][i] == lives[i]
      {
      }
    }
  }

  /** One more sprite's countdown extends the survivors of the ones before it. */
  lemma SurvivorsStep<T>(xs: seq<T>, lives: seq<int>, i: int)
    requires |lives| == |xs| && 0 <= i < |xs|
    ensures Survivors(xs[..i + 1], lives[..i + 1])
      == Survivors(xs[..i], lives[..i]) + (if Countdown(lives[i]).1 then [xs[i]] else [])
  {
    assert xs[..i + 1][..i] == xs[..i] && lives[..i + 1][..i] == lives[..i];
  }

  /** Survivors of distinct sprites are distinct. */
  lemma {:induction false} SurvivorsDistinct<T>(xs: seq<T>, lives: seq<int>)
    requires |lives| == |xs| && Distinct(xs)
    ensures Distinct(Survivors(xs, lives))
  {
    if xs != [] {
      var n := |xs| - 1;
      SurvivorsDistinct(xs[..n], lives[..n]);
      SurvivorsMembers(xs[..n], lives[..n]);
      assert xs[n] !in xs[..n];
    }
  }

  /** The explosions' lifetimes. */
  function ExpLives(es: seq<Explosion>): (ls: seq<int>)
    reads es
    ensures |ls| == |es| && forall i :: 0 <= i < |es| ==> ls[i] == es[i].life
  {
    seq(|es|, i reads es requires 0 <= i < |es| => es[i].life)
  }

  /** The gravity fields' lifetimes. */
  function GravLives(gs: seq<Gravity>): (ls: seq<int>)
    reads gs
    ensures |ls| == |gs| && forall i :: 0 <= i < |gs| ==> ls[i] == gs[i].life
  {
    seq(|gs|, i reads gs requires 0 <= i < |gs| => gs[i].life)
  }

  /** The loop of `Group.update` over explosions: each counts down, and the
      survivors are kept in order. */
  method CountDownExplosions(es: seq<Explosion>) returns (kept: seq<Explosion>)
    requires Distinct(es)
    modifies es
    ensures forall i :: 0 <= i < |es| ==> es[i].life == old(es[i].life) - 1 && es[i].image == ImageIndex(es[i].life)
    ensures kept == Survivors(es, old(ExpLives(es))) && Distinct(kept)
  {
    ghost var lives := ExpLives(es);
    kept := [];
    var i := 0;
    while i < |es|
      invariant 0 <= i <= |es|
      invariant forall j :: 0 <= j < i ==> es[j].life == lives[j] - 1
      invariant forall j :: 0 <= j < i ==> es[j].image == ImageIndex(lives[j] - 1)
      invariant forall j :: i <= j < |es| ==> es[j].life == lives[j]
      invariant kept == Survivors(es[..i], lives[..i])
    {
      assert forall j :: 0 <= j < |es| && j != i ==> es[j] != es[i];
      var alive := es[i].Update();
      SurvivorsStep(es, lives, i);
      kept := kept + if alive then [es[i]] else [];
      i := i + 1;
    }
    assert es[..|es|] == es && lives[..|es|] == lives;
    SurvivorsDistinct(es, lives);
  }

  /** The loop of `Group.update` over gravity fields. */
  method CountDownGravities(gs: seq<Gravity>) returns (kept: seq<Gravity>)
    requires Distinct(gs)
    modifies gs
    ensures forall i :: 0 <= i < |gs| ==> gs[i].life == old(gs[i].life) - 1
    ensures kept == Survivors(gs, old(GravLives(gs))) && Distinct(kept)
  {
    ghost var lives := GravLives(gs);
    kept := [];
    var i := 0;
    while i < |gs|
      invariant 0 <= i <= |gs|
      invariant forall j :: 0 <= j < i ==> gs[j].life == lives[j] - 1
      invariant forall j :: i <= j < |gs| ==> gs[j].life == lives[j]
      invariant kept == Survivors(gs[..i], lives[..i])
    {
      assert forall j :: 0 <= j < |gs| && j != i ==> gs[j] != gs[i];
      var alive := gs[i].Update();
      SurvivorsStep(gs, lives, i);
      kept := kept + if alive then [gs[i]] else [];
      i := i + 1;
    }
    assert gs[..|gs|] == gs && lives[..|gs|] == lives;
    SurvivorsDistinct(gs, lives);
  }

  /** The loop over the soccer balls of the boss block, on the balls and the boss. */
  method BallsBounceOffBoss(bs: seq<Soccerball>, boss: Boss)
    requires Distinct(bs) && boss.Valid()
    modifies bs`vx, bs`vy, boss`health
    ensures boss.Valid()
    ensures boss.State() == old(boss.State()).(health := old(boss.health) - old(BallContacts(boss.rect, bs)))
    ensures forall i :: 0 <= i < |bs| ==> bs[i].State() == BossBounce(old(bs[i].State()), boss.rect)
  {
    var i := 0;
    while i < |bs|
      invariant 0 <= i <= |bs|
      invariant boss.Valid()
      invariant boss.State() == old(boss.State()).(health := old(boss.health) - old(BallContacts(boss.rect, bs[..i])))
      invariant forall j :: 0 <= j < i ==> bs[j].State() == BossBounce(old(bs[j].State()), boss.rect)
      invariant forall j :: i <= j < |bs| ==> bs[j].State() == old(bs[j].State())
    {
      assert bs[..i + 1][..i] == bs[..i];
      assert forall j :: 0 <= j < |bs| && j != i ==> bs[j] != bs[i];
      var hit := bs[i].BounceOffBoss(boss.rect);
      if hit {
        boss.Hit(1);
      }
      i := i + 1;
    }
    assert bs[..|bs|] == bs;
  }

  class GameState {
    const sizes: Sizes
    const bird: Bird
    const appearance: Appearance

    var score: int
    var levelSave: int
    var tmr: int
    var beamTimer: int
    var beamSpan: int
    var itemCount: int
    var xbeam: real
    var spawnDirections: int
    var enemiesPerSpawn: int
    var lastEnemyIncrease: int

    var emys: seq<Rect>
    var cemys: seq<Rect>
    var beams: seq<Rect>
    var bossBeams: seq<Rect>
    var items: seq<Rect>
    var gravityItems: seq<Rect>
    var exps: seq<Explosion>
    var gravities: seq<Gravity>
    var drns: seq<Durian>
    var balls: seq<Soccerball>
    /** The clown bound by the last `for cemy in ...` loop of `main`. */
    var lastClown: Option<Rect>

    ghost predicate Valid()
      reads this, bird, appearance, appearance.boss
    {
      && bird.Valid() && appearance.Valid()
      && 0 <= score && 0 <= levelSave <= Level(score)
      && 0 <= itemCount && 0 <= beamSpan <= itemCount / 2
      && 0 <= beamTimer && 0 <= tmr
      && 4 <= spawnDirections && 0 <= lastEnemyIncrease <= tmr / 50
      && Distinct(exps) && Distinct(gravities) && Distinct(drns) && Distinct(balls)
    }

    /** The state `main` sets up before its loop. */
    constructor (sizes: Sizes)
      ensures Valid() && fresh(bird) && fresh(appearance)
      ensures this.sizes == sizes
      ensures bird.rect == CenteredAt(900, 400, sizes.bird.0, sizes.bird.1) && !bird.waitSkill
      ensures appearance.State() == AppearStart
      ensures score == 0 && levelSave == 0 && tmr == 0 && beamTimer == 0 && beamSpan == 0 && itemCount == 0
      ensures xbeam == 1.0 && spawnDirections == 4 && enemiesPerSpawn == 3 && lastEnemyIncrease == 0
      ensures emys == [] && cemys == [] && beams == [] && bossBeams == [] && items == [] && gravityItems == []
      ensures exps == [] && gravities == [] && drns == [] && balls == [] && lastClown == None
    {
      this.sizes := sizes;
      bird := new Bird(900, 400, sizes.bird.0, sizes.bird.1);
      appearance := new Appearance();
      score, levelSave, tmr := 0, 0, 0;
      beamTimer, beamSpan, itemCount := 0, 0, 0;
      xbeam := 1.0;
      spawnDirections, enemiesPerSpawn, lastEnemyIncrease := 4, 3, 0;
      emys, cemys, beams, bossBeams, items, gravityItems := [], [], [], [], [], [];
      exps, gravities, drns, balls := [], [], [], [];
      lastClown := None;
    }

    /** The rectangle of a companion of size `sz` launched from the player's centre. */
    function Launch(sz: (nat, nat)): Rect
      reads this, bird
    {
      CenteredAt(bird.rect.CenterX(), bird.rect.CenterY(), sz.0, sz.1)
    }

    /** The ramp's counters `(enemies per spawn, spawn directions, last increase)`. */
    function Counters(): (int, int, int)
      reads this`enemiesPerSpawn, this`spawnDirections, this`lastEnemyIncrease
    {
      (enemiesPerSpawn, spawnDirections, lastEnemyIncrease)
    }

    /** What `Play` leaves on a frame that reaches it, from the state before it: the
        auto-fire timer and the ramp have run; a clown, an item, a gravity item and
        the boss's fan have been added when due; the enemy due and the beam fired
        have joined their groups; the player is defeated exactly when touching an
        enemy or a clown, and then nothing else happens; otherwise the beams have hit
        the enemies as `groupcollide` does, and the frame pauses exactly when a skill
        choice is pending. */
    twostate predicate Played(f: Frame, stop: Option<Outcome>)
      reads this, bird, appearance, appearance.boss, exps
    {
      var spawned := old(emys) + SpawnIf(EnemyDue(tmr, appearance.bossAppeared), f.enemyAt, sizes.enemy);
      var fired := old(beams) + SpawnIf(Autofire(old(beamTimer), old(beamSpan)).2, (bird.rect.CenterX(), bird.rect.CenterY()), sizes.beam);
      && beamTimer == Autofire(old(beamTimer), old(beamSpan)).0
      && Counters() == RampStep(old(Counters()), tmr, appearance.bossAppeared)
      && cemys == old(cemys) + SpawnIf(ClownDue(tmr, appearance.bossAppeared), ClownCorner(f.clownAt.0, f.clownAt.1), sizes.clown)
      && items == old(items) + SpawnIf(ItemDue(tmr), f.itemAt, sizes.item)
      && gravityItems == old(gravityItems) + SpawnIf(GravityItemDue(tmr), f.gravityItemAt, sizes.gravityItem)
      && bossBeams == old(bossBeams) + BossVolley(tmr, appearance.State(), f.fanBase, sizes.bossBeamBox)
      && (stop == Some(Defeated) <==> HitsAny(bird.rect, spawned) || HitsAny(bird.rect, cemys))
      && Fought(spawned, fired, stop)
    }

    /** What the contact test and `groupcollide(emys, beams, True, True)` leave, from
        the enemies and beams they start with: on a defeat nothing changes; otherwise
        the groups are what `Consume` leaves, the counters take one `BeamKill` step per
        kill, an explosion is appended at each killed enemy, and the frame pauses
        exactly when a skill choice is then pending. */
    twostate predicate Fought(targets: seq<Rect>, shots: seq<Rect>, stop: Option<Outcome>)
      reads this, bird, exps
    {
      && (stop == Some(Defeated) ==>
            && emys == targets && beams == shots
            && Progress(score, levelSave, bird.waitSkill) == old(Progress(score, levelSave, bird.waitSkill)))
      && (stop != Some(Defeated) ==>
            var (spared, killed, left) := Consume(targets, shots);
            && emys == spared && beams == left
            && Progress(score, levelSave, bird.waitSkill) == BeamKills(old(Progress(score, levelSave, bird.waitSkill)), |killed|)
            && |exps| == |old(exps)| + |killed| && exps[..|old(exps)|] == old(exps)
            && NewExplosions(exps[|old(exps)|..], Centres(killed)))
      && (stop == Some(Paused) <==> stop != Some(Defeated) && bird.waitSkill)
    }

    /** Key 1 at the skill screen: `drns.add(Durian(bird))` and the choice ends. */
    method AddDurian()
      requires Valid()
      modifies this`drns, bird`waitSkill
      ensures Valid() && !bird.waitSkill
      ensures |drns| == |old(drns)| + 1 && drns[..|old(drns)|] == old(drns) && fresh(drns[|old(drns)|])
      ensures !drns[|old(drns)|].hasDamagedBoss && drns[|old(drns)|].State() == Motion(Launch(sizes.durian), 1, 1)
    {
      var d := new Durian(bird.rect.CenterX(), bird.rect.CenterY(), sizes.durian.0, sizes.durian.1);
      drns := drns + [d];
      bird.waitSkill := false;
    }

    /** Key 2 at the skill screen: `balls.add(Soccerball(bird))` and the choice ends. */
    method AddBall()
      requires Valid()
      modifies this`balls, bird`waitSkill
      ensures Valid() && !bird.waitSkill
      ensures |balls| == |old(balls)| + 1 && balls[..|old(balls)|] == old(balls) && fresh(balls[|old(balls)|])
      ensures balls[|old(balls)|].State() == Motion(Launch(sizes.ball), 1, 1)
    {
      var b := new Soccerball(bird.rect.CenterX(), bird.rect.CenterY(), sizes.ball.0, sizes.ball.1);
      balls := balls + [b];
      bird.waitSkill := false;
    }

    /** One event other than quit at the skill screen: key 1 adds a durian, key 2 a
        soccer ball, either ends the choice; otherwise nothing happens. */
    method ChooseSkill(e: Event)
      requires Valid() && e != QuitEvent
      modifies this`drns, this`balls, bird`waitSkill
      ensures Valid()
      ensures var r := EventStep(EventResult(false, old(bird.waitSkill), None), e);
        && bird.waitSkill == r.wait
        && (if r.chosen == Some(DurianSkill) then |drns| == |old(drns)| + 1 else drns == old(drns))
        && (if r.chosen == Some(BallSkill) then |balls| == |old(balls)| + 1 else balls == old(balls))
      ensures drns[..|old(drns)|] == old(drns) && balls[..|old(balls)|] == old(balls)
      ensures forall j :: |old(drns)| <= j < |drns| ==>
        fresh(drns[j]) && !drns[j].hasDamagedBoss && drns[j].State() == Motion(Launch(sizes.durian), 1, 1)
      ensures forall j :: |old(balls)| <= j < |balls| ==>
        fresh(balls[j]) && balls[j].State() == Motion(Launch(sizes.ball), 1, 1)
    {
      if bird.waitSkill {
        if e == Key1 {
          AddDurian();
        }
        if e == Key2 {
          AddBall();
        }
      }
    }

    /** The event loop: a quit event ends the game; while a skill choice is pending,
        key 1 adds a durian and key 2 a soccer ball at the player and end the choice. */
    method HandleEvents(events: seq<Event>) returns (quit: bool)
      requires Valid()
      modifies this`drns, this`balls, bird`waitSkill
      ensures Valid()
      ensures var r := Events(old(bird.waitSkill), events);
        && quit == r.quit
        && (!quit ==> bird.waitSkill == r.wait)
        && |drns| == |old(drns)| + (if r.chosen == Some(DurianSkill) then 1 else 0) && drns[..|old(drns)|] == old(drns)
        && |balls| == |old(balls)| + (if r.chosen == Some(BallSkill) then 1 else 0) && balls[..|old(balls)|] == old(balls)
      ensures forall j :: |old(drns)| <= j < |drns| ==>
        fresh(drns[j]) && !drns[j].hasDamagedBoss && drns[j].State() == Motion(Launch(sizes.durian), 1, 1)
      ensures forall j :: |old(balls)| <= j < |balls| ==>
        fresh(balls[j]) && balls[j].State() == Motion(Launch(sizes.ball), 1, 1)
      ensures quit <==> QuitEvent in events
      ensures fresh(set d | d in drns && d !in old(drns))
      ensures fresh(set b | b in balls && b !in old(balls))
    {
      ghost var wait0 := bird.waitSkill;
      ghost var r := EventResult(false, wait0, None);
      quit := false;
      var i := 0;
      while i < |events|
        invariant 0 <= i <= |events|
        invariant Valid() && !quit
        invariant r == Events(wait0, events[..i]) && !r.quit && bird.waitSkill == r.wait
        invariant r.wait ==> r.chosen == None
        invariant |drns| == |old(drns)| + (if r.chosen == Some(DurianSkill) then 1 else 0) && drns[..|old(drns)|] == old(drns)
        invariant |balls| == |old(balls)| + (if r.chosen == Some(BallSkill) then 1 else 0) && balls[..|old(balls)|] == old(balls)
        invariant forall j :: |old(drns)| <= j < |drns| ==>
          fresh(drns[j]) && !drns[j].hasDamagedBoss && drns[j].State() == Motion(Launch(sizes.durian), 1, 1)
        invariant forall j :: |old(balls)| <= j < |balls| ==>
          fresh(balls[j]) && balls[j].State() == Motion(Launch(sizes.ball), 1, 1)
      {
        assert events[..i + 1][..i] == events[..i];
        var e := events[i];
        if e == QuitEvent {
          r := EventStep(r, e);
          QuitSticks(wait0, events, i + 1);
          quit := true;
          break;
        }
        ChooseSkill(e);
        r := EventStep(r, e);
        i := i + 1;
      }
      if !quit {
        assert events[..|events|] == events;
      }
      EventsChooseOnce(wait0, events);
    }

    /** Auto-fire: the clamped span sets the interval; a beam fired from the player's
        centre resets the timer. */
    method FireTimer()
      requires Valid()
      modifies this`beamTimer, this`beamSpan, this`beams
      ensures Valid()
      ensures var (t, span, fire) := Autofire(old(beamTimer), old(beamSpan));
        && beamTimer == t && beamSpan == span
        && beams == old(beams) + SpawnIf(fire, (bird.rect.CenterX(), bird.rect.CenterY()), sizes.beam)
    {
      beamTimer := beamTimer + 1;
      if beamSpan >= MaxBeamSpan {
        beamSpan := MaxBeamSpan;
      }
      if beamTimer % (30 - beamSpan) == 0 {
        beams := beams + [CenteredAt(bird.rect.CenterX(), bird.rect.CenterY(), sizes.beam.0, sizes.beam.1)];
        beamTimer := 0;
      }
    }

    /** The difficulty ramp: every five seconds before the boss, two more spawn
        directions and a hundred more (unused) enemies per spawn. */
    method Ramp()
      requires Valid()
      modifies this`enemiesPerSpawn, this`spawnDirections, this`lastEnemyIncrease
      ensures Valid()
      ensures if RampDue(tmr, old(lastEnemyIncrease), appearance.bossAppeared) then
          enemiesPerSpawn == old(enemiesPerSpawn) + 100 && spawnDirections == old(spawnDirections) + 2
          && lastEnemyIncrease == tmr / 50
        else
          enemiesPerSpawn == old(enemiesPerSpawn) && spawnDirections == old(spawnDirections)
          && lastEnemyIncrease == old(lastEnemyIncrease)
      ensures Counters() == RampStep(old(Counters()), tmr, appearance.bossAppeared)
    {
      var currentTime := tmr / 50;
      if currentTime - lastEnemyIncrease >= 5 && !appearance.bossAppeared {
        enemiesPerSpawn := enemiesPerSpawn + 100;
        spawnDirections := spawnDirections + 2;
        lastEnemyIncrease := currentTime;
      }
    }

    /** The timed enemy spawns: an ordinary enemy every 20 frames and a clown, snapped to
        the corner on its side of the screen, every 100 frames, both only before the boss. */
    method SpawnEnemies(f: Frame)
      requires Valid()
      modifies this`emys, this`cemys
      ensures Valid()
      ensures emys == old(emys) + SpawnIf(EnemyDue(tmr, appearance.bossAppeared), f.enemyAt, sizes.enemy)
      ensures cemys == old(cemys) + SpawnIf(ClownDue(tmr, appearance.bossAppeared), ClownCorner(f.clownAt.0, f.clownAt.1), sizes.clown)
    {
      if tmr % 20 == 0 && !appearance.bossAppeared {
        emys := emys + [CenteredAt(f.enemyAt.0, f.enemyAt.1, sizes.enemy.0, sizes.enemy.1)];
      }
      if tmr % 100 == 0 && !appearance.bossAppeared {
        var c := ClownCorner(f.clownAt.0, f.clownAt.1);
        cemys := cemys + [CenteredAt(c.0, c.1, sizes.clown.0, sizes.clown.1)];
      }
    }

    /** The timed item spawns: a power-up every 100 frames and a gravity item every 1000,
        neither on frame 0. */
    method SpawnItems(f: Frame)
      requires Valid()
      modifies this`items, this`gravityItems
      ensures Valid()
      ensures items == old(items) + SpawnIf(ItemDue(tmr), f.itemAt, sizes.item)
      ensures gravityItems == old(gravityItems) + SpawnIf(GravityItemDue(tmr), f.gravityItemAt, sizes.gravityItem)
    {
      if tmr != 0 {
        if tmr % 100 == 0 {
          items := items + [CenteredAt(f.itemAt.0, f.itemAt.1, sizes.item.0, sizes.item.1)];
        }
      }
      if tmr != 0 {
        if tmr % 1000 == 0 {
          gravityItems := gravityItems + [CenteredAt(f.gravityItemAt.0, f.gravityItemAt.1, sizes.gravityItem.0, sizes.gravityItem.1)];
        }
      }
    }

    /** Once the boss is in, every 100 frames `NeoBeam(boss, 3).gen_beams()` adds three
        boss beams at the boss's centre (their headings, spread over 100 degrees around
        the random base angle, only steer them). */
    method BossFan(f: Frame)
      requires Valid()
      modifies this`bossBeams
      ensures Valid()
      ensures bossBeams == old(bossBeams) + BossVolley(tmr, appearance.State(), f.fanBase, sizes.bossBeamBox)
      ensures BossFanDue(tmr, appearance.bossAppeared) ==>
        && |bossBeams| == |old(bossBeams)| + 3
        && forall i :: 0 <= i < 3 ==>
             var box := sizes.bossBeamBox(f.fanBase as real + Spread(3, i));
             bossBeams[|old(bossBeams)| + i] == CenteredAt(appearance.boss.rect.CenterX(), appearance.boss.rect.CenterY(), box.0, box.1)
    {
      if tmr % 100 == 0 && appearance.bossAppeared {
        var angles := GenBeams(f.fanBase as real, 3);
        bossBeams := bossBeams + Shots(appearance.boss.rect.CenterX(), appearance.boss.rect.CenterY(), sizes.bossBeamBox, angles);
      }
    }

    /** `exps.add(Explosion(obj, 100))` for a sprite centred at `c`. */
    method AddExplosion(c: (int, int))
      requires Valid()
      modifies this`exps
      ensures Valid()
      ensures |exps| == |old(exps)| + 1 && exps == old(exps) + [exps[|old(exps)|]]
      ensures var e := exps[|old(exps)|]; fresh(e) && e.life == 100 && (e.cx, e.cy) == c
    {
      var e := new Explosion(c.0, c.1, 100);
      exps := exps + [e];
    }

    /** The scoring part of a beam kill: ten points, and when the score's level
        passes `level_save`, a pending skill choice and the new level saved. */
    method BeamKillScore()
      requires Valid()
      modifies this`score, this`levelSave, bird`waitSkill
      ensures Valid()
      ensures Progress(score, levelSave, bird.waitSkill) == BeamKill(old(Progress(score, levelSave, bird.waitSkill)))
    {
      score := score + BeamKillPoints;
      LevelMonotone(score - BeamKillPoints, score);
      if Level(score) > levelSave {
        bird.waitSkill := true;
        levelSave := Level(score);
      }
    }

    /** The body of a beam-kill loop, once per centre: an explosion there, ten points,
        and a skill choice when the score enters a level above `level_save`. */
    method RecordBeamKills(centres: seq<(int, int)>)
      requires Valid()
      modifies this`exps, this`score, this`levelSave, bird`waitSkill
      ensures Valid()
      ensures Progress(score, levelSave, bird.waitSkill) == BeamKills(old(Progress(score, levelSave, bird.waitSkill)), |centres|)
      ensures score >= old(score) && levelSave >= old(levelSave)
      ensures |exps| == |old(exps)| + |centres| && exps[..|old(exps)|] == old(exps)
      ensures NewExplosions(exps[|old(exps)|..], centres)
      ensures fresh(set e | e in exps && e !in old(exps))
    {
      ghost var p0 := Progress(score, levelSave, bird.waitSkill);
      ghost var added: seq<Explosion> := [];
      var i := 0;
      while i < |centres|
        invariant 0 <= i <= |centres|
        invariant Valid()
        invariant Progress(score, levelSave, bird.waitSkill) == BeamKills(p0, i)
        invariant score >= old(score) && levelSave >= old(levelSave)
        invariant exps == old(exps) + added && |added| == i
        invariant forall j :: 0 <= j < i ==>
          fresh(added[j]) && added[j].life == 100 && (added[j].cx, added[j].cy) == centres[j]
      {
        AddExplosion(centres[i]);
        added := added + [exps[|exps| - 1]];
        BeamKillScore();
        i := i + 1;
      }
      assert exps[..|old(exps)|] == old(exps) && exps[|old(exps)|..] == added;
    }

    /** The body of a companion- or gravity-kill loop, once per centre: an explosion
        there and `points` points, without the skill check. */
    method RecordKills(centres: seq<(int, int)>, points: nat)
      requires Valid()
      modifies this`exps, this`score
      ensures Valid()
      ensures score == old(score) + points * |centres|
      ensures |exps| == |old(exps)| + |centres| && exps[..|old(exps)|] == old(exps)
      ensures NewExplosions(exps[|old(exps)|..], centres)
      ensures fresh(set e | e in exps && e !in old(exps))
    {
      ghost var added: seq<Explosion> := [];
      var i := 0;
      while i < |centres|
        invariant 0 <= i <= |centres|
        invariant Valid()
        invariant score == old(score) + points * i
        invariant exps == old(exps) + added && |added| == i
        invariant forall j :: 0 <= j < i ==>
          fresh(added[j]) && added[j].life == 100 && (added[j].cx, added[j].cy) == centres[j]
      {
        AddExplosion(centres[i]);
        added := added + [exps[|exps| - 1]];
        score := score + points;
        assert points * (i + 1) == points * i + points;
        LevelMonotone(score - points, score);
        i := i + 1;
      }
      assert exps[..|old(exps)|] == old(exps) && exps[|old(exps)|..] == added;
    }

    /** `balls.update(group)`: every ball bounces off the walls and the group. */
    method BallsBounce(group: seq<Rect>)
      requires Valid()
      modifies balls
      ensures Valid()
      ensures forall i :: 0 <= i < |balls| ==>
        var w := BallWallStep(old(balls[i].State()));
        balls[i].rect == w.rect && balls[i].vy == w.vy &&
        balls[i].vx == FlipTimes(w.vx, CountOverlapping(balls[i].rect, group))
    {
      var i := 0;
      while i < |balls|
        invariant 0 <= i <= |balls|
        invariant Valid()
        invariant forall j :: 0 <= j < i ==>
          var w := BallWallStep(old(balls[j].State()));
          balls[j].rect == w.rect && balls[j].vy == w.vy &&
          balls[j].vx == FlipTimes(w.vx, CountOverlapping(balls[j].rect, group))
        invariant forall j :: i <= j < |balls| ==> balls[j].State() == old(balls[j].State())
      {
        assert forall j :: 0 <= j < |balls| && j != i ==> balls[j] != balls[i];
        balls[i].Update(group);
        i := i + 1;
      }
    }

    /** Power-up pickups: each item the player touches is removed and counted. */
    method PickItems(touched: nat)
      requires Valid()
      modifies this`itemCount, this`beamSpan, this`xbeam, this`score
      ensures Valid()
      ensures Items(itemCount, beamSpan, xbeam, score) == Pickups(old(Items(itemCount, beamSpan, xbeam, score)), touched)
      ensures score >= old(score)
    {
      ghost var it0 := Items(itemCount, beamSpan, xbeam, score);
      var i := 0;
      while i < touched
        invariant 0 <= i <= touched
        invariant Items(itemCount, beamSpan, xbeam, score) == Pickups(it0, i)
      {
        xbeam := xbeam + 0.2;
        score := score + BeamKillPoints;
        itemCount := itemCount + 1;
        if itemCount % 2 == 0 {
          beamSpan := beamSpan + 1;
        }
        i := i + 1;
      }
      PickupsKeepSpan(it0, touched);
      PickupsClosedForm(it0, touched);
      LevelMonotone(old(score), score);
    }

    /** Gravity-item pickups: each starts an 80-frame gravity field and, once the boss
        is in, takes 20 health from it. */
    method PickGravityItems(touched: nat)
      requires Valid()
      modifies this`gravities, appearance.boss
      ensures Valid()
      ensures |gravities| == |old(gravities)| + touched && gravities[..|old(gravities)|] == old(gravities)
      ensures forall i :: |old(gravities)| <= i < |gravities| ==> fresh(gravities[i]) && gravities[i].life == 80
      ensures appearance.bossAppeared ==>
        appearance.boss.State() == old(appearance.boss.State()).(health := old(appearance.boss.health) - 20 * touched)
      ensures fresh(set g | g in gravities && g !in old(gravities))
    {
      var i := 0;
      while i < touched
        invariant 0 <= i <= touched
        invariant Valid()
        invariant |gravities| == |old(gravities)| + i && gravities[..|old(gravities)|] == old(gravities)
        invariant forall j :: |old(gravities)| <= j < |gravities| ==> fresh(gravities[j]) && gravities[j].life == 80
        invariant appearance.bossAppeared ==>
          appearance.boss.State() == old(appearance.boss.State()).(health := old(appearance.boss.health) - 20 * i)
      {
        var g := new Gravity(80);
        gravities := gravities + [g];
        if appearance.bossAppeared {
          appearance.boss.Hit(20);
        }
        i := i + 1;
      }
    }

    /** Beams against the ordinary enemies (`groupcollide(emys, beams, True, True)`):
        each enemy hit dies and uses up the beams it touches; each kill scores as a
        beam kill and leaves an explosion at the enemy's centre. */
    method BeamsHitEnemies()
      requires Valid()
      modifies this`emys, this`beams, this`exps, this`score, this`levelSave, bird`waitSkill
      ensures Valid()
      ensures var (spared, killed, left) := Consume(old(emys), old(beams));
        && emys == spared && beams == left
        && Progress(score, levelSave, bird.waitSkill) == BeamKills(old(Progress(score, levelSave, bird.waitSkill)), |killed|)
        && |exps| == |old(exps)| + |killed| && exps[..|old(exps)|] == old(exps)
        && NewExplosions(exps[|old(exps)|..], Centres(killed))
      ensures score >= old(score) && levelSave >= old(levelSave) && |emys| <= |old(emys)|
      ensures fresh(set e | e in exps && e !in old(exps))
    {
      var (spared, killed, left) := Consume(emys, beams);
      ConsumeShrinks(emys, beams);
      emys, beams := spared, left;
      RecordBeamKills(Centres(killed));
    }

    /** Beams against the clowns (`groupcollide(cemys, beams, True, True)`), scored
        like enemy kills; the loop variable is left bound to the last clown killed. */
    method BeamsHitClowns()
      requires Valid()
      modifies this`cemys, this`beams, this`exps, this`score, this`levelSave, bird`waitSkill, this`lastClown
      ensures Valid()
      ensures var c := Consume(old(cemys), old(beams));
        && cemys == c.0 && beams == c.2
        && Progress(score, levelSave, bird.waitSkill) == BeamKills(old(Progress(score, levelSave, bird.waitSkill)), |c.1|)
        && |exps| == |old(exps)| + |c.1| && exps[..|old(exps)|] == old(exps)
        && NewExplosions(exps[|old(exps)|..], Centres(c.1))
        && lastClown == LastBound(c.1, old(lastClown))
      ensures score >= old(score) && levelSave >= old(levelSave) && |cemys| <= |old(cemys)|
      ensures fresh(set e | e in exps && e !in old(exps))
    {
      var killed := ConsumeClowns();
      RecordBeamKills(Centres(killed));
    }

    /** The group side of `groupcollide(cemys, beams, True, True)`: the clowns and
        beams that collide both go, and the last clown killed is remembered. */
    method ConsumeClowns() returns (killed: seq<Rect>)
      requires Valid()
      modifies this`cemys, this`beams, this`lastClown
      ensures Valid()
      ensures var c := Consume(old(cemys), old(beams));
        cemys == c.0 && beams == c.2 && killed == c.1 && lastClown == LastBound(c.1, old(lastClown))
      ensures |cemys| <= |old(cemys)|
    {
      var c := Consume(cemys, beams);
      ConsumeShrinks(cemys, beams);
      cemys, beams, killed := c.0, c.2, c.1;
      lastClown := LastBound(killed, lastClown);
    }

    /** `groupcollide(emys, hazards, True, False)` for companions or gravity fields:
        the enemies touching a hazard die, each with an explosion at its centre and
        `points` points; the hazards stay. */
    method StrikeEnemies(hazards: seq<Rect>, points: nat)
      requires Valid()
      modifies this`emys, this`exps, this`score
      ensures Valid()
      ensures var struck := Struck(old(emys), hazards);
        && emys == Spared(old(emys), hazards)
        && score == old(score) + points * |struck|
        && |exps| == |old(exps)| + |struck| && exps[..|old(exps)|] == old(exps)
        && NewExplosions(exps[|old(exps)|..], Centres(struck))
      ensures |emys| <= |old(emys)|
      ensures fresh(set e | e in exps && e !in old(exps))
    {
      var struck := Struck(emys, hazards);
      StrikePartition(emys, hazards);
      emys := Spared(emys, hazards);
      RecordKills(Centres(struck), points);
    }

    /** `groupcollide(cemys, gravities, True, False)`: the clowns inside a gravity field
        die like enemies, and the loop variable is left bound to the last one. */
    method StrikeClowns(hazards: seq<Rect>, points: nat)
      requires Valid()
      modifies this`cemys, this`exps, this`score, this`lastClown
      ensures Valid()
      ensures var struck := Struck(old(cemys), hazards);
        && cemys == Spared(old(cemys), hazards)
        && score == old(score) + points * |struck|
        && |exps| == |old(exps)| + |struck| && exps[..|old(exps)|] == old(exps)
        && NewExplosions(exps[|old(exps)|..], Centres(struck))
        && lastClown == LastBound(struck, old(lastClown))
      ensures |cemys| <= |old(cemys)|
      ensures fresh(set e | e in exps && e !in old(exps))
    {
      var struck := Struck(cemys, hazards);
      StrikePartition(cemys, hazards);
      cemys := Spared(cemys, hazards);
      lastClown := LastBound(struck, lastClown);
      RecordKills(Centres(struck), points);
    }

    /** `groupcollide(cemys, drns or balls, True, False)` with the explosion placed at
        `cemy`, a name this loop does not bind: every explosion goes to the clown the
        last beam or gravity loop left bound, and with no such clown yet the first
        kill crashes the game. */
    method StrikeClownsStale(hazards: seq<Rect>) returns (crashed: bool)
      requires Valid()
      modifies this`cemys, this`exps, this`score
      ensures Valid()
      ensures var struck := Struck(old(cemys), hazards);
        && cemys == Spared(old(cemys), hazards)
        && (crashed <==> struck != [] && lastClown == None)
        && (!crashed ==>
             && score == old(score) + CompanionKillPoints * |struck|
             && |exps| == |old(exps)| + |struck| && exps[..|old(exps)|] == old(exps)
             && NewExplosions(exps[|old(exps)|..], StaleCentres(|struck|, lastClown)))
      ensures score >= old(score) && |cemys| <= |old(cemys)|
      ensures fresh(set e | e in exps && e !in old(exps))
    {
      var struck := Struck(cemys, hazards);
      StrikePartition(cemys, hazards);
      cemys := Spared(cemys, hazards);
      crashed := false;
      if struck != [] {
        match lastClown
        case None =>
          crashed := true;
        case Some(c) =>
          RecordKills(StaleCentres(|struck|, lastClown), CompanionKillPoints);
      }
    }

    /** The beams loop of the boss block: every beam touching the boss is removed and
        takes one health point. */
    method BeamsHitBoss()
      requires Valid() && appearance.boss != null
      modifies this`beams, appearance.boss
      ensures Valid()
      ensures beams == Untouched(appearance.boss.rect, old(beams))
      ensures appearance.boss.State() ==
        old(appearance.boss.State()).(health := old(appearance.boss.health) - |Touching(appearance.boss.rect, old(beams))|)
    {
      var hits := Touching(appearance.boss.rect, beams);
      beams := Untouched(appearance.boss.rect, beams);
      appearance.boss.Hit(|hits|);
    }

    /** The durians loop of the boss block: a durian touching the boss takes one health
        point only on the first frame of the contact, and its flag records whether it
        touches the boss now. */
    method DuriansHitBoss()
      requires Valid() && appearance.boss != null
      modifies drns`hasDamagedBoss, appearance.boss`health
      ensures Valid()
      ensures appearance.boss.State() ==
        old(appearance.boss.State()).(health := old(appearance.boss.health) - old(FreshContacts(appearance.boss.rect, drns)))
      ensures forall i :: 0 <= i < |drns| ==>
        drns[i].State() == old(drns[i].State()) && drns[i].hasDamagedBoss == Overlaps(appearance.boss.rect, drns[i].rect)
    {
      var boss := appearance.boss;
      var i := 0;
      while i < |drns|
        invariant 0 <= i <= |drns|
        invariant boss.State() == old(boss.State()).(health := old(boss.health) - old(FreshContacts(boss.rect, drns[..i])))
        invariant forall j :: 0 <= j < i ==> drns[j].hasDamagedBoss == Overlaps(boss.rect, drns[j].rect)
        invariant forall j :: i <= j < |drns| ==> drns[j].hasDamagedBoss == old(drns[j].hasDamagedBoss)
      {
        assert drns[..i + 1][..i] == drns[..i];
        assert forall j :: 0 <= j < |drns| && j != i ==> drns[j] != drns[i];
        var d := drns[i];
        if Overlaps(boss.rect, d.rect) {
          if !d.hasDamagedBoss {
            boss.Hit(1);
            d.hasDamagedBoss := true;
          }
        } else {
          d.hasDamagedBoss := false;
        }
        i := i + 1;
      }
      assert drns[..|drns|] == drns;
    }

    /** The soccer balls loop of the boss block: every ball touching the boss bounces
        off it and takes one health point. */
    method BallsHitBoss()
      requires Valid() && appearance.boss != null
      modifies balls`vx, balls`vy, appearance.boss`health
      ensures Valid()
      ensures appearance.boss.State() ==
        old(appearance.boss.State()).(health := old(appearance.boss.health) - old(BallContacts(appearance.boss.rect, balls)))
      ensures forall i :: 0 <= i < |balls| ==> balls[i].State() == BossBounce(old(balls[i].State()), appearance.boss.rect)
    {
      BallsBounceOffBoss(balls, appearance.boss);
    }

    /** The boss's own update at the end of the boss block: it moves and may be
        defeated, its explosion joins the others, and `exit` ends the game. */
    method BossUpdate(clearElapsed: bool) returns (exit: bool)
      requires Valid() && appearance.boss != null
      modifies this`exps, appearance.boss
      ensures Valid()
      ensures var (s, explode) := BossStep(old(appearance.boss.State()));
        && appearance.boss.State() == s
        && |exps| == |old(exps)| + (if explode then 1 else 0) && exps[..|old(exps)|] == old(exps)
        && NewExplosions(exps[|old(exps)|..], if explode then [(s.rect.CenterX(), s.rect.CenterY())] else [])
      ensures exit == (old(appearance.boss.defeated) && clearElapsed)
      ensures fresh(set e | e in exps && e !in old(exps))
    {
      var exp;
      exp, exit := appearance.boss.Update(clearElapsed);
      if exp != null {
        exps := exps + [exp];
        assert exps[|old(exps)|..] == [exp];
      }
    }

    /** `exps.update()`: every explosion counts down and those whose lifetime went
        negative leave the group. */
    method UpdateExplosions()
      requires Valid()
      modifies this`exps, exps
      ensures Valid()
      ensures forall i :: 0 <= i < |old(exps)| ==>
        old(exps)[i].life == old(exps[i].life) - 1 && old(exps)[i].image == ImageIndex(old(exps)[i].life)
      ensures exps == Survivors(old(exps), old(ExpLives(exps)))
    {
      exps := CountDownExplosions(exps);
    }

    /** `gravities.update()`: every field counts down and those whose lifetime went
        negative leave the group. */
    method UpdateGravities()
      requires Valid()
      modifies this`gravities, gravities
      ensures Valid()
      ensures forall i :: 0 <= i < |old(gravities)| ==> old(gravities)[i].life == old(gravities[i].life) - 1
      ensures gravities == Survivors(old(gravities), old(GravLives(gravities)))
    {
      gravities := CountDownGravities(gravities);
    }

    /** `drns.update()`: every durian takes its bouncing step. */
    method UpdateDurians()
      requires Valid()
      modifies drns
      ensures Valid()
      ensures forall i :: 0 <= i < |drns| ==>
        drns[i].State() == DurianStep(old(drns[i].State())) && drns[i].hasDamagedBoss == old(drns[i].hasDamagedBoss)
    {
      var i := 0;
      while i < |drns|
        invariant 0 <= i <= |drns|
        invariant forall j :: 0 <= j < i ==> drns[j].State() == DurianStep(old(drns[j].State()))
        invariant forall j :: i <= j < |drns| ==> drns[j].State() == old(drns[j].State())
        invariant forall j :: 0 <= j < |drns| ==> drns[j].hasDamagedBoss == old(drns[j].hasDamagedBoss)
      {
        assert forall j :: 0 <= j < |drns| && j != i ==> drns[j] != drns[i];
        drns[i].Update();
        i := i + 1;
      }
    }

    /** The durians strike the enemies and then the clowns (whose explosions go to
        the stale clown). */
    method DuriansStrike() returns (crashed: bool)
      requires Valid()
      modifies this`emys, this`cemys, this`exps, this`score
      ensures Valid()
      ensures crashed ==> lastClown == None
      ensures score >= old(score) && |emys| <= |old(emys)| && |cemys| <= |old(cemys)|
      ensures fresh(set e | e in exps && e !in old(exps))
    {
      StrikeEnemies(DurianRects(drns), CompanionKillPoints);
      crashed := StrikeClownsStale(DurianRects(drns));
    }

    /** The soccer balls bounce off the enemies and the clowns, then strike both. */
    method BallsStrike() returns (crashed: bool)
      requires Valid()
      modifies this`emys, this`cemys, this`exps, this`score, balls
      ensures Valid()
      ensures crashed ==> lastClown == None
      ensures score >= old(score) && |emys| <= |old(emys)| && |cemys| <= |old(cemys)|
      ensures fresh(set e | e in exps && e !in old(exps))
    {
      BallsBounce(emys);
      BallsBounce(cemys);
      StrikeEnemies(BallRects(balls), CompanionKillPoints);
      crashed := StrikeClownsStale(BallRects(balls));
    }

    /** The beams hit the clowns, then the gravity fields strike enemies and clowns. */
    method BeamsAndFields()
      requires Valid()
      modifies this`emys, this`cemys, this`beams, this`exps, this`score, this`levelSave, bird`waitSkill, this`lastClown
      ensures Valid()
      ensures score >= old(score) && levelSave >= old(levelSave)
      ensures |emys| <= |old(emys)| && |cemys| <= |old(cemys)|
      ensures fresh(set e | e in exps && e !in old(exps))
    {
      BeamsHitClowns();
      FieldsStrike();
    }

    /** The gravity fields' loop: the enemies, then the clowns, inside a field die for
        `GravityKillPoints` each. */
    method FieldsStrike()
      requires Valid()
      modifies this`emys, this`cemys, this`exps, this`score, this`lastClown
      ensures Valid()
      ensures emys == Spared(old(emys), FieldRects(|gravities|)) && cemys == Spared(old(cemys), FieldRects(|gravities|))
      ensures score == old(score) + GravityKillPoints * (|Struck(old(emys), FieldRects(|gravities|))| + |Struck(old(cemys), FieldRects(|gravities|))|)
      ensures lastClown == LastBound(Struck(old(cemys), FieldRects(|gravities|)), old(lastClown))
      ensures |emys| <= |old(emys)| && |cemys| <= |old(cemys)|
      ensures fresh(set e | e in exps && e !in old(exps))
    {
      StrikeEnemies(FieldRects(|gravities|), GravityKillPoints);
      StrikeClowns(FieldRects(|gravities|), GravityKillPoints);
    }

    /** The companions' and gravity fields' part of the frame, in the loop's order.
        A companion's clown kill before any clown was bound crashes the game. */
    method CompanionsFight() returns (crashed: bool)
      requires Valid()
      modifies this`emys, this`cemys, this`beams, this`exps, this`score, this`levelSave, bird`waitSkill, this`lastClown, balls
      ensures Valid()
      ensures crashed ==> old(lastClown) == None
      ensures score >= old(score) && levelSave >= old(levelSave)
      ensures |emys| <= |old(emys)| && |cemys| <= |old(cemys)|
      ensures fresh(set e | e in exps && e !in old(exps))
    {
      crashed := DuriansStrike();
      if crashed {
        return;
      }
      crashed := BallsStrike();
      if crashed {
        return;
      }
      BeamsAndFields();
    }

    /** The player collects the power-ups it touches (`spritecollide(bird, items, True)`). */
    method CollectItems()
      requires Valid()
      modifies this`items, this`itemCount, this`beamSpan, this`xbeam, this`score
      ensures Valid()
      ensures items == Untouched(bird.rect, old(items))
      ensures Items(itemCount, beamSpan, xbeam, score) ==
        Pickups(old(Items(itemCount, beamSpan, xbeam, score)), |Touching(bird.rect, old(items))|)
      ensures score >= old(score)
    {
      var picked := Touching(bird.rect, items);
      items := Untouched(bird.rect, items);
      PickItems(|picked|);
    }

    /** The player collects the gravity items it touches. */
    method CollectGravityItems()
      requires Valid()
      modifies this`gravityItems, this`gravities, appearance.boss
      ensures Valid()
      ensures gravityItems == Untouched(bird.rect, old(gravityItems))
      ensures |gravities| == |old(gravities)| + |Touching(bird.rect, old(gravityItems))|
      ensures gravities[..|old(gravities)|] == old(gravities)
      ensures forall i :: |old(gravities)| <= i < |gravities| ==> fresh(gravities[i]) && gravities[i].life == 80
      ensures fresh(set g | g in gravities && g !in old(gravities))
      ensures appearance.bossAppeared ==>
        appearance.boss.State() ==
          old(appearance.boss.State()).(health := old(appearance.boss.health) - 20 * |Touching(bird.rect, old(gravityItems))|)
    {
      var grabbed := Touching(bird.rect, gravityItems);
      gravityItems := Untouched(bird.rect, gravityItems);
      PickGravityItems(|grabbed|);
    }

    /** Both pickups, power-ups first. */
    method PickupPhase()
      requires Valid()
      modifies this`items, this`gravityItems, this`itemCount, this`beamSpan, this`xbeam, this`score, this`gravities, appearance.boss
      ensures Valid()
      ensures items == Untouched(bird.rect, old(items)) && gravityItems == Untouched(bird.rect, old(gravityItems))
      ensures fresh(set g | g in gravities && g !in old(gravities))
      ensures score >= old(score)
    {
      CollectItems();
      CollectGravityItems();
    }

    /** The health the boss loses to the three hit loops of the boss block: one per
        touching beam, per fresh durian contact and per touching ball. */
    ghost function BossHitCount(): nat
      requires appearance.boss != null
      reads this, drns, balls, appearance, appearance.boss
    {
      var r := appearance.boss.rect;
      |Touching(r, beams)| + FreshContacts(r, drns) + BallContacts(r, balls)
    }

    /** The three hit loops of the boss block: beams, durians on a fresh contact and
        soccer balls each take one health point from the boss. */
    method BossHits()
      requires Valid() && appearance.boss != null
      modifies this`beams, drns`hasDamagedBoss, balls`vx, balls`vy, appearance.boss
      ensures Valid()
      ensures appearance.boss.State() == old(appearance.boss.State()).(health := old(appearance.boss.health) - old(BossHitCount()))
      ensures beams == Untouched(old(appearance.boss.rect), old(beams))
      ensures forall i :: 0 <= i < |drns| ==>
        drns[i].State() == old(drns[i].State()) && drns[i].hasDamagedBoss == Overlaps(appearance.boss.rect, drns[i].rect)
      ensures forall i :: 0 <= i < |balls| ==> balls[i].State() == BossBounce(old(balls[i].State()), appearance.boss.rect)
    {
      var boss := appearance.boss;
      ghost var fresh0 := FreshContacts(boss.rect, drns);
      ghost var balls0 := BallContacts(boss.rect, balls);
      BeamsHitBoss();
      assert FreshContacts(boss.rect, drns) == fresh0 && BallContacts(boss.rect, balls) == balls0;
      CompanionsHitBoss();
    }

    /** The durians loop, then the soccer balls loop, of the boss block. */
    method CompanionsHitBoss()
      requires Valid() && appearance.boss != null
      modifies drns`hasDamagedBoss, balls`vx, balls`vy, appearance.boss`health
      ensures Valid()
      ensures appearance.boss.State() == old(appearance.boss.State()).(health :=
        old(appearance.boss.health) - old(FreshContacts(appearance.boss.rect, drns)) - old(BallContacts(appearance.boss.rect, balls)))
      ensures forall i :: 0 <= i < |drns| ==>
        drns[i].State() == old(drns[i].State()) && drns[i].hasDamagedBoss == Overlaps(appearance.boss.rect, drns[i].rect)
      ensures forall i :: 0 <= i < |balls| ==> balls[i].State() == BossBounce(old(balls[i].State()), appearance.boss.rect)
    {
      ghost var balls0 := BallContacts(appearance.boss.rect, balls);
      DuriansHitBoss();
      assert BallContacts(appearance.boss.rect, balls) == balls0;
      BallsHitBoss();
    }

    /** The boss block, run while the boss is shown: the hits, then the boss's update. */
    method BossBlock(clearElapsed: bool) returns (exit: bool)
      requires Valid() && appearance.boss != null
      modifies this`beams, drns`hasDamagedBoss, balls`vx, balls`vy, this`exps, appearance.boss
      ensures Valid()
      ensures var s := old(appearance.boss.State());
        var (b, explode) := BossStep(s.(health := s.health - old(BossHitCount())));
        && appearance.boss.State() == b
        && |exps| == |old(exps)| + (if explode then 1 else 0) && exps[..|old(exps)|] == old(exps)
        && NewExplosions(exps[|old(exps)|..], if explode then [(b.rect.CenterX(), b.rect.CenterY())] else [])
      ensures beams == Untouched(old(appearance.boss.rect), old(beams))
      ensures forall i :: 0 <= i < |drns| ==>
        drns[i].State() == old(drns[i].State()) && drns[i].hasDamagedBoss == Overlaps(old(appearance.boss.rect), drns[i].rect)
      ensures forall i :: 0 <= i < |balls| ==> balls[i].State() == BossBounce(old(balls[i].State()), old(appearance.boss.rect))
      ensures exit == (old(appearance.boss.defeated) && clearElapsed)
      ensures exit ==> appearance.boss.defeated
      ensures fresh(set e | e in exps && e !in old(exps))
    {
      BossHits();
      exit := BossUpdateAfterHits(clearElapsed);
    }

    /** `boss.__update__` after the hits; the game ends only through a boss that was
        already defeated. */
    method BossUpdateAfterHits(clearElapsed: bool) returns (exit: bool)
      requires Valid() && appearance.boss != null
      modifies this`exps, appearance.boss
      ensures Valid()
      ensures var (b, explode) := BossStep(old(appearance.boss.State()));
        && appearance.boss.State() == b
        && |exps| == |old(exps)| + (if explode then 1 else 0) && exps[..|old(exps)|] == old(exps)
        && NewExplosions(exps[|old(exps)|..], if explode then [(b.rect.CenterX(), b.rect.CenterY())] else [])
      ensures exit == (old(appearance.boss.defeated) && clearElapsed)
      ensures exit ==> appearance.boss.defeated
      ensures fresh(set e | e in exps && e !in old(exps))
    {
      BossHealthRule(appearance.boss.State());
      exit := BossUpdate(clearElapsed);
    }

    /** The countdowns at the end of the frame: explosions, then gravity fields. */
    method FadeSprites()
      requires Valid()
      modifies this`exps, exps, this`gravities, gravities
      ensures Valid()
      ensures forall i :: 0 <= i < |old(exps)| ==>
        old(exps)[i].life == old(exps[i].life) - 1 && old(exps)[i].image == ImageIndex(old(exps)[i].life)
      ensures exps == Survivors(old(exps), old(ExpLives(exps)))
      ensures forall i :: 0 <= i < |old(gravities)| ==> old(gravities)[i].life == old(gravities[i].life) - 1
      ensures gravities == Survivors(old(gravities), old(GravLives(gravities)))
    {
      UpdateExplosions();
      UpdateGravities();
    }

    /** The sprite-object updates at the end of the frame: explosions and gravity
        fields count down and the durians bounce. */
    method AnimateSprites()
      requires Valid()
      modifies this`exps, exps, this`gravities, gravities, drns
      ensures Valid()
      ensures exps == Survivors(old(exps), old(ExpLives(exps)))
      ensures gravities == Survivors(old(gravities), old(GravLives(gravities)))
      ensures forall i :: 0 <= i < |drns| ==>
        drns[i].State() == DurianStep(old(drns[i].State())) && drns[i].hasDamagedBoss == old(drns[i].hasDamagedBoss)
    {
      FadeSprites();
      UpdateDurians();
    }

    /** The movements at the end of the frame: the player moves, the beams fly and
        the enemies and clowns move. */
    method MovePhase(f: Frame)
      requires Valid()
      modifies bird`rect, bird`dire, this`beams, this`bossBeams, this`emys, this`cemys
      ensures Valid()
      ensures var v := KeyVector(f.pressed);
        var moved := old(bird.rect).Move(bird.speed * v.0, bird.speed * v.1);
        && bird.rect == (if CheckBound(moved) == (true, true) then moved else old(bird.rect))
        && bird.dire == (if v == (0, 0) then old(bird.dire) else v)
      ensures beams == Advance(old(beams), f.beamMoves) && bossBeams == Advance(old(bossBeams), f.bossBeamMoves)
      ensures emys == Shift(old(emys), f.emyMoves) && cemys == Shift(old(cemys), f.cemyMoves)
    {
      bird.Update(f.pressed);
      beams := Advance(beams, f.beamMoves);
      bossBeams := Advance(bossBeams, f.bossBeamMoves);
      emys := Shift(emys, f.emyMoves);
      cemys := Shift(cemys, f.cemyMoves);
    }

    /** `appearance.__update__(screen, emys, cemys)` with the current score: the boss
        may come in, purging every enemy and clown, and a defeated boss may end the game. */
    method AppearPhase(f: Frame) returns (exit: bool)
      requires Valid()
      modifies appearance, appearance.boss, this`emys, this`cemys
      ensures Valid()
      ensures var (a, purge, ex) := AppearStep(old(appearance.State()), score, f.warning, f.appearClearElapsed, sizes.boss.0, sizes.boss.1);
        && appearance.State() == a && exit == ex
        && (if purge then emys == [] && cemys == [] else emys == old(emys) && cemys == old(cemys))
      ensures exit ==> appearance.boss != null && appearance.boss.defeated
    {
      var purge;
      purge, exit := appearance.Update(score, f.warning, f.appearClearElapsed, sizes.boss.0, sizes.boss.1);
      if purge {
        emys, cemys := [], [];
      }
      if exit {
        AppearStepSpec(old(appearance.State()), score, f.warning, f.appearClearElapsed, sizes.boss.0, sizes.boss.1);
        BossHealthRule(old(appearance.State()).boss.state);
      }
    }

    /** The timed part of the frame: auto-fire, the ramp, the spawns and the boss's fan. */
    method Prepare(f: Frame)
      requires Valid()
      modifies this`beamTimer, this`beamSpan, this`beams, this`enemiesPerSpawn, this`spawnDirections,
        this`lastEnemyIncrease, this`emys, this`cemys, this`items, this`gravityItems, this`bossBeams
      ensures Valid()
      ensures var (t, span, fire) := Autofire(old(beamTimer), old(beamSpan));
        && beamTimer == t && beamSpan == span
        && beams == old(beams) + SpawnIf(fire, (bird.rect.CenterX(), bird.rect.CenterY()), sizes.beam)
      ensures Counters() == RampStep(old(Counters()), tmr, appearance.bossAppeared)
      ensures emys == old(emys) + SpawnIf(EnemyDue(tmr, appearance.bossAppeared), f.enemyAt, sizes.enemy)
      ensures cemys == old(cemys) + SpawnIf(ClownDue(tmr, appearance.bossAppeared), ClownCorner(f.clownAt.0, f.clownAt.1), sizes.clown)
      ensures items == old(items) + SpawnIf(ItemDue(tmr), f.itemAt, sizes.item)
      ensures gravityItems == old(gravityItems) + SpawnIf(GravityItemDue(tmr), f.gravityItemAt, sizes.gravityItem)
      ensures bossBeams == old(bossBeams) + BossVolley(tmr, appearance.State(), f.fanBase, sizes.bossBeamBox)
    {
      FireTimer();
      Ramp();
      SpawnEnemies(f);
      SpawnItems(f);
      BossFan(f);
    }

    /** The frame up to the skill pause: the events, then, unless the window closes,
        `Play`. */
    method Opening(f: Frame) returns (stop: Option<Outcome>)
      requires Valid()
      modifies this`drns, this`balls, bird`waitSkill, this`beamTimer, this`beamSpan, this`beams,
        this`enemiesPerSpawn, this`spawnDirections, this`lastEnemyIncrease, this`emys, this`cemys,
        this`items, this`gravityItems, this`bossBeams, this`exps, this`score, this`levelSave
      ensures Valid()
      ensures (stop == Some(Quitted)) <==> QuitEvent in f.events
      ensures stop == None || stop == Some(Quitted) || stop == Some(Defeated) || stop == Some(Paused)
      ensures stop == Some(Paused) ==> bird.waitSkill
      ensures score >= old(score) && levelSave >= old(levelSave)
      ensures appearance.bossAppeared ==> |emys| <= |old(emys)| && |cemys| <= |old(cemys)|
      ensures fresh(set d | d in drns && d !in old(drns))
      ensures fresh(set b | b in balls && b !in old(balls))
      ensures fresh(set e | e in exps && e !in old(exps))
    {
      var quit := HandleEvents(f.events);
      if quit {
        return Some(Quitted);
      }
      stop := Play(f);
    }

    /** The timed part of the frame, then the player's contact with an enemy or a
        clown and the beams against the enemies (`Engage`): a frame that pauses for a
        skill choice has fired, ramped and spawned before it pauses. */
    method Play(f: Frame) returns (stop: Option<Outcome>)
      requires Valid()
      modifies this`beamTimer, this`beamSpan, this`beams, this`enemiesPerSpawn, this`spawnDirections,
        this`lastEnemyIncrease, this`emys, this`cemys, this`items, this`gravityItems, this`bossBeams,
        this`exps, this`score, this`levelSave, bird`waitSkill
      ensures Valid()
      ensures stop == None || stop == Some(Defeated) || stop == Some(Paused)
      ensures Played(f, stop)
      ensures score >= old(score) && levelSave >= old(levelSave)
      ensures appearance.bossAppeared ==> |emys| <= |old(emys)| && cemys == old(cemys)
      ensures fresh(set e | e in exps && e !in old(exps))
    {
      Prepare(f);
      stop := Engage();
    }

    /** The player's contact with an enemy or a clown ends the game; otherwise the
        beams hit the enemies, and a beam kill that asks for a skill pauses the frame. */
    method Engage() returns (stop: Option<Outcome>)
      requires Valid()
      modifies this`emys, this`beams, this`exps, this`score, this`levelSave, bird`waitSkill
      ensures Valid()
      ensures stop == None || stop == Some(Defeated) || stop == Some(Paused)
      ensures stop == Some(Defeated) <==> HitsAny(old(bird.rect), old(emys)) || HitsAny(old(bird.rect), old(cemys))
      ensures Fought(old(emys), old(beams), stop)
      ensures stop != Some(Defeated) ==> score == old(score) + BeamKillPoints * |Consume(old(emys), old(beams)).1|
      ensures score >= old(score) && levelSave >= old(levelSave) && |emys| <= |old(emys)|
      ensures fresh(set e | e in exps && e !in old(exps))
    {
      if HitsAny(bird.rect, emys) || HitsAny(bird.rect, cemys) {
        return Some(Defeated);
      }
      ghost var p0 := Progress(score, levelSave, bird.waitSkill);
      BeamsHitEnemies();
      BeamKillsClosedForm(p0, |Consume(old(emys), old(beams)).1|);
      if bird.waitSkill {
        return Some(Paused);
      }
      stop := None;
    }

    /** The pickups, then the boss's beams and the boss block. */
    method PickupsAndBoss(f: Frame) returns (stop: Option<Outcome>)
      requires Valid()
      modifies this`items, this`gravityItems, this`itemCount, this`beamSpan, this`xbeam, this`score,
        this`gravities, this`bossBeams, this`beams, this`exps, drns, balls, appearance.boss
      ensures Valid()
      ensures stop == None || stop == Some(Defeated) || stop == Some(Cleared)
      ensures stop == Some(Cleared) ==> appearance.boss != null && appearance.boss.defeated
      ensures score >= old(score)
      ensures fresh(set e | e in exps && e !in old(exps))
      ensures fresh(set g | g in gravities && g !in old(gravities))
    {
      PickupPhase();
      stop := BossPhase(f);
    }

    /** The boss's beams against the player, then the boss block while the boss is
        visible: a beam on the player defeats them, a defeated boss clears the game. */
    method BossPhase(f: Frame) returns (stop: Option<Outcome>)
      requires Valid()
      modifies this`bossBeams, this`beams, this`exps, drns, balls, appearance.boss
      ensures Valid()
      ensures stop == None || stop == Some(Defeated) || stop == Some(Cleared)
      ensures stop == Some(Defeated) <==> Touching(old(bird.rect), old(bossBeams)) != []
      ensures stop == Some(Cleared) ==> appearance.boss != null && appearance.boss.defeated
      ensures fresh(set e | e in exps && e !in old(exps))
    {
      var hit := BossBeamsStrike();
      if hit {
        return Some(Defeated);
      }
      stop := BossShown(f.bossClearElapsed);
    }

    /** The boss's beams against the player: those on the player are removed. */
    method BossBeamsStrike() returns (hit: bool)
      requires Valid()
      modifies this`bossBeams
      ensures Valid()
      ensures bossBeams == Untouched(bird.rect, old(bossBeams))
      ensures hit <==> Touching(bird.rect, old(bossBeams)) != []
    {
      hit := Touching(bird.rect, bossBeams) != [];
      bossBeams := Untouched(bird.rect, bossBeams);
    }

    /** The boss block when the boss is shown; the game is cleared when the block
        exits. */
    method BossShown(clearElapsed: bool) returns (stop: Option<Outcome>)
      requires Valid()
      modifies this`beams, this`exps, drns, balls, appearance.boss
      ensures Valid()
      ensures stop == None || stop == Some(Cleared)
      ensures stop == Some(Cleared) <==> old(appearance.boss != null && appearance.bossVisible && appearance.boss.defeated) && clearElapsed
      ensures stop == Some(Cleared) ==> appearance.boss != null && appearance.boss.defeated
      ensures old(appearance.boss != null && appearance.bossVisible) ==>
        && beams == Untouched(old(appearance.boss.rect), old(beams))
        && var s := old(appearance.boss.State());
           var (b, explode) := BossStep(s.(health := s.health - old(BossHitCount())));
           && appearance.boss.State() == b
           && |exps| == |old(exps)| + (if explode then 1 else 0) && exps[..|old(exps)|] == old(exps)
           && NewExplosions(exps[|old(exps)|..], if explode then [(b.rect.CenterX(), b.rect.CenterY())] else [])
      ensures !old(appearance.boss != null && appearance.bossVisible) ==>
        && beams == old(beams) && exps == old(exps)
        && (appearance.boss != null ==> appearance.boss.State() == old(appearance.boss.State()))
      ensures fresh(set e | e in exps && e !in old(exps))
    {
      if appearance.boss != null && appearance.bossVisible {
        var exit := BossBlock(clearElapsed);
        if exit {
          return Some(Cleared);
        }
      }
      stop := None;
    }

    /** The sprites' own updates, then the movement of the player, the beams, the
        enemies and the clowns; no enemy or clown is added or removed. */
    method UpdateAndMove(f: Frame)
      requires Valid()
      modifies this`exps, exps, this`gravities, gravities, drns, bird`rect, bird`dire,
        this`beams, this`bossBeams, this`emys, this`cemys
      ensures Valid()
      ensures |emys| == |old(emys)| && |cemys| == |old(cemys)|
    {
      AnimateSprites();
      MovePhase(f);
    }

    /** The end of the frame: the sprites' own updates, the movement, and the boss's
        appearance, which may end the game once the boss is defeated; otherwise the
        frame counter steps. */
    method Closing(f: Frame) returns (outcome: Outcome)
      requires Valid()
      modifies this`exps, exps, this`gravities, gravities, drns, bird`rect, bird`dire,
        this`beams, this`bossBeams, this`emys, this`cemys, appearance, appearance.boss, this`tmr
      ensures Valid()
      ensures outcome == Running || outcome == Cleared
      ensures outcome == Cleared ==> appearance.boss != null && appearance.boss.defeated
      ensures outcome == Running ==> tmr == old(tmr) + 1
      ensures outcome == Running ==> (appearance.bossAppeared <==> old(appearance.bossAppeared) || score >= BossScore)
      ensures outcome == Running && !old(appearance.bossAppeared) && appearance.bossAppeared ==> emys == [] && cemys == []
      ensures old(appearance.bossAppeared) ==> |emys| <= |old(emys)| && |cemys| <= |old(cemys)|
    {
      UpdateAndMove(f);
      var exit := AppearPhase(f);
      AppearStepSpec(old(appearance.State()), score, f.warning, f.appearClearElapsed, sizes.boss.0, sizes.boss.1);
      if exit {
        return Cleared;
      }
      tmr := tmr + 1;
      outcome := Running;
    }

    /** The frame after the skill pause: the companions and the gravity fields, then,
        unless a companion crashed the game, `Finish`. */
    method Rest(f: Frame) returns (outcome: Outcome)
      requires Valid()
      modifies this, bird, appearance, appearance.boss, drns, balls, exps, gravities
      ensures Valid()
      ensures outcome == Running || outcome == Crashed || outcome == Defeated || outcome == Cleared
      ensures outcome == Running ==> tmr == old(tmr) + 1
      ensures outcome == Crashed ==> old(lastClown) == None
      ensures outcome == Cleared ==> appearance.boss != null && appearance.boss.defeated
      ensures score >= old(score) && levelSave >= old(levelSave)
      ensures outcome == Running ==> (appearance.bossAppeared <==> old(appearance.bossAppeared) || score >= BossScore)
      ensures outcome == Running && !old(appearance.bossAppeared) && appearance.bossAppeared ==> emys == [] && cemys == []
      ensures old(appearance.bossAppeared) ==> |emys| <= |old(emys)| && |cemys| <= |old(cemys)|
    {
      var crashed := CompanionsFight();
      if crashed {
        return Crashed;
      }
      outcome := Finish(f);
    }

    /** The pickups and the boss (`PickupsAndBoss`), then, unless the frame stopped
        there, `Closing`. */
    method Finish(f: Frame) returns (outcome: Outcome)
      requires Valid()
      modifies this, bird, appearance, appearance.boss, drns, balls, exps, gravities
      ensures Valid()
      ensures outcome == Running || outcome == Defeated || outcome == Cleared
      ensures outcome == Running ==> tmr == old(tmr) + 1
      ensures outcome == Cleared ==> appearance.boss != null && appearance.boss.defeated
      ensures score >= old(score) && levelSave == old(levelSave)
      ensures outcome == Running ==> (appearance.bossAppeared <==> old(appearance.bossAppeared) || score >= BossScore)
      ensures outcome == Running && !old(appearance.bossAppeared) && appearance.bossAppeared ==> emys == [] && cemys == []
      ensures old(appearance.bossAppeared) ==> |emys| <= |old(emys)| && |cemys| <= |old(cemys)|
    {
      var stop := PickupsAndBoss(f);
      if stop.Some? {
        return stop.value;
      }
      outcome := Closing(f);
    }

    /** One pass of the main loop: `Opening` (the events, then `Play`), and `Rest`
        unless the frame stopped there. The window closes exactly on a quit event; a
        pause for a skill choice leaves the choice pending and freezes the frame
        counter (what the frame did before pausing is `Played`); a crash needs that
        no clown was ever bound; the game is cleared only by a defeated boss; the
        score and the saved level never drop; once the boss is in no enemy or clown
        is added, and on the frame it comes in both groups are emptied. */
    method Tick(f: Frame) returns (outcome: Outcome)
      requires Valid()
      modifies this, bird, appearance, appearance.boss, drns, balls, exps, gravities
      ensures Valid()
      ensures score >= old(score) && levelSave >= old(levelSave)
      ensures (outcome == Quitted) <==> QuitEvent in f.events
      ensures outcome == Paused ==> bird.waitSkill && tmr == old(tmr)
      ensures outcome == Running ==> tmr == old(tmr) + 1
      ensures outcome == Crashed ==> old(lastClown) == None
      ensures outcome == Cleared ==> appearance.boss != null && appearance.boss.defeated
      ensures outcome == Running ==> (appearance.bossAppeared <==> old(appearance.bossAppeared) || score >= BossScore)
      ensures outcome == Running && !old(appearance.bossAppeared) && appearance.bossAppeared ==> emys == [] && cemys == []
      ensures old(appearance.bossAppeared) ==> |emys| <= |old(emys)| && |cemys| <= |old(cemys)|
    {
      var stop := Opening(f);
      if stop.Some? {
        return stop.value;
      }
      outcome := Rest(f);
    }
  }
}
