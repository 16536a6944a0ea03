/** The earlier snapshot's main loop: one `EarlyState.Tick` is one pass of its
    `while True` loop. Its rules differ from the later snapshot's: the gravity
    field is bought with score (key R), SPACE fires one beam or, with the left
    shift key held, a five-beam fan, every beam kill opens the skill screen, and
    bombs and beams die as soon as they leave the screen. The sprite groups are kept
    as values here (rectangles, motions and lifetimes); the classes this loop shares
    with the later snapshot are modelled as classes in `Sprites`, and their step
    functions are reused. */
module EarlyGame {
  import opened Geometry
  import opened Player
  import opened Sprites
  import opened Fan
  import opened Collide

  /** The keys the event loop reacts to. */
  datatype EarlyKey = KeyR | KeySpace | Key1 | Key2 | OtherKey

  datatype EarlyEvent = Quit | KeyDown(key: EarlyKey) | OtherEvent

  /** The sizes of the images the sprites' rectangles are taken from. A beam's
      rectangle is that of the beam image rotated to its heading and doubled, so
      `beamBox` gives its size for each heading. */
  datatype EarlySizes = EarlySizes(
    bird: (nat, nat), beamBox: real -> (nat, nat), enemy: (nat, nat), durian: (nat, nat), ball: (nat, nat))

  /** What one frame reads from outside the model: the events, the held keys, the
      random spawn position, and each moving sprite's displacement (its float heading
      times its speed, by position in its group). */
  datatype EarlyFrame = EarlyFrame(
    events: seq<EarlyEvent>, pressed: set<Key>, enemyAt: (int, int),
    beamMoves: seq<(int, int)>, emyMoves: seq<(int, int)>, bombMoves: seq<(int, int)>)

  /** How a frame ends: the loop goes on, pauses at the skill screen (`continue`),
      or `main` returns (window closed, or the player touched by an enemy or a bomb). */
  datatype EarlyOutcome = Running | Paused | Quitted | Defeated

  /** An explosion: its centre and its remaining lifetime. */
  datatype Blast = Blast(cx: int, cy: int, life: int)

  const GravityCost: int := 200
  const GravityLife: int := 400
  const FanSize: int := 5
  const SpawnPeriod: int := 200
  const BeamKillPoints: int := 10
  const CompanionKillPoints: int := 5
  const BombKillPoints: int := 1
  const FieldKillPoints: int := 10
  const EnemyBlastLife: int := 100
  const BombBlastLife: int := 50

  /** `n` copies of `x`. */
  function Repeat<T>(x: T, n: nat): (s: seq<T>)
    ensures |s| == n && forall i :: 0 <= i < n ==> s[i] == x
  {
    seq(n, _ => x)
  }

  lemma RepeatAdd<T>(x: T, a: nat, b: nat)
    ensures Repeat(x, a) + Repeat(x, b) == Repeat(x, a + b)
  {
    assert forall i :: 0 <= i < a + b ==> (Repeat(x, a) + Repeat(x, b))[i] == x;
  }

  /** The headings, in degrees, of the beams one SPACE press fires: `Beam(bird)`
      along the facing angle, or with the left shift key held `NeoBeam(bird, 5)`'s
      fan around it. */
  function Volley(shift: bool, facing: real): (v: seq<real>)
    ensures |v| == if shift then FanSize else 1
  {
    if shift then FanAngles(facing, FanSize) else [facing]
  }

  /** One press fires one beam straight ahead, or five at -50, -25, 0, 25 and 50
      degrees from the facing angle. */
  lemma VolleyAngles(shift: bool, facing: real)
    ensures !shift ==> Volley(shift, facing) == [facing]
    ensures shift ==> Volley(shift, facing) == [facing - 50.0, facing - 25.0, facing, facing + 25.0, facing + 50.0]
  {
    if shift {
      FiveBeamFan();
    }
  }

  /** The event loop's effect so far: whether the window was closed, the score,
      whether the skill screen is still up, and how many gravity fields, beams (by
      heading), durians and soccer balls it added. */
  datatype Effect = Effect(quit: bool, score: int, wait: bool, bought: nat, fired: seq<real>, durians: nat, balls: nat)

  /** One event: R buys a gravity field when the score allows it; SPACE fires; at the
      skill screen, key 1 or 2 picks a companion and closes the screen. */
  function EarlyStep(s: Effect, e: EarlyEvent, shift: bool, facing: real): Effect
  {
    match e
    case Quit => s.(quit := true)
    case OtherEvent => s
    case KeyDown(k) => ChooseStep(FireStep(BuyStep(s, k), k, shift, facing), k)
  }

  /** Appending to a group that grew from `a` by `b` is growing it by `b + c`. */
  lemma AppendAssoc<T>(a: seq<T>, b: seq<T>, c: seq<T>)
    ensures (a + b) + c == a + (b + c)
  {
  }

  /** Only a quit event closes the window. */
  lemma EarlyStepKeepsOpen(s: Effect, e: EarlyEvent, shift: bool, facing: real)
    requires e != Quit
    ensures EarlyStep(s, e, shift, facing).quit == s.quit
  {
  }

  /** The R rule: a gravity field for 200 points, when the score allows it. */
  function BuyStep(s: Effect, k: EarlyKey): Effect
  {
    if k == KeyR && s.score >= GravityCost then s.(bought := s.bought + 1, score := s.score - GravityCost) else s
  }

  /** The SPACE rule: one volley. */
  function FireStep(s: Effect, k: EarlyKey, shift: bool, facing: real): Effect
  {
    if k == KeySpace then s.(fired := s.fired + Volley(shift, facing)) else s
  }

  /** The skill-screen rule: key 1 picks a durian, key 2 a soccer ball. */
  function ChooseStep(s: Effect, k: EarlyKey): Effect
  {
    if s.wait && k == Key1 then s.(durians := s.durians + 1, wait := false)
    else if s.wait && k == Key2 then s.(balls := s.balls + 1, wait := false)
    else s
  }

  /** The events in order, stopping at the first quit (`return 0`). */
  function EarlyEvents(s: Effect, evs: seq<EarlyEvent>, shift: bool, facing: real): Effect
    decreases |evs|
  {
    if evs == [] then s
    else
      var r := EarlyEvents(s, evs[..|evs| - 1], shift, facing);
      if r.quit then r else EarlyStep(r, evs[|evs| - 1], shift, facing)
  }

  /** The presses of key `k` that come before the first quit. */
  function Presses(evs: seq<EarlyEvent>, k: EarlyKey): nat
    decreases |evs|
  {
    if evs == [] then 0
    else
      var init := evs[..|evs| - 1];
      if Quit in init then Presses(init, k)
      else Presses(init, k) + (if evs[|evs| - 1] == KeyDown(k) then 1 else 0)
  }

  /** The cost of the gravity field: a frame's events close the window exactly on a
      quit; each field bought takes exactly 200 points, no more fields are bought than
      R was pressed, and the score never goes negative. */
  lemma {:induction false} EarlyEventsSpend(s: Effect, evs: seq<EarlyEvent>, shift: bool, facing: real)
    requires !s.quit && s.score >= 0
    ensures var r := EarlyEvents(s, evs, shift, facing);
      && (r.quit <==> Quit in evs)
      && r.score >= 0
      && r.score + GravityCost * r.bought == s.score + GravityCost * s.bought
      && s.bought <= r.bought <= s.bought + Presses(evs, KeyR)
    decreases |evs|
  {
    if evs != [] {
      var n := |evs| - 1;
      var init := evs[..n];
      assert evs == init + [evs[n]];
      EarlyEventsSpend(s, init, shift, facing);
      assert Quit in evs <==> Quit in init || evs[n] == Quit;
    }
  }

  /** Every SPACE press before the quit fires one beam, or five with the left shift
      key held; earlier beams are kept in order. */
  lemma {:induction false} EarlyEventsFire(s: Effect, evs: seq<EarlyEvent>, shift: bool, facing: real)
    requires !s.quit
    ensures var r := EarlyEvents(s, evs, shift, facing);
      && |r.fired| == |s.fired| + (if shift then FanSize else 1) * Presses(evs, KeySpace)
      && r.fired[..|s.fired|] == s.fired
    decreases |evs|
  {
    if evs != [] {
      var n := |evs| - 1;
      var init := evs[..n];
      EarlyEventsFire(s, init, shift, facing);
      var r0 := EarlyEvents(s, init, shift, facing);
      if !r0.quit {
        EarlyEventsQuit(s, init, shift, facing);
        var r := EarlyEvents(s, evs, shift, facing);
        assert r.fired[..|r0.fired|] == r0.fired;
        assert r.fired[..|s.fired|] == r0.fired[..|s.fired|];
      } else {
        EarlyEventsQuit(s, init, shift, facing);
      }
    }
  }

  /** The window is closed exactly when a quit event came. */
  lemma {:induction false} EarlyEventsQuit(s: Effect, evs: seq<EarlyEvent>, shift: bool, facing: real)
    requires !s.quit
    ensures EarlyEvents(s, evs, shift, facing).quit <==> Quit in evs
    decreases |evs|
  {
    if evs != [] {
      var n := |evs| - 1;
      var init := evs[..n];
      assert evs == init + [evs[n]];
      EarlyEventsQuit(s, init, shift, facing);
    }
  }

  /** The skill screen closes exactly when key 1 or 2 is pressed before the quit while
      it is up, and then exactly one companion is added; none is added otherwise. */
  lemma {:induction false} EarlyEventsChooseOnce(s: Effect, evs: seq<EarlyEvent>, shift: bool, facing: real)
    requires !s.quit
    ensures var r := EarlyEvents(s, evs, shift, facing);
      && (r.wait <==> s.wait && Presses(evs, Key1) + Presses(evs, Key2) == 0)
      && r.durians >= s.durians && r.balls >= s.balls
      && r.durians + r.balls == s.durians + s.balls + (if s.wait && !r.wait then 1 else 0)
    decreases |evs|
  {
    if evs != [] {
      var n := |evs| - 1;
      var init := evs[..n];
      EarlyEventsChooseOnce(s, init, shift, facing);
      EarlyEventsQuit(s, init, shift, facing);
    }
  }

  /** The groups the event loop adds to. */
  datatype Groups = Groups(gravities: seq<int>, beams: seq<Rect>, drns: seq<Motion>, balls: seq<Motion>)

  /** The event loop's starting effect: nothing added yet. */
  function Fresh(score: int, wait: bool): Effect
  {
    Effect(false, score, wait, 0, [], 0, 0)
  }

  /** `Bomb.update` and `Beam.update` over a group: each moves, and dies as soon as
      it is not fully inside the screen. */
  function Fly(rs: seq<Rect>, moves: seq<(int, int)>): (out: seq<Rect>)
    ensures |out| <= |rs|
    ensures forall r :: r in out ==> CheckBound(r) == (true, true)
    ensures forall r :: r in out ==> exists k :: 0 <= k < |rs| && r == rs[k].Move(MoveAt(moves, k).0, MoveAt(moves, k).1)
    decreases |rs|
  {
    if rs == [] then []
    else
      var n := |rs| - 1;
      var d := MoveAt(moves, n);
      var m := rs[n].Move(d.0, d.1);
      Fly(rs[..n], moves) + (if CheckBound(m) == (true, true) then [m] else [])
  }

  /** ... and every one whose moved rectangle is fully inside the screen survives. */
  lemma {:induction false} FlyKeepsInside(rs: seq<Rect>, moves: seq<(int, int)>, k: nat)
    requires k < |rs|
    ensures var d := MoveAt(moves, k); var m := rs[k].Move(d.0, d.1);
      CheckBound(m) == (true, true) ==> m in Fly(rs, moves)
    decreases |rs|
  {
    var n := |rs| - 1;
    if k < n {
      FlyKeepsInside(rs[..n], moves, k);
    }
  }

  /** `Explosion.update` over a group: each counts down and the ones whose lifetime
      went negative are removed; every survivor is one of them, one frame older. */
  function FadeBlasts(bs: seq<Blast>): (out: seq<Blast>)
    ensures |out| <= |bs|
    ensures forall b :: b in out ==> b.life >= 0 && Blast(b.cx, b.cy, b.life + 1) in bs
    decreases |bs|
  {
    if bs == [] then []
    else
      var n := |bs| - 1;
      var b := bs[n];
      var (life, alive) := Countdown(b.life);
      FadeBlasts(bs[..n]) + (if alive then [b.(life := life)] else [])
  }

  /** The converse: a blast whose lifetime does not go negative stays, one frame older. */
  lemma {:induction false} FadeBlastsKeeps(bs: seq<Blast>, i: int)
    requires 0 <= i < |bs| && Countdown(bs[i].life).1
    ensures bs[i].(life := bs[i].life - 1) in FadeBlasts(bs)
    decreases |bs|
  {
    var n := |bs| - 1;
    if i < n {
      assert bs[..n][i] == bs[i];
      FadeBlastsKeeps(bs[..n], i);
    }
  }

  /** `Gravity.update` over a group of lifetimes: a field stays, one frame older,
      only while its lifetime does not go negative. */
  function FadeLives(ls: seq<int>): (out: seq<int>)
    ensures |out| <= |ls|
    ensures forall l :: l in out ==> l >= 0 && l + 1 in ls
    decreases |ls|
  {
    if ls == [] then []
    else
      var n := |ls| - 1;
      var (life, alive) := Countdown(ls[n]);
      assert forall x :: x in ls[..n] ==> x in ls;
      FadeLives(ls[..n]) + (if alive then [life] else [])
  }

  /** The converse: a field whose lifetime does not go negative stays, one frame older. */
  lemma {:induction false} FadeLivesKeeps(ls: seq<int>, i: int)
    requires 0 <= i < |ls| && Countdown(ls[i]).1
    ensures ls[i] - 1 in FadeLives(ls)
    decreases |ls|
  {
    var n := |ls| - 1;
    if i < n {
      assert ls[..n][i] == ls[i];
      FadeLivesKeeps(ls[..n], i);
    }
  }

  /** The explosions `Explosion(obj, life)` for objects with these centres. */
  function Blasts(cs: seq<(int, int)>, life: int): (bs: seq<Blast>)
    ensures |bs| == |cs| && forall i :: 0 <= i < |cs| ==> bs[i] == Blast(cs[i].0, cs[i].1, life)
  {
    seq(|cs|, i requires 0 <= i < |cs| => Blast(cs[i].0, cs[i].1, life))
  }

  /** `Soccerball.update(emys)` on values: the wall rule, then one `vx` flip per
      enemy the moved ball overlaps. */
  function BallStep(m: Motion, enemies: seq<Rect>): Motion
  {
    var w := BallWallStep(m);
    w.(vx := FlipTimes(w.vx, CountOverlapping(w.rect, enemies)))
  }

  /** `balls.update(emys)` over the group. */
  function Balls(ms: seq<Motion>, enemies: seq<Rect>): (out: seq<Motion>)
    ensures |out| == |ms| && forall i :: 0 <= i < |ms| ==> out[i] == BallStep(ms[i], enemies)
  {
    seq(|ms|, i requires 0 <= i < |ms| => BallStep(ms[i], enemies))
  }

  /** `drns.update()` over the group. */
  function Durians(ms: seq<Motion>): (out: seq<Motion>)
    ensures |out| == |ms| && forall i :: 0 <= i < |ms| ==> out[i] == DurianStep(ms[i])
  {
    seq(|ms|, i requires 0 <= i < |ms| => DurianStep(ms[i]))
  }

  /** The rectangles of a group of companions. */
  function Rects(ms: seq<Motion>): (rs: seq<Rect>)
    ensures |rs| == |ms| && forall i :: 0 <= i < |ms| ==> rs[i] == ms[i].rect
  {
    seq(|ms|, i requires 0 <= i < |ms| => ms[i].rect)
  }

  class EarlyState {
    const sizes: EarlySizes
    const bird: Bird
    var score: int
    var tmr: int
    var spawnDirections: int
    var enemiesPerSpawn: int
    var lastEnemyIncrease: int
    var emys: seq<Rect>
    var bombs: seq<Rect>
    var beams: seq<Rect>
    var exps: seq<Blast>
    var gravities: seq<int>
    var drns: seq<Motion>
    var balls: seq<Motion>

    /** The score is never negative; the two ramp counters grow together; the last
        ramp time is never ahead of the clock. */
    ghost predicate Valid()
      reads this, bird
    {
      && bird.Valid()
      && 0 <= score && 0 <= tmr
      && 1 <= enemiesPerSpawn && spawnDirections == enemiesPerSpawn + 3
      && 0 <= lastEnemyIncrease <= tmr / 50
    }

    /** The state `main` sets up before its loop. */
    constructor (sizes: EarlySizes)
      ensures Valid() && fresh(bird)
      ensures this.sizes == sizes
      ensures bird.rect == CenteredAt(900, 400, sizes.bird.0, sizes.bird.1) && !bird.waitSkill
      ensures score == 0 && tmr == 0 && spawnDirections == 4 && enemiesPerSpawn == 1 && lastEnemyIncrease == 0
      ensures emys == [] && bombs == [] && beams == [] && exps == [] && gravities == [] && drns == [] && balls == []
    {
      this.sizes := sizes;
      bird := new Bird(900, 400, sizes.bird.0, sizes.bird.1);
      score, tmr := 0, 0;
      spawnDirections, enemiesPerSpawn, lastEnemyIncrease := 4, 1, 0;
      emys, bombs, beams, exps, gravities, drns, balls := [], [], [], [], [], [], [];
    }

    /** A rectangle of size `sz` centred on the player. */
    function Launch(sz: (nat, nat)): Rect
      reads this, bird
    {
      CenteredAt(bird.rect.CenterX(), bird.rect.CenterY(), sz.0, sz.1)
    }

    /** The score and the skill screen are those of the event loop's effect `r`, and
        each group the loop adds to is `g`'s copy followed by what `r` added. */
    ghost predicate Tracks(r: Effect, g: Groups)
      reads this, bird
    {
      && score == r.score && bird.waitSkill == r.wait
      && gravities == g.gravities + Repeat(GravityLife, r.bought)
      && beams == g.beams + Shots(bird.rect.CenterX(), bird.rect.CenterY(), sizes.beamBox, r.fired)
      && drns == g.drns + Repeat(Motion(Launch(sizes.durian), 1, 1), r.durians)
      && balls == g.balls + Repeat(Motion(Launch(sizes.ball), 1, 1), r.balls)
    }

    /** One event other than quit: the R, SPACE and skill-screen rules, in that order. */
    method OnEvent(e: EarlyEvent, shift: bool, ghost r: Effect, ghost g: Groups) returns (fired: seq<real>)
      requires Valid() && e != Quit && Tracks(r, g)
      modifies this`score, this`gravities, this`beams, this`drns, this`balls, bird`waitSkill
      ensures Valid()
      ensures var r' := EarlyStep(r, e, shift, FacingDegrees(bird.dire));
        Tracks(r', g) && r'.fired == r.fired + fired
    {
      fired := [];
      if e.KeyDown? {
        var k := e.key;
        Buy(k, r, g);
        ghost var r1 := BuyStep(r, k);
        fired := Fire(k, shift, r1, g);
        ghost var r2 := FireStep(r1, k, shift, FacingDegrees(bird.dire));
        Choose(k, r2, g);
      }
    }

    /** Key R: a gravity field for 200 points, when the score allows it. */
    method Buy(k: EarlyKey, ghost r: Effect, ghost g: Groups)
      requires Valid() && Tracks(r, g)
      modifies this`score, this`gravities
      ensures Valid() && Tracks(BuyStep(r, k), g)
    {
      if k == KeyR && score >= GravityCost {
        RepeatAdd(GravityLife, r.bought, 1);
        gravities := gravities + [GravityLife];
        score := score - GravityCost;
      }
    }

    /** SPACE: `Beam(bird)`, or `NeoBeam(bird, 5)` with the left shift key held. */
    method Fire(k: EarlyKey, shift: bool, ghost r: Effect, ghost g: Groups) returns (fired: seq<real>)
      requires Valid() && Tracks(r, g)
      modifies this`beams
      ensures Valid()
      ensures var r' := FireStep(r, k, shift, FacingDegrees(bird.dire));
        Tracks(r', g) && r'.fired == r.fired + fired
    {
      fired := [];
      if k == KeySpace {
        fired := Aim(shift, FacingDegrees(bird.dire));
        var cx, cy := bird.rect.CenterX(), bird.rect.CenterY();
        ShotsAppend(cx, cy, sizes.beamBox, r.fired, fired);
        ghost var before := Shots(cx, cy, sizes.beamBox, r.fired);
        var volley := Shots(cx, cy, sizes.beamBox, fired);
        assert beams == g.beams + before;
        beams := beams + volley;
        AppendAssoc(g.beams, before, volley);
        assert Tracks(r.(fired := r.fired + fired), g);
      }
    }

    /** The headings of one volley: `Beam(bird)` or `NeoBeam(bird, 5).gen_beams()`. */
    static method Aim(shift: bool, facing: real) returns (fired: seq<real>)
      ensures fired == Volley(shift, facing)
    {
      if shift {
        fired := GenBeams(facing, FanSize);
      } else {
        fired := [facing];
      }
    }

    /** Keys 1 and 2 at the skill screen: a durian or a soccer ball at the player. */
    method Choose(k: EarlyKey, ghost r: Effect, ghost g: Groups)
      requires Valid() && Tracks(r, g)
      modifies this`drns, this`balls, bird`waitSkill
      ensures Valid() && Tracks(ChooseStep(r, k), g)
    {
      if bird.waitSkill {
        if k == Key1 {
          RepeatAdd(Motion(Launch(sizes.durian), 1, 1), r.durians, 1);
          drns := drns + [Motion(Launch(sizes.durian), 1, 1)];
          bird.waitSkill := false;
        }
        if k == Key2 {
          RepeatAdd(Motion(Launch(sizes.ball), 1, 1), r.balls, 1);
          balls := balls + [Motion(Launch(sizes.ball), 1, 1)];
          bird.waitSkill := false;
        }
      }
    }

    /** The event loop of one frame, up to the first quit. */
    method HandleEvents(events: seq<EarlyEvent>, shift: bool) returns (quit: bool, fired: seq<real>)
      requires Valid()
      modifies this`score, this`gravities, this`beams, this`drns, this`balls, bird`waitSkill
      ensures Valid()
      ensures var r := EarlyEvents(Fresh(old(score), old(bird.waitSkill)), events, shift, FacingDegrees(bird.dire));
        && quit == r.quit && fired == r.fired
        && Tracks(r, Groups(old(gravities), old(beams), old(drns), old(balls)))
    {
      ghost var facing := FacingDegrees(bird.dire);
      ghost var g := Groups(gravities, beams, drns, balls);
      ghost var s0 := Fresh(score, bird.waitSkill);
      ghost var r := s0;
      quit, fired := false, [];
      var i := 0;
      while i < |events|
        invariant 0 <= i <= |events|
        invariant Valid() && facing == FacingDegrees(bird.dire)
        invariant r == EarlyEvents(s0, events[..i], shift, facing) && !r.quit
        invariant Tracks(r, g) && fired == r.fired
      {
        assert events[..i + 1][..i] == events[..i];
        var e := events[i];
        if e == Quit {
          r := EarlyStep(r, e, shift, facing);
          EarlyQuitSticks(s0, events, i + 1, shift, facing);
          return true, fired;
        }
        var more := OnEvent(e, shift, r, g);
        fired := fired + more;
        EarlyStepKeepsOpen(r, e, shift, facing);
        r := EarlyStep(r, e, shift, facing);
        i := i + 1;
      }
      assert events[..|events|] == events;
    }

    /** Every five seconds of frames, the enemy count and the spawn directions both
        grow by 2. */
    method Ramp()
      requires Valid()
      modifies this`enemiesPerSpawn, this`spawnDirections, this`lastEnemyIncrease
      ensures Valid()
      ensures if old(tmr / 50 - lastEnemyIncrease >= 5)
        then enemiesPerSpawn == old(enemiesPerSpawn) + 2 && lastEnemyIncrease == tmr / 50
        else enemiesPerSpawn == old(enemiesPerSpawn) && lastEnemyIncrease == old(lastEnemyIncrease)
    {
      var currentTime := tmr / 50;
      if currentTime - lastEnemyIncrease >= 5 {
        enemiesPerSpawn := enemiesPerSpawn + 2;
        spawnDirections := spawnDirections + 2;
        lastEnemyIncrease := currentTime;
      }
    }

    /** One enemy every 200 frames, at the position drawn for it. */
    method Spawn(at: (int, int))
      requires Valid()
      modifies this`emys
      ensures Valid()
      ensures emys == old(emys) + (if tmr % SpawnPeriod == 0 then [CenteredAt(at.0, at.1, sizes.enemy.0, sizes.enemy.1)] else [])
    {
      if tmr % SpawnPeriod == 0 {
        emys := emys + [CenteredAt(at.0, at.1, sizes.enemy.0, sizes.enemy.1)];
      }
    }

    /** The body of a kill loop, once per centre: an explosion of lifetime `life` and
        `points` points. */
    method Explode(centres: seq<(int, int)>, life: int, points: nat)
      requires Valid()
      modifies this`exps, this`score
      ensures Valid()
      ensures exps == old(exps) + Blasts(centres, life)
      ensures score == old(score) + points * |centres|
    {
      var i := 0;
      while i < |centres|
        invariant 0 <= i <= |centres|
        invariant Valid()
        invariant exps == old(exps) + Blasts(centres[..i], life)
        invariant score == old(score) + points * i
      {
        assert Blasts(centres[..i + 1], life) == Blasts(centres[..i], life) + [Blast(centres[i].0, centres[i].1, life)];
        exps := exps + [Blast(centres[i].0, centres[i].1, life)];
        score := score + points;
        i := i + 1;
      }
      assert centres[..|centres|] == centres;
    }

    /** `groupcollide(emys, beams, True, True)`: each kill scores 10, leaves an
        explosion, and opens the skill screen, since every integer score passes the
        `% 1 == 0` test. */
    method BeamKills()
      requires Valid()
      modifies this`emys, this`beams, this`exps, this`score, bird`waitSkill
      ensures Valid()
      ensures var (spared, killed, left) := Consume(old(emys), old(beams));
        && emys == spared && beams == left
        && exps == old(exps) + Blasts(Centres(killed), EnemyBlastLife)
        && score == old(score) + BeamKillPoints * |killed|
        && bird.waitSkill == (old(bird.waitSkill) || killed != [])
    {
      var (spared, killed, left) := Consume(emys, beams);
      emys, beams := spared, left;
      Celebrate(Centres(killed));
    }

    /** The body of the beam-kill loop, once per killed enemy: an explosion, 10
        points, and the skill screen. */
    method Celebrate(centres: seq<(int, int)>)
      requires Valid()
      modifies this`exps, this`score, bird`waitSkill
      ensures Valid()
      ensures exps == old(exps) + Blasts(centres, EnemyBlastLife)
      ensures score == old(score) + BeamKillPoints * |centres|
      ensures bird.waitSkill == (old(bird.waitSkill) || centres != [])
    {
      var i := 0;
      while i < |centres|
        invariant 0 <= i <= |centres|
        invariant Valid()
        invariant exps == old(exps) + Blasts(centres[..i], EnemyBlastLife)
        invariant score == old(score) + BeamKillPoints * i
        invariant bird.waitSkill == (old(bird.waitSkill) || i > 0)
      {
        assert Blasts(centres[..i + 1], EnemyBlastLife) ==
          Blasts(centres[..i], EnemyBlastLife) + [Blast(centres[i].0, centres[i].1, EnemyBlastLife)];
        exps := exps + [Blast(centres[i].0, centres[i].1, EnemyBlastLife)];
        score := score + BeamKillPoints;
        if score % 1 == 0 {
          bird.waitSkill := true;
        }
        i := i + 1;
      }
      assert centres[..|centres|] == centres;
    }

    /** `groupcollide(emys, hazards, True, False)`: the enemies touching a hazard
        die, each with an explosion and `points` points. */
    method StrikeEnemies(hazards: seq<Rect>, points: nat)
      requires Valid()
      modifies this`emys, this`exps, this`score
      ensures Valid()
      ensures var struck := Struck(old(emys), hazards);
        && emys == Spared(old(emys), hazards)
        && exps == old(exps) + Blasts(Centres(struck), EnemyBlastLife)
        && score == old(score) + points * |struck|
    {
      var struck := Struck(emys, hazards);
      emys := Spared(emys, hazards);
      Explode(Centres(struck), EnemyBlastLife, points);
    }

    /** `groupcollide(bombs, beams, True, True)` and `groupcollide(bombs, gravities,
        True, False)`: each bomb shot or caught scores 1 and leaves a short explosion. */
    method BombKills()
      requires Valid()
      modifies this`bombs, this`beams, this`exps, this`score
      ensures Valid()
      ensures var (spared, killed, left) := Consume(old(bombs), old(beams));
        var struck := Struck(spared, FieldRects(|gravities|));
        && beams == left && bombs == Spared(spared, FieldRects(|gravities|))
        && exps == old(exps) + Blasts(Centres(killed), BombBlastLife) + Blasts(Centres(struck), BombBlastLife)
        && score == old(score) + BombKillPoints * (|killed| + |struck|)
    {
      var (spared, killed, left) := Consume(bombs, beams);
      bombs, beams := spared, left;
      Explode(Centres(killed), BombBlastLife, BombKillPoints);
      var struck := Struck(bombs, FieldRects(|gravities|));
      bombs := Spared(bombs, FieldRects(|gravities|));
      Explode(Centres(struck), BombBlastLife, BombKillPoints);
    }

    /** `balls.update(emys)`: every ball bounces off the walls and the enemies. */
    method BounceBalls()
      requires Valid()
      modifies this`balls
      ensures Valid()
      ensures balls == Balls(old(balls), emys)
    {
      balls := Balls(balls, emys);
    }

    /** The updates after the pause test: the player moves (with the shift speed), the
        beams, enemies and bombs move, and explosions, gravity fields and durians take
        their own step. */
    method Advance(f: EarlyFrame)
      requires Valid()
      modifies bird`rect, bird`dire, bird`speed, this`beams, this`emys, this`bombs, this`exps, this`gravities, this`drns
      ensures Valid()
      ensures bird.speed == if MovementKeyPressed(f.pressed) then ShiftSpeed(f.pressed) else old(bird.speed)
      ensures var v := KeyVector(f.pressed);
        var moved := old(bird.rect).Move(bird.speed * v.0, bird.speed * v.1);
        bird.rect == if CheckBound(moved) == (true, true) then moved else old(bird.rect)
      ensures bird.dire == if KeyVector(f.pressed) == (0, 0) then old(bird.dire) else KeyVector(f.pressed)
      ensures beams == Fly(old(beams), f.beamMoves) && bombs == Fly(old(bombs), f.bombMoves)
      ensures emys == Shift(old(emys), f.emyMoves)
      ensures exps == FadeBlasts(old(exps)) && gravities == FadeLives(old(gravities))
      ensures drns == Durians(old(drns))
    {
      bird.UpdateWithShift(f.pressed);
      MoveGroups(f);
    }

    /** The group updates of `Advance`. */
    method MoveGroups(f: EarlyFrame)
      requires Valid()
      modifies this`beams, this`emys, this`bombs, this`exps, this`gravities, this`drns
      ensures Valid()
      ensures beams == Fly(old(beams), f.beamMoves) && bombs == Fly(old(bombs), f.bombMoves)
      ensures emys == Shift(old(emys), f.emyMoves)
      ensures exps == FadeBlasts(old(exps)) && gravities == FadeLives(old(gravities))
      ensures drns == Durians(old(drns))
    {
      MoveSprites(f);
      AgeSprites();
    }

    /** `beams.update()`, `emys.update()` and `bombs.update()`. */
    method MoveSprites(f: EarlyFrame)
      requires Valid()
      modifies this`beams, this`emys, this`bombs
      ensures Valid()
      ensures beams == Fly(old(beams), f.beamMoves) && bombs == Fly(old(bombs), f.bombMoves)
      ensures emys == Shift(old(emys), f.emyMoves)
    {
      beams, emys, bombs := Fly(beams, f.beamMoves), Shift(emys, f.emyMoves), Fly(bombs, f.bombMoves);
    }

    /** `exps.update()`, `gravities.update()` and `drns.update()`. */
    method AgeSprites()
      requires Valid()
      modifies this`exps, this`gravities, this`drns
      ensures Valid()
      ensures exps == FadeBlasts(old(exps)) && gravities == FadeLives(old(gravities))
      ensures drns == Durians(old(drns))
    {
      exps, gravities, drns := FadeBlasts(exps), FadeLives(gravities), Durians(drns);
    }

    /** The companions and gravity fields against the enemies and bombs, in the
        loop's order. */
    method Fight()
      requires Valid()
      modifies this`emys, this`bombs, this`beams, this`exps, this`score, this`balls, bird`waitSkill
      ensures Valid()
      ensures score >= old(score)
      ensures old(bombs) == [] ==> bombs == []
    {
      BeamKills();
      StrikeEnemies(Rects(drns), CompanionKillPoints);
      BounceBalls();
      StrikeEnemies(Rects(balls), CompanionKillPoints);
      BombKills();
      StrikeEnemies(FieldRects(|gravities|), FieldKillPoints);
    }

    /** One pass of the loop. The window closes exactly on a quit event; the score
        only drops by the price of the gravity fields bought and never goes negative;
        the skill screen freezes the frame counter; no bomb is ever created. */
    method Tick(f: EarlyFrame) returns (outcome: EarlyOutcome)
      requires Valid()
      modifies this, bird
      ensures Valid()
      ensures (outcome == Quitted) <==> Quit in f.events
      ensures score >= old(score) - GravityCost * Presses(f.events, KeyR)
      ensures outcome == Paused ==> bird.waitSkill && tmr == old(tmr)
      ensures outcome == Running ==> !bird.waitSkill && tmr == old(tmr) + 1
      ensures old(bombs) == [] ==> bombs == []
    {
      var shift := LeftShift in f.pressed;
      EarlyEventsSpend(Fresh(score, bird.waitSkill), f.events, shift, FacingDegrees(bird.dire));
      var quit, fired := HandleEvents(f.events, shift);
      if quit {
        return Quitted;
      }
      outcome := Round(f);
    }

    /** The frame after the events: the ramp and the timed spawn, then, unless an
        enemy touches the player, `Battle`. A frame that pauses for the skill screen
        has ramped and spawned before it pauses. */
    method Round(f: EarlyFrame) returns (outcome: EarlyOutcome)
      requires Valid()
      modifies this, bird
      ensures Valid()
      ensures outcome != Quitted
      ensures score >= old(score)
      ensures if old(tmr / 50 - lastEnemyIncrease >= 5)
        then enemiesPerSpawn == old(enemiesPerSpawn) + 2 && lastEnemyIncrease == old(tmr) / 50
        else enemiesPerSpawn == old(enemiesPerSpawn) && lastEnemyIncrease == old(lastEnemyIncrease)
      ensures var spawned := old(emys) + (if old(tmr) % SpawnPeriod == 0 then [CenteredAt(f.enemyAt.0, f.enemyAt.1, sizes.enemy.0, sizes.enemy.1)] else []);
        && (HitsAny(old(bird.rect), spawned) ==> outcome == Defeated && emys == spawned)
        && (old(bombs) == [] ==> (outcome == Defeated <==> HitsAny(old(bird.rect), spawned)))
      ensures outcome == Paused ==> bird.waitSkill && tmr == old(tmr)
      ensures outcome != Defeated ==> (outcome == Paused <==> bird.waitSkill)
      ensures outcome == Running ==> tmr == old(tmr) + 1
      ensures old(bombs) == [] ==> bombs == []
    {
      Ramp();
      Spawn(f.enemyAt);
      if HitsAny(bird.rect, emys) {
        return Defeated;
      }
      outcome := Battle(f);
    }

    /** The companions and fields (`Fight`), then the player's contact with a bomb,
        the skill screen's pause, and the frame's movements and countdowns. */
    method Battle(f: EarlyFrame) returns (outcome: EarlyOutcome)
      requires Valid()
      modifies this, bird
      ensures Valid()
      ensures outcome == Defeated || outcome == Paused || outcome == Running
      ensures score >= old(score)
      ensures enemiesPerSpawn == old(enemiesPerSpawn) && lastEnemyIncrease == old(lastEnemyIncrease)
      ensures outcome == Paused ==> bird.waitSkill && tmr == old(tmr)
      ensures outcome != Defeated ==> (outcome == Paused <==> bird.waitSkill)
      ensures outcome == Running ==> tmr == old(tmr) + 1
      ensures old(bombs) == [] ==> bombs == [] && outcome != Defeated
    {
      Fight();
      if Touching(bird.rect, bombs) != [] {
        bombs := Untouched(bird.rect, bombs);
        return Defeated;
      }
      if bird.waitSkill {
        return Paused;
      }
      Advance(f);
      tmr := tmr + 1;
      outcome := Running;
    }
  }

  /** Once the window is closed, later events change nothing. */
  lemma {:induction false} EarlyQuitSticks(s: Effect, evs: seq<EarlyEvent>, n: nat, shift: bool, facing: real)
    requires n <= |evs| && EarlyEvents(s, evs[..n], shift, facing).quit
    ensures EarlyEvents(s, evs, shift, facing) == EarlyEvents(s, evs[..n], shift, facing)
    decreases |evs| - n
  {
    if n < |evs| {
      var init := evs[..|evs| - 1];
      assert init[..n] == evs[..n];
      EarlyQuitSticks(s, init, n, shift, facing);
    } else {
      assert evs[..n] == evs;
    }
  }
}
