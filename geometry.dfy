/** Integer screen geometry shared by both game snapshots: the window size,
    pygame's integer rectangle, the bounds test `check_bound`, the overlap test
    behind `colliderect`/`groupcollide`, the corner test that removes beams, and the
    group helpers both snapshots use: centres, volleys of shots, per-sprite
    displacements and the gravity fields' rectangles. */
module Geometry {

  const WIDTH: int := 1100
  const HEIGHT: int := 650

  /** A pygame `Rect`: top-left corner and a non-negative size. */
  datatype Rect = Rect(x: int, y: int, w: nat, h: nat)
  {
    function Left(): int { x }
    function Right(): int { x + w }
    function Top(): int { y }
    function Bottom(): int { y + h }
    /** pygame rounds the centre down: `centerx == x + w // 2`. */
    function CenterX(): int { x + w / 2 }
    function CenterY(): int { y + h / 2 }

    /** `move_ip(dx, dy)` */
    function Move(dx: int, dy: int): (r: Rect)
      ensures r.w == w && r.h == h
      ensures r.Left() - Left() == dx && r.Top() - Top() == dy
    {
      Rect(x + dx, y + dy, w, h)
    }

    /** `collidepoint`: the half-open area covered by the rectangle. */
    predicate ContainsPoint(px: int, py: int)
    {
      x <= px < x + w && y <= py < y + h
    }
  }

  /** A rectangle of the given size whose centre is `(cx, cy)` (assigning `rect.center`). */
  function CenteredAt(cx: int, cy: int, w: nat, h: nat): (r: Rect)
    ensures r.CenterX() == cx && r.CenterY() == cy && r.w == w && r.h == h
  {
    Rect(cx - w / 2, cy - h / 2, w, h)
  }

  /** The screen itself, as the gravity field's rectangle covers it. */
  const Screen: Rect := Rect(0, 0, WIDTH, HEIGHT)

  /** `check_bound`: (horizontally inside, vertically inside). */
  function CheckBound(r: Rect): (bool, bool)
  {
    var yoko := !(r.Left() < 0 || WIDTH < r.Right());
    var tate := !(r.Top() < 0 || HEIGHT < r.Bottom());
    (yoko, tate)
  }

  predicate OnScreenX(px: int) { 0 <= px <= WIDTH }
  predicate OnScreenY(py: int) { 0 <= py <= HEIGHT }

  /** The horizontal component of `check_bound` is true exactly when every column
      the rectangle spans (edges included) is a screen column, and it depends on
      the horizontal extent only; likewise vertically. */
  lemma CheckBoundSpans(r: Rect)
    ensures CheckBound(r).0 <==> forall px :: r.Left() <= px <= r.Right() ==> OnScreenX(px)
    ensures CheckBound(r).1 <==> forall py :: r.Top() <= py <= r.Bottom() ==> OnScreenY(py)
  {
    if forall px :: r.Left() <= px <= r.Right() ==> OnScreenX(px) {
      assert OnScreenX(r.Left()) && OnScreenX(r.Right());
    }
    if forall py :: r.Top() <= py <= r.Bottom() ==> OnScreenY(py) {
      assert OnScreenY(r.Top()) && OnScreenY(r.Bottom());
    }
  }

  /** Each component of `check_bound` reads only its own axis. */
  lemma CheckBoundAxesIndependent(a: Rect, b: Rect)
    ensures a.x == b.x && a.w == b.w ==> CheckBound(a).0 == CheckBound(b).0
    ensures a.y == b.y && a.h == b.h ==> CheckBound(a).1 == CheckBound(b).1
  {
  }

  /** Both components hold exactly when the rectangle lies inside the screen rectangle. */
  lemma CheckBoundInsideScreen(r: Rect)
    ensures CheckBound(r) == (true, true) <==>
      Screen.Left() <= r.Left() && r.Right() <= Screen.Right() &&
      Screen.Top() <= r.Top() && r.Bottom() <= Screen.Bottom()
  {
  }

  /** pygame's `colliderect`: rectangles of zero width or height never collide;
      otherwise the open areas must intersect (touching edges do not count). */
  predicate Overlaps(a: Rect, b: Rect)
  {
    a.w != 0 && a.h != 0 && b.w != 0 && b.h != 0 &&
    a.Left() < b.Right() && a.Top() < b.Bottom() &&
    a.Right() > b.Left() && a.Bottom() > b.Top()
  }

  /** The overlap test means: some pixel lies inside both rectangles. */
  lemma OverlapsIffSharedPoint(a: Rect, b: Rect)
    ensures Overlaps(a, b) <==> exists px, py :: a.ContainsPoint(px, py) && b.ContainsPoint(px, py)
  {
    if Overlaps(a, b) {
      var px := if a.x < b.x then b.x else a.x;
      var py := if a.y < b.y then b.y else a.y;
      assert a.ContainsPoint(px, py) && b.ContainsPoint(px, py);
    }
  }

  lemma OverlapsSymmetric(a: Rect, b: Rect)
    ensures Overlaps(a, b) == Overlaps(b, a)
  {
  }

  /** The test that removes a homing beam and a boss beam: the centre is at or
      past a vertical edge AND at or past a horizontal edge. */
  predicate BeamGone(r: Rect)
  {
    (r.CenterX() <= 0 || r.CenterX() >= WIDTH) && (r.CenterY() <= 0 || r.CenterY() >= HEIGHT)
  }

  /** A beam is removed only in the four corner regions: whenever its centre is
      strictly between the left and right edges, or strictly between the top and
      bottom edges, it stays, however far off screen it is on the other axis. */
  lemma BeamGoneOnlyInCorners(r: Rect)
    ensures 0 < r.CenterX() < WIDTH ==> !BeamGone(r)
    ensures 0 < r.CenterY() < HEIGHT ==> !BeamGone(r)
    ensures BeamGone(r) <==> !(0 < r.CenterX() < WIDTH) && !(0 < r.CenterY() < HEIGHT)
  {
  }

  /** A concrete beam far below the screen but horizontally centred is never removed. */
  lemma BeamBelowScreenSurvives()
    ensures !BeamGone(CenteredAt(WIDTH / 2, 100000, 20, 20))
  {
  }

  /** The centres of a sequence of rectangles. */
  function Centres(rs: seq<Rect>): (cs: seq<(int, int)>)
    ensures |cs| == |rs|
    ensures forall i :: 0 <= i < |rs| ==> cs[i] == (rs[i].CenterX(), rs[i].CenterY())
  {
    seq(|rs|, i requires 0 <= i < |rs| => (rs[i].CenterX(), rs[i].CenterY()))
  }

  /** Beams fired from `(cx, cy)` along the given headings (in degrees), each with the
      rectangle of the beam image rotated to its own heading: `box(a)` is the size of
      that rotated image for heading `a`. */
  function Shots(cx: int, cy: int, box: real -> (nat, nat), angles: seq<real>): (rs: seq<Rect>)
    ensures |rs| == |angles|
    ensures forall i :: 0 <= i < |angles| ==> rs[i] == CenteredAt(cx, cy, box(angles[i]).0, box(angles[i]).1)
  {
    seq(|angles|, i requires 0 <= i < |angles| => CenteredAt(cx, cy, box(angles[i]).0, box(angles[i]).1))
  }

  /** Firing two volleys one after the other fires their concatenation. */
  lemma ShotsAppend(cx: int, cy: int, box: real -> (nat, nat), a: seq<real>, b: seq<real>)
    ensures Shots(cx, cy, box, a + b) == Shots(cx, cy, box, a) + Shots(cx, cy, box, b)
  {
  }

  /** The displacement of the `i`-th sprite of a group; none if the frame gives none. */
  function MoveAt(moves: seq<(int, int)>, i: int): (int, int)
  {
    if 0 <= i < |moves| then moves[i] else (0, 0)
  }

  /** `Enemy.update` and `ClownEnemy.update` over a group: every sprite moves. */
  function Shift(rs: seq<Rect>, moves: seq<(int, int)>): (out: seq<Rect>)
    ensures |out| == |rs|
    ensures forall i :: 0 <= i < |rs| ==> out[i] == rs[i].Move(MoveAt(moves, i).0, MoveAt(moves, i).1)
  {
    seq(|rs|, i requires 0 <= i < |rs| => rs[i].Move(MoveAt(moves, i).0, MoveAt(moves, i).1))
  }

  /** A gravity field's rectangle is the whole screen. */
  function FieldRects(n: nat): (rs: seq<Rect>)
    ensures |rs| == n && forall i :: 0 <= i < n ==> rs[i] == Screen
  {
    seq(n, _ => Screen)
  }
}
