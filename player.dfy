/** The player character (`Bird`): the key-to-vector table, the eight facing
    directions, and the two versions of `Bird.update` (the later one moves at a
    fixed speed; the earlier one first sets the speed from the shift key). */
module Player {
  import opened Geometry

  /** The keys the movement rules read. */
  datatype Key = Up | Down | Left | Right | LeftShift

  /** `Bird.delta`, in the dictionary's iteration order. */
  const Delta: seq<(Key, int, int)> := [(Up, 0, -1), (Down, 0, 1), (Left, -1, 0), (Right, 1, 0)]

  /** The keys of `Bird.imgs`: the eight facing directions that have an image. */
  const Facings: seq<(int, int)> := [(1, 0), (1, -1), (0, -1), (-1, -1), (-1, 0), (-1, 1), (0, 1), (1, 1)]

  /** The vector summed over the entries of `d` whose key is pressed. */
  function SumOver(d: seq<(Key, int, int)>, pressed: set<Key>): (int, int)
  {
    if d == [] then (0, 0)
    else
      var s := SumOver(d[..|d| - 1], pressed);
      var (k, mx, my) := d[|d| - 1];
      if k in pressed then (s.0 + mx, s.1 + my) else s
  }

  /** `sum_mv` after the loop over `Bird.delta`. */
  function KeyVector(pressed: set<Key>): (int, int)
  {
    SumOver(Delta, pressed)
  }

  /** Whether any entry of `d` has a pressed key. */
  predicate AnyPressed(d: seq<(Key, int, int)>, pressed: set<Key>)
  {
    exists j :: 0 <= j < |d| && d[j].0 in pressed
  }

  function Bit(b: bool): int { if b then 1 else 0 }

  /** The summed vector is "right minus left, down minus up", whatever the table order. */
  lemma KeyVectorComponents(pressed: set<Key>)
    ensures KeyVector(pressed) ==
      (Bit(Right in pressed) - Bit(Left in pressed), Bit(Down in pressed) - Bit(Up in pressed))
  {
    assert Delta[..1][..0] == [] && Delta[..2][..1] == Delta[..1];
    assert Delta[..3][..2] == Delta[..2] && Delta[..|Delta| - 1] == Delta[..3];
    assert SumOver(Delta[..1], pressed) == (0, -Bit(Up in pressed));
    assert SumOver(Delta[..2], pressed) == (0, Bit(Down in pressed) - Bit(Up in pressed));
    assert SumOver(Delta[..3], pressed) == (-Bit(Left in pressed), Bit(Down in pressed) - Bit(Up in pressed));
  }

  /** A non-zero summed vector is always one of the eight directions with an image,
      so `self.imgs[self.dire]` never fails. */
  lemma KeyVectorFacing(pressed: set<Key>)
    ensures KeyVector(pressed) != (0, 0) ==> KeyVector(pressed) in Facings
    ensures -1 <= KeyVector(pressed).0 <= 1 && -1 <= KeyVector(pressed).1 <= 1
  {
    KeyVectorComponents(pressed);
  }

  /** Pressing both keys of an axis cancels that axis. */
  lemma OppositeKeysCancel(pressed: set<Key>)
    ensures Up in pressed && Down in pressed ==> KeyVector(pressed).1 == 0
    ensures Left in pressed && Right in pressed ==> KeyVector(pressed).0 == 0
  {
    KeyVectorComponents(pressed);
  }

  /** Some movement key is pressed. */
  predicate MovementKeyPressed(pressed: set<Key>)
  {
    Up in pressed || Down in pressed || Left in pressed || Right in pressed
  }

  lemma AnyPressedDelta(pressed: set<Key>)
    ensures AnyPressed(Delta, pressed) <==> MovementKeyPressed(pressed)
  {
    if MovementKeyPressed(pressed) {
      var j := if Up in pressed then 0 else if Down in pressed then 1 else if Left in pressed then 2 else 3;
      assert Delta[j].0 in pressed;
    }
  }

  /** The speed the earlier snapshot sets while a movement key is held. */
  function ShiftSpeed(pressed: set<Key>): int
  {
    if LeftShift in pressed then 20 else 10
  }

  class Bird {
    var rect: Rect
    var dire: (int, int)
    var speed: int
    var waitSkill: bool

    /** The facing direction always has an image. */
    ghost predicate Valid()
      reads this
    {
      dire in Facings
    }

    /** `Bird(num, xy)`: the image size is a parameter of the model. */
    constructor (cx: int, cy: int, w: nat, h: nat)
      ensures Valid()
      ensures rect == CenteredAt(cx, cy, w, h) && dire == (1, 0) && speed == 10 && !waitSkill
    {
      rect := CenteredAt(cx, cy, w, h);
      dire := (1, 0);
      speed := 10;
      waitSkill := false;
    }

    /** `Bird.update` of the later snapshot: sum the pressed keys' vectors, move by
        `speed` times the sum, undo the whole move if either axis left the screen,
        and face the summed vector when it is not zero. */
    method Update(pressed: set<Key>)
      requires Valid()
      modifies this`rect, this`dire
      ensures Valid()
      ensures var v := KeyVector(pressed);
        var moved := old(rect).Move(speed * v.0, speed * v.1);
        rect == if CheckBound(moved) == (true, true) then moved else old(rect)
      ensures dire == if KeyVector(pressed) == (0, 0) then old(dire) else KeyVector(pressed)
      ensures old(CheckBound(rect)) == (true, true) ==> CheckBound(rect) == (true, true)
    {
      var sx, sy := 0, 0;
      var i := 0;
      while i < |Delta|
        invariant 0 <= i <= |Delta|
        invariant (sx, sy) == SumOver(Delta[..i], pressed)
      {
        assert Delta[..i + 1][..i] == Delta[..i];
        var (k, mx, my) := Delta[i];
        if k in pressed {
          sx, sy := sx + mx, sy + my;
        }
        i := i + 1;
      }
      assert Delta[..|Delta|] == Delta;
      KeyVectorFacing(pressed);
      rect := rect.Move(speed * sx, speed * sy);
      if CheckBound(rect) != (true, true) {
        rect := rect.Move(-speed * sx, -speed * sy);
      }
      if !(sx == 0 && sy == 0) {
        dire := (sx, sy);
      }
    }

    /** `Bird.update` of the earlier snapshot: inside the key loop, every pressed
        movement key sets the speed to 20 with the left shift key held and to 10
        without it; the move, the revert and the facing rule are as in `Update`. */
    method UpdateWithShift(pressed: set<Key>)
      requires Valid()
      modifies this`rect, this`dire, this`speed
      ensures Valid()
      ensures speed == if MovementKeyPressed(pressed) then ShiftSpeed(pressed) else old(speed)
      ensures var v := KeyVector(pressed);
        var moved := old(rect).Move(speed * v.0, speed * v.1);
        rect == if CheckBound(moved) == (true, true) then moved else old(rect)
      ensures dire == if KeyVector(pressed) == (0, 0) then old(dire) else KeyVector(pressed)
      ensures old(CheckBound(rect)) == (true, true) ==> CheckBound(rect) == (true, true)
    {
      var sx, sy := 0, 0;
      var i := 0;
      while i < |Delta|
        invariant 0 <= i <= |Delta|
        invariant (sx, sy) == SumOver(Delta[..i], pressed)
        invariant speed == if AnyPressed(Delta[..i], pressed) then ShiftSpeed(pressed) else old(speed)
        invariant rect == old(rect) && dire == old(dire)
      {
        assert Delta[..i + 1][..i] == Delta[..i];
        var (k, mx, my) := Delta[i];
        if k in pressed {
          sx, sy := sx + mx, sy + my;
          if LeftShift in pressed {
            speed := 20;
          } else {
            speed := 10;
          }
          assert Delta[..i + 1][i].0 in pressed;
        } else {
          assert AnyPressed(Delta[..i + 1], pressed) ==> AnyPressed(Delta[..i], pressed);
        }
        i := i + 1;
      }
      assert Delta[..|Delta|] == Delta;
      AnyPressedDelta(pressed);
      KeyVectorFacing(pressed);
      rect := rect.Move(speed * sx, speed * sy);
      if CheckBound(rect) != (true, true) {
        rect := rect.Move(-speed * sx, -speed * sy);
      }
      if !(sx == 0 && sy == 0) {
        dire := (sx, sy);
      }
    }
  }
}
