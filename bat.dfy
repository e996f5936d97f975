/** The player's bat of Bat.java: a horizontal paddle on the bottom edge, driven by a movement state. */
module BatModel {
  import opened Geometry
  import JavaArith

  /** The movement states; the field holding one is a plain int that accepts any value. */
  const Stopped: int := 0
  const Left: int := 1
  const Right: int := 2

  /** A snapshot of a bat: mRect, mLength, mXCoord, mBatSpeed, mScreenX, mBatMoving. */
  datatype BatState = BatState(rect: Rect, length: real, x: real, speed: real, screenX: int, moving: int)

  /** The bat is no longer than the screen is wide: what the clamp needs. */
  predicate Fits(b: BatState)
  {
    0.0 <= b.length <= b.screenX as real
  }

  /** The bat lies within the screen and its rectangle's horizontal edges follow its position. */
  predicate InBounds(b: BatState)
  {
    0.0 <= b.x && b.x + b.length <= b.screenX as real &&
    b.rect.left == b.x && b.rect.right == b.x + b.length
  }

  /** new Bat(sX, sY): an eighth of the screen wide, a fortieth of it high (Java int divisions),
      its left edge at the middle of the screen, sitting on the bottom edge, crossing the
      screen in one second, and stopped. */
  function Created(sX: int, sY: int): (b: BatState)
    ensures b.length == JavaArith.Div(sX, 8) as real && b.x == JavaArith.Div(sX, 2) as real
    ensures b.speed == sX as real && b.screenX == sX && b.moving == Stopped
    ensures b.rect.left == b.x && b.rect.right == b.x + b.length
    ensures b.rect.bottom == sY as real && b.rect.Height() == JavaArith.Div(sY, 40) as real
    ensures 0 <= sX ==> Fits(b) && InBounds(b)
  {
    var length := JavaArith.Div(sX, 8) as real;
    var height := JavaArith.Div(sY, 40) as real;
    var x := JavaArith.Div(sX, 2) as real;
    var y := sY as real - height;
    BatState(Rect(x, y, x + length, y + height), length, x, sX as real, sX, Stopped)
  }

  /** setMovementState(state): any int is stored unchecked. */
  function SetMoving(b: BatState, state: int): (r: BatState)
    ensures r.moving == state
    ensures r.rect == b.rect && r.length == b.length && r.x == b.x && r.speed == b.speed && r.screenX == b.screenX
  {
    b.(moving := state)
  }

  /** Where the bat heads this frame before it is clamped: speed / fps to the left or the
      right, or nowhere for STOPPED and for every value that is neither LEFT nor RIGHT. */
  function Target(b: BatState, fps: int): real
    requires fps > 0
  {
    var x := if b.moving == Left then b.x - b.speed / fps as real else b.x;
    if b.moving == Right then x + b.speed / fps as real else x
  }

  /** update(fps): move towards the target, clamp into [0, screenX - length], then
      move the rectangle's left and right edges to the new position. */
  function Advance(b: BatState, fps: int): (r: BatState)
    requires fps > 0
    ensures Fits(b) ==> InBounds(r)
    ensures r.rect.left == r.x && r.rect.right == r.x + b.length
    ensures r.rect.top == b.rect.top && r.rect.bottom == b.rect.bottom
    ensures r.length == b.length && r.speed == b.speed && r.screenX == b.screenX && r.moving == b.moving
    ensures var t := Target(b, fps);
      (t < 0.0 ==> r.x == 0.0) &&
      (0.0 <= t && t + b.length > b.screenX as real ==> r.x == b.screenX as real - b.length) &&
      (0.0 <= t && t + b.length <= b.screenX as real ==> r.x == t)
    ensures b.moving == Left && 0.0 <= Target(b, fps) && Target(b, fps) + b.length <= b.screenX as real
      ==> r.x == b.x - b.speed / fps as real
    ensures b.moving == Right && 0.0 <= Target(b, fps) && Target(b, fps) + b.length <= b.screenX as real
      ==> r.x == b.x + b.speed / fps as real
    ensures b.moving != Left && b.moving != Right && InBounds(b) ==> r == b
  {
    var t := Target(b, fps);
    var x := if t < 0.0 then 0.0 else if t + b.length > b.screenX as real then b.screenX as real - b.length else t;
    b.(x := x, rect := b.rect.(left := x, right := x + b.length))
  }

  /** The bat object: mRect and mXCoord are changed in place every frame. */
  class Bat {
    var rect: Rect
    var length: real
    var x: real
    var speed: real
    var screenX: int
    var moving: int

    function State(): BatState
      reads this
    {
      BatState(rect, length, x, speed, screenX, moving)
    }

    constructor (sX: int, sY: int)
      ensures State() == Created(sX, sY)
    {
      screenX := sX;
      var len := JavaArith.Div(sX, 8) as real;
      var height := JavaArith.Div(sY, 40) as real;
      var xCoord := JavaArith.Div(sX, 2) as real;
      var yCoord := sY as real - height;
      length, x := len, xCoord;
      rect := Rect(xCoord, yCoord, xCoord + len, yCoord + height);
      speed := sX as real;
      moving := Stopped;
    }

    method SetMovementState(state: int)
      modifies this
      ensures State() == SetMoving(old(State()), state)
    {
      moving := state;
    }

    method Update(fps: int)
      requires fps > 0
      modifies this
      ensures State() == Advance(old(State()), fps)
    {
      if moving == Left {
        x := x - speed / fps as real;
      }
      if moving == Right {
        x := x + speed / fps as real;
      }
      if x < 0.0 {
        x := 0.0;
      } else if x + length > screenX as real {
        x := screenX as real - length;
      }
      rect := rect.(left := x);
      rect := rect.(right := x + length);
    }
  }
}
