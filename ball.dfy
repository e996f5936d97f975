/** The ball of Ball.java: a square rectangle moved by an (x, y) velocity in pixels per second. */
module BallModel {
  import opened Geometry
  import JavaArith

  /** The factor of increaseVelocity: the float literal 1.1f, taken as exactly 11/10. */
  const SpeedUp: real := 11.0 / 10.0

  /** A snapshot of a ball: mRect, mXVelocity, mYVelocity, mBallWidth, mBallHeight. */
  datatype BallState = BallState(rect: Rect, xVel: real, yVel: real, width: real, height: real)

  /** Math.abs on a float. */
  function Abs(v: real): (r: real)
    ensures 0.0 <= r && (r == v || r == -v)
  {
    if v < 0.0 then -v else v
  }

  /** The rectangle has the ball's size: what update and reset establish. */
  predicate Shaped(b: BallState)
  {
    b.rect.Width() == b.width && b.rect.Height() == b.height
  }

  /** The centre the bounce compares: the left edge plus half the ball's width. */
  function Center(b: BallState): real
  {
    b.rect.left + b.width / 2.0
  }

  /** new Ball(screenX): a square of screenX / 100 pixels (Java int division),
      all four edges at 0 and both velocities at Java's default 0. */
  function Created(screenX: int): BallState
  {
    var size := JavaArith.Div(screenX, 100) as real;
    BallState(Rect(0.0, 0.0, 0.0, 0.0), 0.0, 0.0, size, size)
  }

  /** update(fps): one frame of straight-line motion; the top-left corner moves by
      velocity / fps and the bottom-right corner is recomputed from the ball's size. */
  function Advance(b: BallState, fps: int): (r: BallState)
    requires fps > 0
    ensures Shaped(r)
    ensures r.rect.left - b.rect.left == b.xVel / fps as real
    ensures r.rect.top - b.rect.top == b.yVel / fps as real
    ensures r.xVel == b.xVel && r.yVel == b.yVel
    ensures r.width == b.width && r.height == b.height
  {
    var left := b.rect.left + b.xVel / fps as real;
    var top := b.rect.top + b.yVel / fps as real;
    b.(rect := Rect(left, top, left + b.width, top + b.height))
  }

  /** reverseYVelocity() */
  function ReverseY(b: BallState): (r: BallState)
    ensures r.yVel == -b.yVel
    ensures r.rect == b.rect && r.xVel == b.xVel && r.width == b.width && r.height == b.height
  {
    b.(yVel := -b.yVel)
  }

  /** reverseXVelocity() */
  function ReverseX(b: BallState): (r: BallState)
    ensures r.xVel == -b.xVel
    ensures r.rect == b.rect && r.yVel == b.yVel && r.width == b.width && r.height == b.height
  {
    b.(xVel := -b.xVel)
  }

  /** Reversing a component twice gives back the ball unchanged. */
  lemma ReverseTwice(b: BallState)
    ensures ReverseX(ReverseX(b)) == b
    ensures ReverseY(ReverseY(b)) == b
  {
  }

  /** reset(x, y): the ball's left edge at x / 2 and its top at 0, heading up at y / 3
      and right at x / 2 pixels per second (all Java int divisions); the size is kept. */
  function Restart(b: BallState, x: int, y: int): (r: BallState)
    ensures Shaped(r)
    ensures r.rect.top == 0.0 && r.rect.left == JavaArith.Div(x, 2) as real
    ensures r.yVel == -(JavaArith.Div(y, 3) as real) && r.xVel == JavaArith.Div(x, 2) as real
    ensures r.width == b.width && r.height == b.height
    ensures 0 <= y ==> r.yVel <= 0.0
    ensures 3 <= y ==> r.yVel < 0.0
  {
    var half := JavaArith.Div(x, 2) as real;
    BallState(Rect(half, 0.0, half + b.width, b.height), half, -(JavaArith.Div(y, 3) as real), b.width, b.height)
  }

  /** Where reset puts the ball depends only on the ball's size: so resetting twice is resetting once. */
  lemma RestartForgetsThePast(b: BallState, c: BallState, x: int, y: int)
    requires b.width == c.width && b.height == c.height
    ensures Restart(b, x, y) == Restart(c, x, y)
    ensures Restart(Restart(b, x, y), x, y) == Restart(b, x, y)
  {
  }

  /** increaseVelocity(): both components grow by ten percent. */
  function Increase(b: BallState): (r: BallState)
    ensures r.xVel == b.xVel * SpeedUp && r.yVel == b.yVel * SpeedUp
    ensures (r.xVel < 0.0 <==> b.xVel < 0.0) && (r.xVel > 0.0 <==> b.xVel > 0.0)
    ensures (r.yVel < 0.0 <==> b.yVel < 0.0) && (r.yVel > 0.0 <==> b.yVel > 0.0)
    ensures Abs(r.xVel) >= Abs(b.xVel) && Abs(r.yVel) >= Abs(b.yVel)
    ensures r.rect == b.rect && r.width == b.width && r.height == b.height
  {
    b.(xVel := b.xVel * SpeedUp, yVel := b.yVel * SpeedUp)
  }

  /** n successive calls of increaseVelocity. */
  function IncreaseTimes(b: BallState, n: nat): BallState
  {
    if n == 0 then b else Increase(IncreaseTimes(b, n - 1))
  }

  function Power(base: real, n: nat): real
  {
    if n == 0 then 1.0 else base * Power(base, n - 1)
  }

  /** The speed-up compounds: after n bat hits each component is its starting value times 1.1^n. */
  lemma {:induction false} IncreaseCompounds(b: BallState, n: nat)
    ensures IncreaseTimes(b, n) == b.(xVel := b.xVel * Power(SpeedUp, n), yVel := b.yVel * Power(SpeedUp, n))
  {
    if n > 0 {
      IncreaseCompounds(b, n - 1);
      var p := Power(SpeedUp, n - 1);
      assert b.xVel * p * SpeedUp == b.xVel * (SpeedUp * p);
      assert b.yVel * p * SpeedUp == b.yVel * (SpeedUp * p);
    }
  }

  /** batBounce(bat): a ball whose centre is strictly left of the bat's centre is sent right,
      any other ball (an exact tie included) is sent left, at the same horizontal speed;
      the vertical velocity is reversed and nothing else changes. */
  function BounceOff(b: BallState, bat: Rect): (r: BallState)
    ensures Center(b) < bat.CenterX() ==> r.xVel == Abs(b.xVel) && r.xVel >= 0.0
    ensures Center(b) >= bat.CenterX() ==> r.xVel == -Abs(b.xVel) && r.xVel <= 0.0
    ensures Abs(r.xVel) == Abs(b.xVel)
    ensures r.yVel == -b.yVel
    ensures r.rect == b.rect && r.width == b.width && r.height == b.height
  {
    var batCenter := bat.left + bat.Width() / 2.0;
    var ballCenter := b.rect.left + b.width / 2.0;
    var relativeIntersect := ballCenter - batCenter;
    var b' := if relativeIntersect < 0.0 then b.(xVel := Abs(b.xVel)) else b.(xVel := -Abs(b.xVel));
    ReverseY(b')
  }

  /** A hit dead in the middle of the bat goes left (unless the ball was not moving sideways). */
  lemma CentredHitGoesLeft(b: BallState, bat: Rect)
    requires Center(b) == bat.CenterX() && b.xVel != 0.0
    ensures BounceOff(b, bat).xVel < 0.0
  {
  }

  /** The Ball object: a RectF and the velocity, changed in place by the game loop. */
  class Ball {
    var rect: Rect
    var yVel: real
    var xVel: real
    var height: real
    var width: real

    function State(): BallState
      reads this
    {
      BallState(rect, xVel, yVel, width, height)
    }

    constructor (screenX: int)
      ensures State() == Created(screenX)
      ensures width == height == JavaArith.Div(screenX, 100) as real
      ensures rect == Rect(0.0, 0.0, 0.0, 0.0)
    {
      width := JavaArith.Div(screenX, 100) as real;
      height := JavaArith.Div(screenX, 100) as real;
      rect := Rect(0.0, 0.0, 0.0, 0.0);
      yVel, xVel := 0.0, 0.0;
    }

    method Update(fps: int)
      requires fps > 0
      modifies this
      ensures State() == Advance(old(State()), fps)
    {
      rect := rect.(left := rect.left + xVel / fps as real);
      rect := rect.(top := rect.top + yVel / fps as real);
      rect := rect.(right := rect.left + width);
      rect := rect.(bottom := rect.top + height);
    }

    method ReverseYVelocity()
      modifies this
      ensures State() == ReverseY(old(State()))
    {
      yVel := -yVel;
    }

    method ReverseXVelocity()
      modifies this
      ensures State() == ReverseX(old(State()))
    {
      xVel := -xVel;
    }

    method Reset(x: int, y: int)
      modifies this
      ensures State() == Restart(old(State()), x, y)
    {
      rect := rect.(top := 0.0);
      rect := rect.(left := JavaArith.Div(x, 2) as real);
      rect := rect.(right := JavaArith.Div(x, 2) as real + width);
      rect := rect.(bottom := height);
      yVel := -(JavaArith.Div(y, 3) as real);
      xVel := JavaArith.Div(x, 2) as real;
    }

    method IncreaseVelocity()
      modifies this
      ensures State() == Increase(old(State()))
    {
      yVel := yVel * SpeedUp;
      xVel := xVel * SpeedUp;
    }

    /** batBounce reads the bat's rectangle only, so it is passed by value. */
    method BatBounce(batPosition: Rect)
      modifies this
      ensures State() == BounceOff(old(State()), batPosition)
    {
      var batCenter := batPosition.left + batPosition.Width() / 2.0;
      var ballCenter := rect.left + width / 2.0;
      var relativeIntersect := ballCenter - batCenter;
      if relativeIntersect < 0.0 {
        xVel := Abs(xVel);
      } else {
        xVel := -Abs(xVel);
      }
      ReverseYVelocity();
    }
  }
}
