# Pong game logic in Dafny

A model of the game logic of an Android Pong clone: a ball that moves at a fixed
velocity per second, a bat along the bottom edge that the player steers by touching
the left or right half of the screen, and a game that scores a point for every bat
hit, costs a life for every ball that leaves through the bottom edge, and starts a new
game when the last of three lives is lost. Frames are measured in milliseconds and the
measured frame rate (FPS) sets how far ball and bat move in the next frame.

The model has two layers.

- Values: `Geometry.Rect` (a RectF), `BallModel.BallState`, `BatModel.BatState` and
  `Pong.GameState`, with one function per operation of the game. Their contracts state
  what each operation does, and lemmas state what holds across several of them.
- Objects: the classes `BallModel.Ball`, `BatModel.Bat` and `Pong.PongGame` hold the same
  fields as the Java classes and change them in place, statement by statement as the
  Java methods do. Each method's postcondition ties the object's new `State()` to the
  value-level function applied to its old `State()`.

Files: `java_arith.dfy` (Java's int division), `geometry.dfy` (RectF and
`RectF.intersects`), `ball.dfy` (Ball.java), `bat.dfy` (Bat.java), `pong_game.dfy`
(PongGame.java).

Modelling choices:

- Coordinates, sizes and velocities are `real`. Screen sizes, the frame duration and
  FPS are `int`.
- The Java int divisions on screen sizes (`screenX/100`, `x/2`, `y/3`, `sX/8`, `sY/40`)
  use `JavaArith.Div`, which truncates toward zero as Java does. So no sign is demanded
  of the screen size except where an invariant needs it.
- `RectF.intersects` is a library call whose source is not part of this model. It is
  taken to be Android's documented strict overlap test:
  `a.left < b.right && b.left < a.right && a.top < b.bottom && b.top < a.bottom`.
  Rectangles that only share an edge do not intersect.
- Each `SP.play` call appends its cue (`Beep`, `Miss`, `Boop`, `Bop`) to the log `played`.
- A touch is modelled as `Down(x)`, `Up` or any other action. The game ignores other actions.
- One turn of the `while (playing)` loop takes the frame's measured duration as a
  parameter. `Pong.Play` and `Pong.PongGame.Run` drive the game with a sequence of turns
  and touches. The touches are handled between turns.

Behaviour of the code worth noting:

- `reset` puts the ball's left edge, not its centre, at `x/2`.
- A ball lying exactly on the bat's top edge does not count as a hit
  (`Pong.EdgeContactIsNotAHit`).
- `setMovementState` stores any int. A state other than LEFT or RIGHT behaves like STOPPED.
- A frame with FPS 0 divides by zero in the code. It does not leave the position
  unchanged. The model therefore requires `fps > 0` for such a frame.

## Model

| member | source | states |
|---|---|---|
| JavaArith.Div | app/src/main/java/com/becroft/androidpong/Ball.java:17-18 | Java int division: the quotient's magnitude is the floor of the magnitudes' quotient and it never has the opposite sign of the dividend (rounds toward zero) |
| BallModel.Ball.constructor | app/src/main/java/com/becroft/androidpong/Ball.java:14-22 | the ball is square, `screenX/100` wide and high, and its rect is (0,0,0,0) |
| BallModel.Advance | app/src/main/java/com/becroft/androidpong/Ball.java:29-39 | for fps > 0, left and top move by exactly xVel/fps and yVel/fps; afterwards the rect is as wide and high as the ball; velocities and size unchanged |
| BallModel.Ball.Update | app/src/main/java/com/becroft/androidpong/Ball.java:29-39 | the in-place update leaves the ball in the state `Advance` gives |
| BallModel.ReverseY | app/src/main/java/com/becroft/androidpong/Ball.java:41-43 | negates yVel only; rect, xVel and size unchanged |
| BallModel.ReverseX | app/src/main/java/com/becroft/androidpong/Ball.java:45-47 | negates xVel only; rect, yVel and size unchanged |
| BallModel.ReverseTwice | app/src/main/java/com/becroft/androidpong/Ball.java:41-47 | reversing either component twice restores the ball |
| BallModel.Ball.ReverseYVelocity | app/src/main/java/com/becroft/androidpong/Ball.java:41-43 | the in-place flip gives the state `ReverseY` gives |
| BallModel.Ball.ReverseXVelocity | app/src/main/java/com/becroft/androidpong/Ball.java:45-47 | the in-place flip gives the state `ReverseX` gives |
| BallModel.Restart | app/src/main/java/com/becroft/androidpong/Ball.java:49-62 | reset: top 0, left `x/2`, the rect as wide and high as the ball, xVel `x/2`, yVel `-(y/3)` (Java int divisions), size kept; a non-negative height never sends the ball downwards, and a height of 3 or more sends it upwards |
| BallModel.RestartForgetsThePast | app/src/main/java/com/becroft/androidpong/Ball.java:49-62 | reset depends only on the ball's size, so two balls of one size land in the same state and resetting twice equals resetting once |
| BallModel.Ball.Reset | app/src/main/java/com/becroft/androidpong/Ball.java:49-62 | the in-place reset gives the state `Restart` gives |
| BallModel.Increase | app/src/main/java/com/becroft/androidpong/Ball.java:64-68 | both components multiplied by 11/10, each keeps its sign and does not shrink in magnitude; rect unchanged |
| BallModel.IncreaseCompounds | app/src/main/java/com/becroft/androidpong/Ball.java:64-68 | after n speed-ups each component is its starting value times (11/10)^n |
| BallModel.Ball.IncreaseVelocity | app/src/main/java/com/becroft/androidpong/Ball.java:64-68 | the in-place speed-up gives the state `Increase` gives |
| BallModel.BounceOff | app/src/main/java/com/becroft/androidpong/Ball.java:71-96 | ball centre strictly left of the bat centre: xVel becomes abs(xVel); otherwise, a tie included, -abs(xVel); abs(xVel) kept, yVel negated, the ball's rect and size unchanged (the bat rect is a value, read only) |
| BallModel.CentredHitGoesLeft | app/src/main/java/com/becroft/androidpong/Ball.java:83-91 | a ball centred exactly on the bat and moving sideways leaves to the left |
| BallModel.Ball.BatBounce | app/src/main/java/com/becroft/androidpong/Ball.java:71-96 | the in-place bounce gives the state `BounceOff` gives |
| BatModel.Created | app/src/main/java/com/becroft/androidpong/Bat.java:22-45 | length `sX/8`, height `sY/40`, x `sX/2`, speed `sX`, STOPPED; the rect spans x to x + length and its bottom is on the screen's bottom edge; for sX >= 0 the bat fits the screen and lies within it |
| BatModel.Bat.constructor | app/src/main/java/com/becroft/androidpong/Bat.java:24-45 | the constructed object is in the state `Created` gives |
| BatModel.SetMoving | app/src/main/java/com/becroft/androidpong/Bat.java:53-55 | stores any int as the movement state and changes nothing else |
| BatModel.Bat.SetMovementState | app/src/main/java/com/becroft/androidpong/Bat.java:53-55 | the in-place store gives the state `SetMoving` gives |
| BatModel.Advance | app/src/main/java/com/becroft/androidpong/Bat.java:57-76 | for any fps > 0 and any movement state: if 0 <= length <= screenX then afterwards 0 <= x and x + length <= screenX; rect.left = x and rect.right = x + length, top and bottom unchanged; LEFT/RIGHT with an in-bounds target move by exactly speed/fps; a target below 0 gives 0 and one past the edge gives screenX - length; any other state on an in-bounds bat changes nothing |
| BatModel.Bat.Update | app/src/main/java/com/becroft/androidpong/Bat.java:57-76 | the in-place move-then-clamp gives the state `Advance` gives |
| Pong.NewGame | app/src/main/java/com/becroft/androidpong/PongGame.java:125-134 | score 0, lives 3, the ball reset to its start for the screen size; nothing else changes |
| Pong.ConstructedIsValid | app/src/main/java/com/becroft/androidpong/PongGame.java:68-123 | a game built on a screen of non-negative width starts paused and in the invariant (lives 1..3, score >= 0, ball shaped and `screenX/100` square, bat within the screen) |
| Pong.PongGame.constructor | app/src/main/java/com/becroft/androidpong/PongGame.java:68-123 | a new game is a new ball and bat, paused, FPS 0, after startNewGame; valid for a non-negative width |
| Pong.PongGame.StartNewGame | app/src/main/java/com/becroft/androidpong/PongGame.java:125-134 | the in-place reset gives the state `NewGame` gives |
| Pong.Moved | app/src/main/java/com/becroft/androidpong/PongGame.java:232-237 | ball and bat each advance one frame at the current FPS; nothing else changes; the invariant is kept |
| Pong.PongGame.Update | app/src/main/java/com/becroft/androidpong/PongGame.java:232-237 | the in-place update gives the state `Moved` gives |
| Pong.HitBat | app/src/main/java/com/becroft/androidpong/PongGame.java:269-275 | on intersection: the ball is bounced then sped up (yVel becomes -1.1 yVel, abs(xVel) grows by 1.1), score rises by exactly 1 and a beep is played; without intersection nothing changes |
| Pong.MissBottom | app/src/main/java/com/becroft/androidpong/PongGame.java:279-288 | a ball below screenY has yVel reversed and costs a life, with a miss cue; on the last life the game is paused and a new game started (3 lives, score 0, ball reset); otherwise nothing changes |
| Pong.TopWall | app/src/main/java/com/becroft/androidpong/PongGame.java:289-293 | top < 0 reverses yVel (with a cue); otherwise nothing changes |
| Pong.SideWalls | app/src/main/java/com/becroft/androidpong/PongGame.java:294-298 | left < 0 or right > screenX reverses xVel exactly once, even when both hold, with one cue; otherwise nothing changes |
| Pong.Collide | app/src/main/java/com/becroft/androidpong/PongGame.java:267-299 | detectCollisions keeps the invariant; without a new game lives drop by one on a miss only and score rises by one on a hit only; losing the last life gives 3 lives, score 0, paused |
| Pong.EdgeContactIsNotAHit | app/src/main/java/com/becroft/androidpong/PongGame.java:269 | a ball whose bottom lies exactly on the bat's top edge is not a hit and leaves score and lives alone |
| Pong.OverlapIsAHit | app/src/main/java/com/becroft/androidpong/PongGame.java:269-275 | an overlapping ball left of the bat's centre scores one point and leaves right and upwards, 1.1 times faster |
| Pong.LastLifeStartsNewGame | app/src/main/java/com/becroft/androidpong/PongGame.java:280-288 | losing the last life leaves 3 lives, score 0, paused and the ball exactly at its reset position |
| Pong.PongGame.DetectCollisions | app/src/main/java/com/becroft/androidpong/PongGame.java:267-299 | the four in-place rules give the state `Collide` gives |
| Pong.NextFps | app/src/main/java/com/becroft/androidpong/PongGame.java:221-228 | elapsed > 0: FPS is the whole number of frames of that length in a second (0 when elapsed > 1000); otherwise FPS unchanged |
| Pong.Frame | app/src/main/java/com/becroft/androidpong/PongGame.java:205-229 | a paused turn changes only FPS; an unpaused turn moves ball and bat at the previous frame's FPS, then applies detectCollisions; every turn sets FPS by the frame-rate rule and keeps the invariant |
| Pong.PongGame.RunFrame | app/src/main/java/com/becroft/androidpong/PongGame.java:205-229 | one in-place turn of the loop gives the state `Frame` gives |
| Pong.Touch | app/src/main/java/com/becroft/androidpong/PongGame.java:240-265 | down: unpaused, bat RIGHT iff x > screenX/2, otherwise LEFT (the exact middle included); up: bat STOPPED, paused unchanged; other actions change nothing; only paused and the bat's state change; the invariant is kept |
| Pong.PongGame.OnTouchEvent | app/src/main/java/com/becroft/androidpong/PongGame.java:240-265 | the in-place handling gives the state `Touch` gives and reports the event handled |
| Pong.Play | app/src/main/java/com/becroft/androidpong/PongGame.java:200-230 | over any sequence of turns and touches the invariant holds after every step: lives stay within 1..3, score >= 0, the bat stays within the screen |
| Pong.PongGame.Run | app/src/main/java/com/becroft/androidpong/PongGame.java:200-230 | the loop over turns and touches ends in the state `Play` gives and keeps `Valid()` |

## Left out

- Drawing (`draw`, `printDebuggingText`, the canvas, paint and surface holder): rendering
  has no effect on the game state.
- Sound loading (the SoundPool construction, the asset files and the IOException path):
  this is platform I/O. Playing a cue is modelled as appending it to `played`.
- The game thread (`pause`, `resume`, the `volatile playing` flag, `Thread.join`) and the
  clock: these are concurrency and I/O. One loop turn takes the measured frame duration
  as a parameter, and touches are handled between turns.
- The font sizes computed by the constructor: they are used only for drawing.
- `getRect` / `getmRect` return a live reference to the rectangle. Every caller only reads
  it, so the model passes the rectangle by value.
- Float rounding: coordinates and velocities are reals. The factor `1.1f` is taken as
  exactly 11/10, though the float literal is not exactly 11/10. Int-to-float conversions
  are taken as exact.
- BallModel.Advance and BatModel.Advance require fps > 0. With FPS 0, which is its initial
  value and the value after a frame longer than a second, the source divides a float by
  zero and gets infinities or NaN. The model does not include IEEE infinities.
- Pong.Play gives no state once a turn would run unpaused with FPS 0, for the same reason.
- The overflow of `score` past 2^31 - 1: it would take that many bat hits.
- MotionEvent decoding (action masking, multi-touch): this is input plumbing. A touch
  arrives already decoded.
