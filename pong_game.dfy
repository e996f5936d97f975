/** The rules of PongGame.java: the per-frame update, the collision and scoring rules,
    starting a new game, the frame-rate measurement and the touch handling. Drawing,
    sound loading and the game thread are not part of this model. */
module Pong {
  import opened Geometry
  import JavaArith
  import BallModel
  import BatModel

  /** MILLIS_IN_SECOND */
  const MillisInSecond: int := 1000
  /** The lives a new game starts with. */
  const StartingLives: int := 3

  datatype Option<T> = None | Some(value: T)

  /** The cue a collision plays: beep.ogg on the bat, boop.ogg on the top wall,
      bop.ogg on a side wall, miss.ogg on the bottom edge. */
  datatype Sound = Beep | Boop | Bop | Miss

  /** A touch, already decoded from its MotionEvent: a finger put down at x, a finger
      lifted, or any other action, which the game ignores. */
  datatype TouchEvent = Down(x: real) | Up | OtherAction

  /** What happens to the game: one turn of the game loop whose frame took `elapsed`
      milliseconds, or a touch delivered between two turns. */
  datatype Event = Tick(elapsed: int) | Touched(touch: TouchEvent)

  /** A snapshot of the game: the ball, the bat, score, lives, paused, FPS, the screen size
      and the cues played so far. */
  datatype GameState = GameState(
    ball: BallModel.BallState, bat: BatModel.BatState,
    score: int, lives: int, paused: bool, fps: int,
    screenX: int, screenY: int, played: seq<Sound>)

  /** What holds between any two turns of a running game. */
  predicate Inv(g: GameState)
  {
    1 <= g.lives <= StartingLives && 0 <= g.score && 0 <= g.fps &&
    BallModel.Shaped(g.ball) &&
    g.ball.width == g.ball.height == JavaArith.Div(g.screenX, 100) as real &&
    g.bat.screenX == g.screenX && BatModel.Fits(g.bat) && BatModel.InBounds(g.bat)
  }

  /** The fields of a new game object before its constructor calls startNewGame: paused,
      FPS, score and lives at Java's initial values, nothing played yet. */
  function Constructed(x: int, y: int): GameState
  {
    GameState(BallModel.Created(x), BatModel.Created(x, y), 0, 0, true, 0, x, y, [])
  }

  /** startNewGame(): the ball back at its start, score 0 and three lives; nothing else changes. */
  function NewGame(g: GameState): (r: GameState)
    ensures r.score == 0 && r.lives == StartingLives
    ensures r.ball == BallModel.Restart(g.ball, g.screenX, g.screenY)
    ensures r == g.(ball := r.ball, score := 0, lives := StartingLives)
  {
    g.(ball := BallModel.Restart(g.ball, g.screenX, g.screenY), score := 0, lives := StartingLives)
  }

  /** A game built on a screen of non-negative width starts in the invariant, paused. */
  lemma ConstructedIsValid(x: int, y: int)
    requires 0 <= x
    ensures Inv(NewGame(Constructed(x, y))) && NewGame(Constructed(x, y)).paused
  {
  }

  /** update(): the ball and then the bat move by one frame at the last measured FPS. */
  function Moved(g: GameState): (r: GameState)
    requires g.fps > 0
    ensures r.ball == BallModel.Advance(g.ball, g.fps) && r.bat == BatModel.Advance(g.bat, g.fps)
    ensures r == g.(ball := r.ball, bat := r.bat)
    ensures Inv(g) ==> Inv(r)
  {
    g.(ball := BallModel.Advance(g.ball, g.fps), bat := BatModel.Advance(g.bat, g.fps))
  }

  /** The first rule of detectCollisions: when the bat and the ball intersect, the ball
      bounces off the bat and speeds up, and the score rises by exactly one. */
  function HitBat(g: GameState): (r: GameState)
    ensures var hit := Intersects(g.bat.rect, g.ball.rect);
      r.score == (if hit then g.score + 1 else g.score) &&
      r.played == g.played + (if hit then [Beep] else [])
    ensures Intersects(g.bat.rect, g.ball.rect) ==>
      r.ball == BallModel.Increase(BallModel.BounceOff(g.ball, g.bat.rect)) &&
      r.ball.yVel == -g.ball.yVel * BallModel.SpeedUp &&
      BallModel.Abs(r.ball.xVel) == BallModel.Abs(g.ball.xVel) * BallModel.SpeedUp
    ensures !Intersects(g.bat.rect, g.ball.rect) ==> r == g
    ensures r == g.(ball := r.ball, score := r.score, played := r.played)
    ensures r.ball.rect == g.ball.rect && r.ball.width == g.ball.width && r.ball.height == g.ball.height
  {
    if Intersects(g.bat.rect, g.ball.rect) then
      g.(ball := BallModel.Increase(BallModel.BounceOff(g.ball, g.bat.rect)),
         score := g.score + 1, played := g.played + [Beep])
    else
      g
  }

  /** The second rule: a ball below the bottom edge turns up and costs a life; losing the
      last life pauses the game and starts a new one. */
  function MissBottom(g: GameState): (r: GameState)
    ensures g.ball.rect.bottom <= g.screenY as real ==> r == g
    ensures g.ball.rect.bottom > g.screenY as real && g.lives != 1 ==>
      r == g.(ball := BallModel.ReverseY(g.ball), lives := g.lives - 1, played := g.played + [Miss])
    ensures g.ball.rect.bottom > g.screenY as real && g.lives == 1 ==>
      r.lives == StartingLives && r.score == 0 && r.paused &&
      r.ball == BallModel.Restart(g.ball, g.screenX, g.screenY) && r.played == g.played + [Miss]
    ensures r.bat == g.bat && r.fps == g.fps && r.screenX == g.screenX && r.screenY == g.screenY
  {
    if g.ball.rect.bottom > g.screenY as real then
      var g' := g.(ball := BallModel.ReverseY(g.ball), lives := g.lives - 1, played := g.played + [Miss]);
      if g'.lives == 0 then
        BallModel.RestartForgetsThePast(g.ball, g'.ball, g.screenX, g.screenY);
        NewGame(g'.(paused := true))
      else
        g'
    else
      g
  }

  /** The third rule: a ball above the top edge turns down. */
  function TopWall(g: GameState): (r: GameState)
    ensures g.ball.rect.top < 0.0 ==> r == g.(ball := BallModel.ReverseY(g.ball), played := g.played + [Boop])
    ensures g.ball.rect.top >= 0.0 ==> r == g
  {
    if g.ball.rect.top < 0.0 then g.(ball := BallModel.ReverseY(g.ball), played := g.played + [Boop]) else g
  }

  /** The fourth rule: a ball past the left or the right edge has its horizontal velocity
      reversed once, even when it is past both. */
  function SideWalls(g: GameState): (r: GameState)
    ensures var out := g.ball.rect.left < 0.0 || g.ball.rect.right > g.screenX as real;
      (out ==> r.ball.xVel == -g.ball.xVel && r.played == g.played + [Bop]) &&
      (!out ==> r == g)
    ensures r == g.(ball := r.ball, played := r.played)
    ensures r.ball == g.ball.(xVel := r.ball.xVel)
  {
    if g.ball.rect.left < 0.0 || g.ball.rect.right > g.screenX as real then
      g.(ball := BallModel.ReverseX(g.ball), played := g.played + [Bop])
    else
      g
  }

  /** detectCollisions(): the four rules in order. Across it the lives stay within 1..3,
      a hit scores exactly one point, and only the last life lost resets score and lives. */
  function Collide(g: GameState): (r: GameState)
    ensures Inv(g) ==> Inv(r)
    ensures r.bat == g.bat && r.fps == g.fps && r.screenX == g.screenX && r.screenY == g.screenY
    ensures var hit := Intersects(g.bat.rect, g.ball.rect);
      var miss := g.ball.rect.bottom > g.screenY as real;
      if miss && g.lives == 1 then
        r.lives == StartingLives && r.score == 0 && r.paused
      else
        r.lives == (if miss then g.lives - 1 else g.lives) &&
        r.score == (if hit then g.score + 1 else g.score) &&
        r.paused == g.paused
  {
    SideWalls(TopWall(MissBottom(HitBat(g))))
  }

  /** A ball resting exactly on the bat's top edge is not a hit, because RectF.intersects
      needs an overlap: with no miss either, score and lives are unchanged. */
  lemma EdgeContactIsNotAHit(g: GameState)
    requires g.bat.rect == Rect(100.0, 780.0, 200.0, 800.0)
    requires g.ball.rect == Rect(140.0, 770.0, 150.0, 780.0)
    requires 780 <= g.screenY
    ensures !Intersects(g.bat.rect, g.ball.rect)
    ensures Collide(g).score == g.score && Collide(g).lives == g.lives
  {
  }

  /** One pixel lower the same ball overlaps the bat: one point is scored, and the ball,
      whose centre is left of the bat's, leaves to the right and upwards, ten percent faster. */
  lemma OverlapIsAHit(g: GameState)
    requires g.bat.rect == Rect(100.0, 780.0, 200.0, 800.0)
    requires g.ball.rect == Rect(140.0, 771.0, 150.0, 781.0) && g.ball.width == 10.0
    requires 781 <= g.screenY && 150 <= g.screenX
    ensures Collide(g).score == g.score + 1 && Collide(g).lives == g.lives
    ensures Collide(g).ball.xVel == BallModel.Abs(g.ball.xVel) * BallModel.SpeedUp
    ensures Collide(g).ball.yVel == -g.ball.yVel * BallModel.SpeedUp
  {
    var h := HitBat(g);
    assert h.ball == BallModel.Increase(BallModel.BounceOff(g.ball, g.bat.rect));
    assert BallModel.Center(g.ball) < g.bat.rect.CenterX();
  }

  /** Losing the last life starts a new game: three lives, no score, paused, and the ball
      at the start position of reset. */
  lemma LastLifeStartsNewGame(g: GameState)
    requires Inv(g) && g.lives == 1 && g.ball.rect.bottom > g.screenY as real
    ensures Collide(g).lives == StartingLives && Collide(g).score == 0 && Collide(g).paused
    ensures Collide(g).ball == BallModel.Restart(g.ball, g.screenX, g.screenY)
  {
    var h := HitBat(g);
    var m := MissBottom(h);
    assert m.ball == BallModel.Restart(h.ball, g.screenX, g.screenY);
    BallModel.RestartForgetsThePast(h.ball, g.ball, g.screenX, g.screenY);
    assert TopWall(m) == m;
  }

  /** The frame-rate rule of run(): a frame that took elapsed > 0 milliseconds sets FPS to
      1000 / elapsed (Java long division, so a frame longer than a second gives 0); any other
      frame leaves it as it was. */
  function NextFps(fps: int, elapsed: int): (r: int)
    ensures elapsed <= 0 ==> r == fps
    ensures elapsed > 0 ==> 0 <= r && r * elapsed <= MillisInSecond < (r + 1) * elapsed
    ensures elapsed > MillisInSecond ==> r == 0
  {
    if elapsed > 0 then MillisInSecond / elapsed else fps
  }

  /** One turn of the game loop: when not paused, update and detectCollisions; then the
      frame's duration sets FPS for the next turn. A paused turn changes nothing but FPS. */
  function Frame(g: GameState, elapsed: int): (r: GameState)
    requires g.paused || g.fps > 0
    ensures r.fps == NextFps(g.fps, elapsed)
    ensures g.paused ==> r == g.(fps := r.fps)
    ensures !g.paused ==> r == Collide(Moved(g)).(fps := r.fps)
    ensures Inv(g) ==> Inv(r)
    ensures r.screenX == g.screenX && r.screenY == g.screenY
  {
    var g' := if g.paused then g else Collide(Moved(g));
    g'.(fps := NextFps(g.fps, elapsed))
  }

  /** onTouchEvent(e): a finger put down unpauses the game and moves the bat right when
      it is right of screenX / 2 (Java int division) and left otherwise, the exact middle
      included; a finger lifted stops the bat and leaves paused alone. */
  function Touch(g: GameState, t: TouchEvent): (r: GameState)
    ensures t.Down? ==> (!r.paused &&
      r.bat.moving == (if t.x > JavaArith.Div(g.screenX, 2) as real then BatModel.Right else BatModel.Left))
    ensures t.Up? ==> r.bat.moving == BatModel.Stopped && r.paused == g.paused
    ensures t.OtherAction? ==> r == g
    ensures r == g.(paused := r.paused, bat := BatModel.SetMoving(g.bat, r.bat.moving))
    ensures Inv(g) ==> Inv(r)
  {
    match t
    case Down(x) =>
      var state := if x > JavaArith.Div(g.screenX, 2) as real then BatModel.Right else BatModel.Left;
      g.(paused := false, bat := BatModel.SetMoving(g.bat, state))
    case Up => g.(bat := BatModel.SetMoving(g.bat, BatModel.Stopped))
    case OtherAction => g
  }

  /** The game driven by a sequence of turns and touches. None when a turn would run
      unpaused with FPS 0, where the source divides a float by zero. Every state reached
      from one that keeps the invariant keeps it: in particular the lives stay within 1..3. */
  function Play(g: GameState, events: seq<Event>): (r: Option<GameState>)
    ensures Inv(g) && r.Some? ==> Inv(r.value)
    ensures r.Some? ==> r.value.screenX == g.screenX && r.value.screenY == g.screenY
    decreases |events|
  {
    if events == [] then Some(g)
    else match events[0]
      case Touched(t) => Play(Touch(g, t), events[1..])
      case Tick(elapsed) =>
        if !g.paused && g.fps <= 0 then None else Play(Frame(g, elapsed), events[1..])
  }

  /** The game object: score, lives, paused and FPS are fields changed in place, and it
      owns one ball and one bat. */
  class PongGame {
    var fps: int
    const screenX: int
    const screenY: int
    const bat: BatModel.Bat
    const ball: BallModel.Ball
    var score: int
    var lives: int
    var paused: bool
    var played: seq<Sound>

    function State(): GameState
      reads this, ball, bat
    {
      GameState(ball.State(), bat.State(), score, lives, paused, fps, screenX, screenY, played)
    }

    predicate Valid()
      reads this, ball, bat
    {
      Inv(State())
    }

    constructor (x: int, y: int)
      ensures State() == NewGame(Constructed(x, y))
      ensures 0 <= x ==> Valid()
      ensures fresh(ball) && fresh(bat)
    {
      screenX := x;
      screenY := y;
      ball := new BallModel.Ball(x);
      bat := new BatModel.Bat(x, y);
      fps, score, lives, paused, played := 0, 0, 0, true, [];
      new;
      StartNewGame();
    }

    method StartNewGame()
      modifies this, ball
      ensures State() == NewGame(old(State()))
    {
      ball.Reset(screenX, screenY);
      score := 0;
      lives := StartingLives;
    }

    method Update()
      requires fps > 0
      modifies ball, bat
      ensures State() == Moved(old(State()))
    {
      ball.Update(fps);
      bat.Update(fps);
    }

    method DetectCollisions()
      modifies this, ball
      ensures State() == Collide(old(State()))
    {
      ghost var g0 := State();
      if Intersects(bat.rect, ball.rect) {
        ball.BatBounce(bat.rect);
        ball.IncreaseVelocity();
        score := score + 1;
        played := played + [Beep];
      }
      ghost var g1 := State();
      assert g1 == HitBat(g0);
      if ball.rect.bottom > screenY as real {
        ball.ReverseYVelocity();
        lives := lives - 1;
        played := played + [Miss];
        if lives == 0 {
          paused := true;
          StartNewGame();
        }
      }
      ghost var g2 := State();
      assert g2 == MissBottom(g1);
      if ball.rect.top < 0.0 {
        ball.ReverseYVelocity();
        played := played + [Boop];
      }
      assert State() == TopWall(g2);
      if ball.rect.left < 0.0 || ball.rect.right > screenX as real {
        ball.ReverseXVelocity();
        played := played + [Bop];
      }
    }

    /** One turn of the `while (playing)` loop of run(); `elapsed` is the frame's measured
      duration in milliseconds. */
    method RunFrame(elapsed: int)
      requires paused || fps > 0
      modifies this, ball, bat
      ensures State() == Frame(old(State()), elapsed)
    {
      if !paused {
        Update();
        DetectCollisions();
      }
      if elapsed > 0 {
        fps := MillisInSecond / elapsed;
      }
    }

    method OnTouchEvent(t: TouchEvent) returns (handled: bool)
      modifies this, bat
      ensures handled
      ensures State() == Touch(old(State()), t)
    {
      match t {
        case Down(x) =>
          paused := false;
          if x > JavaArith.Div(screenX, 2) as real {
            bat.SetMovementState(BatModel.Right);
          } else {
            bat.SetMovementState(BatModel.Left);
          }
        case Up =>
          bat.SetMovementState(BatModel.Stopped);
        case OtherAction =>
      }
      handled := true;
    }

    /** The game loop of run() over a given sequence of turns, with the touches that arrive
      between turns handled in between. */
    method Run(events: seq<Event>)
      requires Play(State(), events).Some?
      modifies this, ball, bat
      ensures Some(State()) == Play(old(State()), events)
      ensures old(Valid()) ==> Valid()
    {
      var i := 0;
      while i < |events|
        invariant 0 <= i <= |events|
        invariant Play(old(State()), events) == Play(State(), events[i..])
      {
        assert events[i..][1..] == events[i + 1..];
        match events[i] {
          case Tick(elapsed) =>
            RunFrame(elapsed);
          case Touched(t) =>
            var _ := OnTouchEvent(t);
        }
        i := i + 1;
      }
      assert events[i..] == [];
    }
  }
}
