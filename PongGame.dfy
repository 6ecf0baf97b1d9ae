/** The `Game` object of Game.cpp: its fields are updated in place by the
    constructor, `Initialize`, `ProcessInput` and `UpdateGame`, each of which is
    proved to leave the fields as the matching function of PongRules says. */
module PongGame {
  import opened PongRules

  class Game {
    /** Clock reading (milliseconds) taken by the previous update. */
    var ticksCount: nat
    var isRunning: bool
    var multiplePlayerMode: bool
    var leftPaddleDir: int
    var rightPaddleDir: int
    var leftPaddlePos: Vector2
    var rightPaddlePos: Vector2
    var ballPos: Vector2
    var ballVel: Vector2

    /** The fields as one value. */
    function State(): GameState
      reads this
    {
      GameState(ticksCount, isRunning, multiplePlayerMode, leftPaddleDir, rightPaddleDir,
                leftPaddlePos, rightPaddlePos, ballPos, ballVel)
    }

    /** A game that has not read the clock yet, runs, and has both paddles at
        rest; positions and velocity are set by `Initialize`. */
    constructor (multiplePlayerMode: bool)
      ensures ticksCount == 0 && isRunning
      ensures leftPaddleDir == 0 && rightPaddleDir == 0
      ensures this.multiplePlayerMode == multiplePlayerMode
    {
      ticksCount := 0;
      isRunning := true;
      leftPaddleDir := 0;
      rightPaddleDir := 0;
      this.multiplePlayerMode := multiplePlayerMode;
    }

    /** Places the paddles and the ball (the part of `Initialize` that follows
        the platform set-up). */
    method Initialize()
      modifies this
      ensures State() == Initialized(old(State()))
    {
      leftPaddlePos := leftPaddlePos.(x := 0.0);
      leftPaddlePos := leftPaddlePos.(y := WindowWidth / 2.0);

      rightPaddlePos := rightPaddlePos.(x := WindowHeight - Thickness);
      rightPaddlePos := rightPaddlePos.(y := WindowWidth / 2.0);

      ballPos := ballPos.(x := WindowHeight / 2.0);
      ballPos := ballPos.(y := WindowWidth / 2.0);
      ballVel := ballVel.(x := -200.0);
      ballVel := ballVel.(y := 235.0);
    }

    /** The frame loop over a finite run of frames: while the game runs, sample
        the input, then update once the frame's wait is over. Drawing is not
        modelled. */
    method RunLoop(frames: seq<Frame>)
      modifies this
      ensures State() == Play(old(State()), frames)
    {
      var n := 0;
      while n < |frames| && isRunning
        invariant 0 <= n <= |frames|
        invariant Play(old(State()), frames) == Play(State(), frames[n..])
      {
        var f := frames[n];
        ProcessInput(f.events, f.keys);
        UpdateGame(ticksCount + f.elapsed);
        n := n + 1;
      }
    }

    /** Drains the event queue (a quit request stops the game), then reads the
        keyboard: Escape stops the game, W/S and I/K set the paddle directions. */
    method ProcessInput(events: seq<Event>, keys: Keys)
      modifies this
      ensures State() == Input(old(State()), events, keys)
    {
      var n := 0;
      while n < |events|
        invariant 0 <= n <= |events|
        invariant isRunning == (old(isRunning) && QuitEvent !in events[..n])
        invariant State() == old(State()).(running := isRunning)
      {
        if events[n] == QuitEvent {
          isRunning := false;
        }
        n := n + 1;
      }
      assert events[..n] == events;

      if keys.escape {
        isRunning := false;
      }

      leftPaddleDir := 0;
      if keys.w {
        leftPaddleDir := leftPaddleDir - 1;
      }
      if keys.s {
        leftPaddleDir := leftPaddleDir + 1;
      }
      assert leftPaddleDir == Direction(keys.w, keys.s);

      rightPaddleDir := 0;
      if keys.i {
        rightPaddleDir := rightPaddleDir - 1;
      }
      if keys.k {
        rightPaddleDir := rightPaddleDir + 1;
      }
      assert rightPaddleDir == Direction(keys.i, keys.k);
    }

    /** One simulation step with the clock reading `now`, taken once the frame
        time has passed since the previous update. */
    method UpdateGame(now: nat)
      requires now >= ticksCount + FrameMillis
      modifies this
      ensures State() == Step(old(State()), now)
    {
      ghost var s := State();
      var deltaTime := (now - ticksCount) as real / 1000.0;
      if deltaTime > MaxDeltaTime {
        deltaTime := MaxDeltaTime;
      }
      assert deltaTime == DeltaTime(s.ticks, now);
      ticksCount := now;

      var leftY := PaddleStep(leftPaddlePos.y, leftPaddleDir, deltaTime);
      leftPaddlePos := leftPaddlePos.(y := leftY);
      var rightY := PaddleStep(rightPaddlePos.y, rightPaddleDir, deltaTime);
      rightPaddlePos := rightPaddlePos.(y := rightY);

      MoveBall(deltaTime);

      Bounce(leftPaddlePos.y);
      Bounce(rightPaddlePos.y);
    }

    /** Integrates the ball's position over `deltaTime` seconds; specified by
        `PongRules.Advance`. */
    method MoveBall(deltaTime: real)
      modifies this`ballPos
      ensures ballPos == Advance(old(ballPos), ballVel, deltaTime)
    {
      ballPos := ballPos.(x := ballPos.x + ballVel.x * deltaTime);
      ballPos := ballPos.(y := ballPos.y + ballVel.y * deltaTime);
    }

    /** One pass of the collision cascade against the paddle whose centre is at
        `paddleY`; the source writes it out twice, once per paddle. Specified
        by `PongRules.Cascade`. */
    method Bounce(paddleY: real)
      modifies this`ballVel, this`isRunning
      ensures Rebound(ballVel, isRunning) == Cascade(ballPos, paddleY, old(ballVel), old(isRunning))
    {
      var yDiff := paddleY - ballPos.y;
      yDiff := if yDiff > 0.0 then yDiff else -yDiff;
      if yDiff <= PaddleH / 2.0 && HitBandLow <= ballPos.x <= HitBandHigh && ballVel.x < 0.0 {
        ballVel := ballVel.(x := -ballVel.x);
      } else if ballPos.x <= 0.0 {
        isRunning := false;
      } else if ballPos.x >= RightWallX && ballVel.x > 0.0 {
        ballVel := ballVel.(x := -ballVel.x);
      }
      if ballPos.y <= Thickness && ballVel.y < 0.0 {
        ballVel := ballVel.(y := -ballVel.y);
      } else if ballPos.y >= BottomWallY && ballVel.y > 0.0 {
        ballVel := ballVel.(y := -ballVel.y);
      }
    }
  }

  /** The paddle update of `UpdateGame`, done the way the source does it for
      each paddle: move by direction, speed and time, then clamp from below,
      else from above. A paddle at rest is not touched. Specified by
      `PongRules.MovePaddle`. */
  method PaddleStep(y: real, dir: int, deltaTime: real) returns (y': real)
    ensures y' == MovePaddle(y, dir, deltaTime)
  {
    y' := y;
    if dir != 0 {
      y' := y' + dir as real * PaddleVel * deltaTime;
      if y' < PaddleMinY {
        y' := PaddleMinY;
      } else if y' > PaddleMaxY {
        y' := PaddleMaxY;
      }
    }
  }
}
