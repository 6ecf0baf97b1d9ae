/** The per-frame rules of the Pong game (Game.cpp), stated as functions on an
    immutable snapshot of the game's fields. The class in PongGame.dfy updates its
    fields step by step and is proved to agree with these functions. */
module PongRules {

  // ---------------------------------------------------------------------------
  // Constants. The source names the 1024 extent `window_height` and the 768
  // extent `window_width`, but uses 1024 along x and 768 along y; the names are
  // kept and their use is followed.
  // ---------------------------------------------------------------------------

  const Thickness: real := 15.0
  const PaddleH: real := 100.0
  const PaddleVel: real := 300.0
  /** Extent of the field along x (named `window_height` in the source). */
  const WindowHeight: real := 1024.0
  /** Extent of the field along y (named `window_width` in the source). */
  const WindowWidth: real := 768.0

  /** Lowest and highest centre y a paddle may take (65 and 703). */
  const PaddleMinY: real := PaddleH / 2.0 + Thickness
  const PaddleMaxY: real := WindowWidth - PaddleH / 2.0 - Thickness
  /** Inner faces of the far (right) wall and of the bottom wall (1009 and 753). */
  const RightWallX: real := WindowHeight - Thickness
  const BottomWallY: real := WindowWidth - Thickness
  /** The fixed x band in which a paddle returns the ball, for both paddles. */
  const HitBandLow: real := 20.0
  const HitBandHigh: real := 25.0
  /** Largest simulated step, in seconds. */
  const MaxDeltaTime: real := 0.05
  /** Milliseconds the frame loop waits for before it updates the game. */
  const FrameMillis: nat := 16

  datatype Vector2 = Vector2(x: real, y: real)

  /** The fields of a `Game` that the per-frame logic reads and writes. */
  datatype GameState = GameState(
    ticks: nat,
    running: bool,
    multiplayer: bool,
    leftDir: int,
    rightDir: int,
    leftPaddle: Vector2,
    rightPaddle: Vector2,
    ballPos: Vector2,
    ballVel: Vector2)

  /** One pending event from the platform's queue; only a quit request matters. */
  datatype Event = QuitEvent | OtherEvent

  /** The keys the game samples from the keyboard state. */
  datatype Keys = Keys(escape: bool, w: bool, s: bool, i: bool, k: bool)

  /** The velocity and running flag after a collision pass. */
  datatype Rebound = Rebound(vel: Vector2, running: bool)

  function Abs(x: real): real {
    if x > 0.0 then x else -x
  }

  predicate PaddleInRange(y: real) {
    PaddleMinY <= y <= PaddleMaxY
  }

  predicate IsDirection(d: int) {
    d == -1 || d == 0 || d == 1
  }

  /** What every reachable state satisfies: both paddle centres lie inside the
      clamp range and both directions are -1, 0 or 1. */
  predicate Inv(s: GameState) {
    PaddleInRange(s.leftPaddle.y) && PaddleInRange(s.rightPaddle.y) &&
    IsDirection(s.leftDir) && IsDirection(s.rightDir)
  }

  // ---------------------------------------------------------------------------
  // Start of a game
  // ---------------------------------------------------------------------------

  /** The placement done by `Initialize` once the platform is up: paddles at
      mid-height on either side, ball at the centre, fixed initial velocity. */
  function Initialized(s: GameState): (r: GameState)
    ensures r.ticks == s.ticks && r.running == s.running && r.multiplayer == s.multiplayer
    ensures r.leftDir == s.leftDir && r.rightDir == s.rightDir
    ensures PaddleInRange(r.leftPaddle.y) && PaddleInRange(r.rightPaddle.y)
    ensures r.leftPaddle.y == r.rightPaddle.y == r.ballPos.y
    ensures r.leftPaddle.x == 0.0 && r.rightPaddle.x == RightWallX
    ensures 0.0 < r.ballPos.x < RightWallX && Thickness < r.ballPos.y < BottomWallY
    ensures r.ballVel.x < 0.0 && r.ballVel.y > 0.0
    ensures IsDirection(s.leftDir) && IsDirection(s.rightDir) ==> Inv(r)
  {
    s.(leftPaddle := Vector2(0.0, WindowWidth / 2.0),
       rightPaddle := Vector2(WindowHeight - Thickness, WindowWidth / 2.0),
       ballPos := Vector2(WindowHeight / 2.0, WindowWidth / 2.0),
       ballVel := Vector2(-200.0, 235.0))
  }

  // ---------------------------------------------------------------------------
  // Input
  // ---------------------------------------------------------------------------

  /** Direction of a paddle from its up and down keys. */
  function Direction(up: bool, down: bool): (d: int)
    ensures IsDirection(d)
    ensures d == -1 <==> up && !down
    ensures d == 1 <==> down && !up
    ensures d == 0 <==> up == down
  {
    (if up then -1 else 0) + (if down then 1 else 0)
  }

  /** The state after input sampling: a quit event or Escape stops the game,
      W/S steer the left paddle and I/K the right one. */
  function Input(s: GameState, events: seq<Event>, keys: Keys): (r: GameState)
    ensures r.running == (s.running && QuitEvent !in events && !keys.escape)
    ensures r.running ==> s.running
    ensures IsDirection(r.leftDir) && IsDirection(r.rightDir)
    ensures r.leftDir == -1 <==> keys.w && !keys.s
    ensures r.leftDir == 1 <==> keys.s && !keys.w
    ensures r.rightDir == -1 <==> keys.i && !keys.k
    ensures r.rightDir == 1 <==> keys.k && !keys.i
    ensures r.ticks == s.ticks && r.multiplayer == s.multiplayer
    ensures r.leftPaddle == s.leftPaddle && r.rightPaddle == s.rightPaddle
    ensures r.ballPos == s.ballPos && r.ballVel == s.ballVel
    ensures PaddleInRange(s.leftPaddle.y) && PaddleInRange(s.rightPaddle.y) ==> Inv(r)
  {
    s.(running := s.running && QuitEvent !in events && !keys.escape,
       leftDir := Direction(keys.w, keys.s),
       rightDir := Direction(keys.i, keys.k))
  }

  // ---------------------------------------------------------------------------
  // Time and paddle motion
  // ---------------------------------------------------------------------------

  /** Seconds simulated by a frame that reads the clock at `now` (milliseconds)
      after the previous frame read it at `last`: the elapsed time, capped. */
  function DeltaTime(last: nat, now: nat): (dt: real)
    requires now >= last + FrameMillis
    ensures 0.016 <= dt <= MaxDeltaTime
    ensures dt <= (now - last) as real / 1000.0
    ensures dt == (now - last) as real / 1000.0 || dt == MaxDeltaTime
    ensures (now - last) as real / 1000.0 > MaxDeltaTime ==> dt == MaxDeltaTime
  {
    var elapsed := (now - last) as real / 1000.0;
    if elapsed > MaxDeltaTime then MaxDeltaTime else elapsed
  }

  /** Where a paddle heading in direction `dir` would be after `dt` seconds,
      before clamping. */
  function Target(y: real, dir: int, dt: real): real {
    y + dir as real * PaddleVel * dt
  }

  /** A paddle's new centre y: a paddle with direction 0 stays where it is;
      otherwise it moves at the paddle speed and is clamped to the field. */
  function MovePaddle(y: real, dir: int, dt: real): (y': real)
    ensures dir == 0 ==> y' == y
    ensures dir != 0 ==> PaddleInRange(y')
    ensures dir != 0 && PaddleInRange(Target(y, dir, dt)) ==> y' == Target(y, dir, dt)
    ensures dir != 0 && Target(y, dir, dt) < PaddleMinY ==> y' == PaddleMinY
    ensures dir != 0 && Target(y, dir, dt) > PaddleMaxY ==> y' == PaddleMaxY
    ensures PaddleInRange(y) && dt >= 0.0 ==> (dir > 0 ==> y' >= y) && (dir < 0 ==> y' <= y)
  {
    if dir == 0 then y
    else
      var moved := Target(y, dir, dt);
      if moved < PaddleMinY then PaddleMinY
      else if moved > PaddleMaxY then PaddleMaxY
      else moved
  }

  /** Where a ball at `pos` moving at `vel` is after `dt` seconds. */
  function Advance(pos: Vector2, vel: Vector2, dt: real): Vector2 {
    Vector2(pos.x + vel.x * dt, pos.y + vel.y * dt)
  }

  // ---------------------------------------------------------------------------
  // Collisions
  // ---------------------------------------------------------------------------

  /** The paddle-hit test: the ball is within half a paddle of the paddle's
      centre, inside the fixed x band, and moving left. */
  predicate PaddleHit(ball: Vector2, paddleY: real, vel: Vector2) {
    Abs(paddleY - ball.y) <= PaddleH / 2.0 &&
    HitBandLow <= ball.x <= HitBandHigh &&
    vel.x < 0.0
  }

  predicate FarWallHit(ball: Vector2, vel: Vector2) {
    ball.x >= RightWallX && vel.x > 0.0
  }

  predicate TopWallHit(ball: Vector2, vel: Vector2) {
    ball.y <= Thickness && vel.y < 0.0
  }

  predicate BottomWallHit(ball: Vector2, vel: Vector2) {
    ball.y >= BottomWallY && vel.y > 0.0
  }

  /** One pass of the collision cascade against the paddle at height `paddleY`:
      paddle hit, else leaving the field on the left, else the far wall; then,
      independently, the top wall, else the bottom wall. */
  function Cascade(ball: Vector2, paddleY: real, vel: Vector2, running: bool): (r: Rebound)
    ensures Abs(r.vel.x) == Abs(vel.x) && Abs(r.vel.y) == Abs(vel.y)
    ensures r.vel.x == vel.x || r.vel.x == -vel.x
    ensures r.vel.y == vel.y || r.vel.y == -vel.y
    ensures r.running == (running && ball.x > 0.0)
    ensures PaddleHit(ball, paddleY, vel) ==> r.vel.x == -vel.x && r.vel.x > 0.0
    ensures FarWallHit(ball, vel) ==> r.vel.x == -vel.x
    ensures r.vel.x != vel.x ==> PaddleHit(ball, paddleY, vel) || FarWallHit(ball, vel)
    ensures ball.x >= RightWallX ==> r.vel.x <= 0.0
    ensures ball.y <= Thickness ==> r.vel.y >= 0.0
    ensures ball.y >= BottomWallY ==> r.vel.y <= 0.0
    ensures r.vel.y != vel.y <==> TopWallHit(ball, vel) || BottomWallHit(ball, vel)
  {
    var (vx, run) :=
      if PaddleHit(ball, paddleY, vel) then (-vel.x, running)
      else if ball.x <= 0.0 then (vel.x, false)
      else if FarWallHit(ball, vel) then (-vel.x, running)
      else (vel.x, running);
    var vy :=
      if TopWallHit(ball, vel) then -vel.y
      else if BottomWallHit(ball, vel) then -vel.y
      else vel.y;
    Rebound(Vector2(vx, vy), run)
  }

  /** Both passes of the cascade, the first against the left paddle and the
      second against the right one. The result equals a single pass in which
      either paddle can return the ball: each velocity component is reversed at
      most once per frame. */
  function Collide(ball: Vector2, leftY: real, rightY: real, vel: Vector2, running: bool): (r: Rebound)
    ensures r.vel.x ==
      if PaddleHit(ball, leftY, vel) || PaddleHit(ball, rightY, vel) || FarWallHit(ball, vel)
      then -vel.x else vel.x
    ensures r.vel.y ==
      if TopWallHit(ball, vel) || BottomWallHit(ball, vel) then -vel.y else vel.y
    ensures r.running == (running && ball.x > 0.0)
    ensures Abs(r.vel.x) == Abs(vel.x) && Abs(r.vel.y) == Abs(vel.y)
    ensures PaddleHit(ball, leftY, vel) || PaddleHit(ball, rightY, vel) ==> r.vel.x > 0.0
    ensures ball.x >= RightWallX ==> r.vel.x <= 0.0
    ensures ball.y <= Thickness ==> r.vel.y >= 0.0
    ensures ball.y >= BottomWallY ==> r.vel.y <= 0.0
  {
    var first := Cascade(ball, leftY, vel, running);
    Cascade(ball, rightY, first.vel, first.running)
  }

  // ---------------------------------------------------------------------------
  // The simulation step
  // ---------------------------------------------------------------------------

  /** The state after one update with the clock reading `now`: the clock is
      taken, the paddles stay inside the field (the invariant holds after every
      update if it held before), the ball keeps its speed, and nothing but the
      ball can stop the game. */
  function Step(s: GameState, now: nat): (r: GameState)
    requires now >= s.ticks + FrameMillis
    ensures r.ticks == now
    ensures r.multiplayer == s.multiplayer && r.leftDir == s.leftDir && r.rightDir == s.rightDir
    ensures r.leftPaddle.x == s.leftPaddle.x && r.rightPaddle.x == s.rightPaddle.x
    ensures Abs(r.ballVel.x) == Abs(s.ballVel.x) && Abs(r.ballVel.y) == Abs(s.ballVel.y)
    ensures r.running ==> s.running
    ensures Inv(s) ==> Inv(r)
  {
    var dt := DeltaTime(s.ticks, now);
    var left := s.leftPaddle.(y := MovePaddle(s.leftPaddle.y, s.leftDir, dt));
    var right := s.rightPaddle.(y := MovePaddle(s.rightPaddle.y, s.rightDir, dt));
    var ball := Advance(s.ballPos, s.ballVel, dt);
    var hit := Collide(ball, left.y, right.y, s.ballVel, s.running);
    s.(ticks := now, leftPaddle := left, rightPaddle := right,
       ballPos := ball, ballVel := hit.vel, running := hit.running)
  }

  /** What one update does to each field, stated against the state before it. */
  lemma StepProperties(s: GameState, now: nat)
    requires now >= s.ticks + FrameMillis
    ensures var r := Step(s, now);
      && (s.leftDir == 0 ==> r.leftPaddle.y == s.leftPaddle.y)
      && (s.rightDir == 0 ==> r.rightPaddle.y == s.rightPaddle.y)
      && (s.leftDir != 0 ==> PaddleInRange(r.leftPaddle.y))
      && (s.rightDir != 0 ==> PaddleInRange(r.rightPaddle.y))
      && r.ballPos.x == s.ballPos.x + s.ballVel.x * DeltaTime(s.ticks, now)
      && r.ballPos.y == s.ballPos.y + s.ballVel.y * DeltaTime(s.ticks, now)
      && r.running == (s.running && r.ballPos.x > 0.0)
      && (PaddleHit(r.ballPos, r.leftPaddle.y, s.ballVel) || PaddleHit(r.ballPos, r.rightPaddle.y, s.ballVel) ==>
            r.ballVel.x == -s.ballVel.x && r.ballVel.x > 0.0)
      && (r.ballPos.y <= Thickness ==> r.ballVel.y >= 0.0)
      && (r.ballPos.y >= BottomWallY ==> r.ballVel.y <= 0.0)
      && (r.ballPos.x >= RightWallX ==> r.ballVel.x <= 0.0)
  {
  }

  /** The multiplayer flag plays no part in an update: in particular the far
      wall returns the ball in both modes. */
  lemma StepIgnoresMode(s: GameState, now: nat, multiplayer: bool)
    requires now >= s.ticks + FrameMillis
    ensures Step(s.(multiplayer := multiplayer), now) == Step(s, now).(multiplayer := multiplayer)
  {
  }

  /** The right paddle is tested against the same x band as the left one, so
      where the ball is outside that band the right paddle's height has no
      effect on the collision outcome. */
  lemma RightPaddleActsOnlyInHitBand(ball: Vector2, leftY: real, rightY: real, rightY': real,
                                     vel: Vector2, running: bool)
    requires !(HitBandLow <= ball.x <= HitBandHigh)
    ensures Collide(ball, leftY, rightY, vel, running) == Collide(ball, leftY, rightY', vel, running)
  {
  }

  /** With the left paddle at the top and the right paddle at the bottom, a ball
      arriving at the bottom of the left band is returned by the right paddle. */
  lemma RightPaddleReturnsBallOnLeftSide()
    ensures var r := Collide(Vector2(22.0, 700.0), PaddleMinY, PaddleMaxY, Vector2(-200.0, 235.0), true);
      r.vel == Vector2(200.0, 235.0) && r.running
  {
  }

  // ---------------------------------------------------------------------------
  // A run of frames
  // ---------------------------------------------------------------------------

  /** Milliseconds that pass between two updates: the loop waits for at least
      the frame time before it updates the game. */
  type FrameTime = n: nat | n >= FrameMillis witness FrameMillis

  /** What one iteration of the frame loop sees: the queued events, the held
      keys, and how long its wait lasted. */
  datatype Frame = Frame(events: seq<Event>, keys: Keys, elapsed: FrameTime)

  /** The state after the frame loop has run over `frames`, one input sampling
      and one update per frame, stopping as soon as the game no longer runs. */
  function Play(s: GameState, frames: seq<Frame>): (r: GameState)
    ensures Inv(s) ==> Inv(r)
    ensures r.running ==> s.running
    ensures !s.running ==> r == s
    ensures r.multiplayer == s.multiplayer
    ensures r.ticks >= s.ticks
    ensures r.leftPaddle.x == s.leftPaddle.x && r.rightPaddle.x == s.rightPaddle.x
    ensures Abs(r.ballVel.x) == Abs(s.ballVel.x) && Abs(r.ballVel.y) == Abs(s.ballVel.y)
    decreases |frames|
  {
    if frames == [] || !s.running then s
    else
      var f := frames[0];
      var sampled := Input(s, f.events, f.keys);
      Play(Step(sampled, sampled.ticks + f.elapsed), frames[1..])
  }

  /** Running the loop over two runs of frames one after the other is running
      it over their concatenation. */
  lemma {:induction false} PlayConcat(s: GameState, a: seq<Frame>, b: seq<Frame>)
    ensures Play(s, a + b) == Play(Play(s, a), b)
    decreases |a|
  {
    if a == [] {
      assert a + b == b;
    } else if s.running {
      var f := a[0];
      var sampled := Input(s, f.events, f.keys);
      var next := Step(sampled, sampled.ticks + f.elapsed);
      assert (a + b)[0] == f;
      assert (a + b)[1..] == a[1..] + b;
      PlayConcat(next, a[1..], b);
      assert Play(s, a) == Play(next, a[1..]);
      assert Play(s, a + b) == Play(next, a[1..] + b);
    }
  }

  /** A game that starts from the placement of `Initialize` keeps its paddles
      inside the field and its ball speed for any run of frames. */
  lemma StartedGameKeepsInvariant(s: GameState, frames: seq<Frame>)
    requires s.leftDir == 0 && s.rightDir == 0
    ensures Inv(Play(Initialized(s), frames))
    ensures Abs(Play(Initialized(s), frames).ballVel.x) == 200.0
    ensures Abs(Play(Initialized(s), frames).ballVel.y) == 235.0
  {
  }
}
