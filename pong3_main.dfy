/**
 * The global update of pong-3 (src/pong-3/main.js): an Enter-driven
 * start/play toggle, a ball that moves only in play, and two paddles clamped
 * to the screen.
 */
module Pong3Main {
  import opened Numbers
  import opened Random
  import opened Keyboard
  import opened Kinematics

  const CANVAS_WIDTH: real := 1280.0
  const CANVAS_HEIGHT: real := 720.0
  const PADDLE_SPEED: real := 1000.0
  /** Lowest y a 200-high paddle may take. */
  const PADDLE_BOTTOM: real := CANVAS_HEIGHT - 200.0

  /** The values gameState takes: 'start' and 'play'. */
  datatype GameState = Start | Play

  /**
   * generateRandomNumber(min, max) of pong-3: a magnitude in [min, max)
   * (exactly min when min == max), negated when the coin is 1.
   */
  function GenerateRandomNumber(min: real, max: real, roll: Roll): (v: real)
    ensures min <= max && 0.0 <= min ==> min <= Abs(v) <= max
    ensures min < max && 0.0 <= min ==> Abs(v) < max
    ensures 0.0 < min <= max ==> (v < 0.0 <==> Coin(roll.sign) == 1)
  {
    var magnitude := roll.magnitude * (max - min) + min;
    assert min <= max ==> min <= magnitude <= max && (min < max ==> magnitude < max) by {
      if min <= max { DrawScales(roll.magnitude, min, max); }
    }
    if Coin(roll.sign) == 1 then -magnitude else magnitude
  }

  /** The module-level state update reads and writes. */
  datatype Session = Session(
    gameState: GameState,
    ball: Body,
    player1Y: real,
    player2Y: real,
    player1Score: int,
    player2Score: int,
    keys: Keys)

  /** The ball in the middle of the screen with a fresh random velocity. */
  function ServedBall(rollX: Roll, rollY: Roll): Body
  {
    Body(CANVAS_WIDTH / 2.0 - 10.0, CANVAS_HEIGHT / 2.0 - 10.0,
         GenerateRandomNumber(400.0, 600.0, rollX), GenerateRandomNumber(400.0, 600.0, rollY))
  }

  /** The state when the script has loaded. */
  function Initial(rollX: Roll, rollY: Roll): Session
  {
    Session(Start, ServedBall(rollX, rollY), 30.0, CANVAS_HEIGHT - 230.0, 0, 0, map[])
  }

  /** Enter consumes itself, then start goes to play and anything else back to start with a served ball. */
  function HandleEnter(s: Session, rollX: Roll, rollY: Roll): Session
  {
    if !Held(s.keys, "Enter") then s
    else if s.gameState == Start then s.(keys := s.keys["Enter" := false], gameState := Play)
    else s.(keys := s.keys["Enter" := false], gameState := Start, ball := ServedBall(rollX, rollY))
  }

  /** The ball moves only in play. */
  function MoveBall(s: Session, dt: real): Session
  {
    if s.gameState == Play then s.(ball := Integrate(s.ball, dt)) else s
  }

  /** One paddle: up wins over down, and the result is clamped to [0, PADDLE_BOTTOM]. */
  function MovePaddle(y: real, up: bool, down: bool, dt: real): real
  {
    if up then Max(0.0, y - PADDLE_SPEED * dt)
    else if down then Min(PADDLE_BOTTOM, y + PADDLE_SPEED * dt)
    else y
  }

  /** update(dt) without its render() call. */
  function Step(s: Session, dt: real, rollX: Roll, rollY: Roll): Session
  {
    var t := MoveBall(HandleEnter(s, rollX, rollY), dt);
    t.(player1Y := MovePaddle(t.player1Y, Held(t.keys, "w"), Held(t.keys, "s"), dt),
       player2Y := MovePaddle(t.player2Y, Held(t.keys, "ArrowUp"), Held(t.keys, "ArrowDown"), dt))
  }

  /** What one frame supplies: the elapsed time and the draws a reset would use. */
  datatype Frame = Frame(dt: real, rollX: Roll, rollY: Roll)

  /** Frame after frame, with no key event in between. */
  function Run(s: Session, frames: seq<Frame>): Session
    decreases |frames|
  {
    if frames == [] then s
    else Run(Step(s, frames[0].dt, frames[0].rollX, frames[0].rollY), frames[1..])
  }

  class Game {
    var gameState: GameState
    var ballX: real
    var ballY: real
    var ballDX: real
    var ballDY: real
    var player1Y: real
    var player2Y: real
    var player1Score: int
    var player2Score: int
    /** Filled in by the keydown/keyup listeners, which are not part of this model. */
    var keys: Keys

    function Snapshot(): Session
      reads this
    {
      Session(gameState, Body(ballX, ballY, ballDX, ballDY), player1Y, player2Y, player1Score, player2Score, keys)
    }

    /** The module-level initialisers. */
    constructor (rollX: Roll, rollY: Roll)
      ensures Snapshot() == Initial(rollX, rollY)
    {
      player1Score, player2Score := 0, 0;
      player1Y := 30.0;
      player2Y := CANVAS_HEIGHT - 230.0;
      ballX := CANVAS_WIDTH / 2.0 - 10.0;
      ballY := CANVAS_HEIGHT / 2.0 - 10.0;
      ballDX := GenerateRandomNumber(400.0, 600.0, rollX);
      ballDY := GenerateRandomNumber(400.0, 600.0, rollY);
      gameState := Start;
      keys := map[];
    }

    /** update(dt): the new state is Step of the old one. */
    method Update(dt: real, rollX: Roll, rollY: Roll)
      modifies this
      ensures Snapshot() == Step(old(Snapshot()), dt, rollX, rollY)
    {
      ghost var s0 := Snapshot();
      if Held(keys, "Enter") {
        // consume the press so that holding Enter does not toggle again
        keys := keys["Enter" := false];
        if gameState == Start {
          gameState := Play;
        } else {
          gameState := Start;
          ballX := CANVAS_WIDTH / 2.0 - 10.0;
          ballY := CANVAS_HEIGHT / 2.0 - 10.0;
          ballDX := GenerateRandomNumber(400.0, 600.0, rollX);
          ballDY := GenerateRandomNumber(400.0, 600.0, rollY);
        }
      }
      assert Snapshot() == HandleEnter(s0, rollX, rollY);
      if gameState == Play {
        ballX := ballX + ballDX * dt;
        ballY := ballY + ballDY * dt;
      }
      assert Snapshot() == MoveBall(HandleEnter(s0, rollX, rollY), dt);

      if Held(keys, "w") {
        player1Y := Max(0.0, player1Y - PADDLE_SPEED * dt);
      } else if Held(keys, "s") {
        player1Y := Min(PADDLE_BOTTOM, player1Y + PADDLE_SPEED * dt);
      }

      if Held(keys, "ArrowUp") {
        player2Y := Max(0.0, player2Y - PADDLE_SPEED * dt);
      } else if Held(keys, "ArrowDown") {
        player2Y := Min(PADDLE_BOTTOM, player2Y + PADDLE_SPEED * dt);
      }
    }
  }

  /** Both paddles within [0, CANVAS_HEIGHT - 200]. */
  predicate PaddlesOnScreen(s: Session)
  {
    0.0 <= s.player1Y <= PADDLE_BOTTOM && 0.0 <= s.player2Y <= PADDLE_BOTTOM
  }

  /** The initial paddle positions 30 and 490 are on screen, and the game starts idle. */
  lemma InitialOnScreen(rollX: Roll, rollY: Roll)
    ensures PaddlesOnScreen(Initial(rollX, rollY)) && Initial(rollX, rollY).gameState == Start
  {
  }

  /** For dt >= 0 a frame keeps on-screen paddles on screen. */
  lemma StepKeepsPaddlesOnScreen(s: Session, dt: real, rollX: Roll, rollY: Roll)
    requires PaddlesOnScreen(s) && 0.0 <= dt
    ensures PaddlesOnScreen(Step(s, dt, rollX, rollY))
  {
  }

  /** So does any number of frames with non-negative times. */
  lemma {:induction false} RunKeepsPaddlesOnScreen(s: Session, frames: seq<Frame>)
    requires PaddlesOnScreen(s)
    requires forall i :: 0 <= i < |frames| ==> 0.0 <= frames[i].dt
    ensures PaddlesOnScreen(Run(s, frames))
    decreases |frames|
  {
    if frames != [] {
      StepKeepsPaddlesOnScreen(s, frames[0].dt, frames[0].rollX, frames[0].rollY);
      RunKeepsPaddlesOnScreen(Step(s, frames[0].dt, frames[0].rollX, frames[0].rollY), frames[1..]);
    }
  }

  /** The other value of gameState. */
  function Toggled(g: GameState): GameState
  {
    if g == Start then Play else Start
  }

  /**
   * A held Enter toggles the state and is consumed in the same frame; no other
   * key entry changes.
   */
  lemma EnterToggles(s: Session, dt: real, rollX: Roll, rollY: Roll)
    requires Held(s.keys, "Enter")
    ensures Step(s, dt, rollX, rollY).gameState == Toggled(s.gameState)
    ensures Step(s, dt, rollX, rollY).keys == s.keys["Enter" := false]
    ensures !Held(Step(s, dt, rollX, rollY).keys, "Enter")
  {
  }

  /** Without Enter held, a frame changes neither the state nor the keys. */
  lemma NoEnterNoToggle(s: Session, dt: real, rollX: Roll, rollY: Roll)
    requires !Held(s.keys, "Enter")
    ensures Step(s, dt, rollX, rollY).gameState == s.gameState
    ensures Step(s, dt, rollX, rollY).keys == s.keys
  {
  }

  /** With no new key event, frames without Enter held never change the state. */
  lemma {:induction false} RunWithoutEnter(s: Session, frames: seq<Frame>)
    requires !Held(s.keys, "Enter")
    ensures Run(s, frames).gameState == s.gameState
    decreases |frames|
  {
    if frames != [] {
      NoEnterNoToggle(s, frames[0].dt, frames[0].rollX, frames[0].rollY);
      RunWithoutEnter(Step(s, frames[0].dt, frames[0].rollX, frames[0].rollY), frames[1..]);
    }
  }

  /** One press of Enter causes exactly one toggle, however many frames follow it. */
  lemma OnePressOneToggle(s: Session, frames: seq<Frame>)
    requires Held(s.keys, "Enter") && frames != []
    ensures Run(s, frames).gameState == Toggled(s.gameState)
  {
    var s1 := Step(s, frames[0].dt, frames[0].rollX, frames[0].rollY);
    EnterToggles(s, frames[0].dt, frames[0].rollX, frames[0].rollY);
    RunWithoutEnter(s1, frames[1..]);
  }

  /** Enter in start goes to play, and the ball already moves in that frame. */
  lemma StartToPlay(s: Session, dt: real, rollX: Roll, rollY: Roll)
    requires Held(s.keys, "Enter") && s.gameState == Start
    ensures Step(s, dt, rollX, rollY).gameState == Play
    ensures Step(s, dt, rollX, rollY).ball == Integrate(s.ball, dt)
  {
  }

  /**
   * Enter in play goes back to start with the ball centred at
   * (CANVAS_WIDTH/2 - 10, CANVAS_HEIGHT/2 - 10) and a speed in [400, 600) on each axis.
   */
  lemma PlayToStart(s: Session, dt: real, rollX: Roll, rollY: Roll)
    requires Held(s.keys, "Enter") && s.gameState == Play
    ensures Step(s, dt, rollX, rollY).gameState == Start
    ensures Step(s, dt, rollX, rollY).ball.x == 630.0 && Step(s, dt, rollX, rollY).ball.y == 350.0
    ensures Step(s, dt, rollX, rollY).ball.dx == GenerateRandomNumber(400.0, 600.0, rollX)
    ensures Step(s, dt, rollX, rollY).ball.dy == GenerateRandomNumber(400.0, 600.0, rollY)
    ensures 400.0 <= Abs(Step(s, dt, rollX, rollY).ball.dx) < 600.0
    ensures 400.0 <= Abs(Step(s, dt, rollX, rollY).ball.dy) < 600.0
  {
  }

  /**
   * Outside the reset branch the velocity is kept, and the ball moves by
   * (dx * dt, dy * dt) when the frame ends in play and stays put otherwise.
   */
  lemma BallMovesOnlyInPlay(s: Session, dt: real, rollX: Roll, rollY: Roll)
    requires !(Held(s.keys, "Enter") && s.gameState == Play)
    ensures var t := Step(s, dt, rollX, rollY);
      && t.ball.dx == s.ball.dx && t.ball.dy == s.ball.dy
      && t.ball == (if t.gameState == Play then Integrate(s.ball, dt) else s.ball)
  {
  }

  /** w wins over s, and ArrowUp over ArrowDown: the lower-priority key is then ignored. */
  lemma UpKeysWin(s: Session, dt: real, rollX: Roll, rollY: Roll)
    ensures Held(s.keys, "w") ==>
      Step(s, dt, rollX, rollY).player1Y == Step(s.(keys := s.keys["s" := false]), dt, rollX, rollY).player1Y
    ensures Held(s.keys, "ArrowUp") ==>
      Step(s, dt, rollX, rollY).player2Y == Step(s.(keys := s.keys["ArrowDown" := false]), dt, rollX, rollY).player2Y
  {
  }

  /** Player 1's keys w and s never move player 2's paddle. */
  lemma Player1KeysOnlyMovePlayer1(s: Session, dt: real, rollX: Roll, rollY: Roll, w: bool, down: bool)
    ensures Step(s.(keys := s.keys["w" := w]["s" := down]), dt, rollX, rollY).player2Y
         == Step(s, dt, rollX, rollY).player2Y
  {
    var k := s.keys["w" := w]["s" := down];
    assert Held(k, "ArrowUp") == Held(s.keys, "ArrowUp") && Held(k, "ArrowDown") == Held(s.keys, "ArrowDown") by {
      assert "ArrowUp" != "w" && "ArrowUp" != "s" && "ArrowDown" != "w" && "ArrowDown" != "s";
    }
  }

  /** The arrow keys never move player 1's paddle. */
  lemma ArrowKeysOnlyMovePlayer2(s: Session, dt: real, rollX: Roll, rollY: Roll, up: bool, down: bool)
    ensures Step(s.(keys := s.keys["ArrowUp" := up]["ArrowDown" := down]), dt, rollX, rollY).player1Y
         == Step(s, dt, rollX, rollY).player1Y
  {
    var k := s.keys["ArrowUp" := up]["ArrowDown" := down];
    assert Held(k, "w") == Held(s.keys, "w") && Held(k, "s") == Held(s.keys, "s") by {
      assert "w" != "ArrowUp" && "w" != "ArrowDown" && "s" != "ArrowUp" && "s" != "ArrowDown";
    }
  }

  /** update never changes the scores. */
  lemma ScoresUnchanged(s: Session, dt: real, rollX: Roll, rollY: Roll)
    ensures Step(s, dt, rollX, rollY).player1Score == s.player1Score
    ensures Step(s, dt, rollX, rollY).player2Score == s.player2Score
  {
  }
}
