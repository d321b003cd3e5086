/**
 * The global update of pong-2 (src/pong-2/main.js): two paddles moved by the
 * keyboard, with no clamping to the screen.
 */
module Pong2Main {
  import opened Numbers
  import opened Keyboard

  const CANVAS_HEIGHT: real := 720.0
  const PADDLE_SPEED: real := 1000.0

  /** The module-level state update reads and writes. */
  datatype Session = Session(player1Y: real, player2Y: real, player1Score: int, player2Score: int, keys: Keys)

  /** The state when the script has loaded. */
  function Initial(): Session
  {
    Session(30.0, CANVAS_HEIGHT - 230.0, 0, 0, map[])
  }

  /** One paddle: up wins over down; nothing keeps the paddle on screen. */
  function MovePaddle(y: real, up: bool, down: bool, dt: real): real
  {
    if up then y - PADDLE_SPEED * dt
    else if down then y + PADDLE_SPEED * dt
    else y
  }

  /** update(dt) without its render() call. */
  function Step(s: Session, dt: real): Session
  {
    s.(player1Y := MovePaddle(s.player1Y, Held(s.keys, "w"), Held(s.keys, "s"), dt),
       player2Y := MovePaddle(s.player2Y, Held(s.keys, "ArrowUp"), Held(s.keys, "ArrowDown"), dt))
  }

  /** Frame after frame, with no key event in between. */
  function Run(s: Session, dts: seq<real>): Session
    decreases |dts|
  {
    if dts == [] then s else Run(Step(s, dts[0]), dts[1..])
  }

  class Game {
    var player1Y: real
    var player2Y: real
    var player1Score: int
    var player2Score: int
    /** Filled in by the keydown/keyup listeners, which are not part of this model. */
    var keys: Keys

    function Snapshot(): Session
      reads this
    {
      Session(player1Y, player2Y, player1Score, player2Score, keys)
    }

    /** The module-level initialisers. */
    constructor ()
      ensures Snapshot() == Initial()
    {
      player1Score, player2Score := 0, 0;
      player1Y := 30.0;
      player2Y := CANVAS_HEIGHT - 230.0;
      keys := map[];
    }

    /** update(dt): the new state is Step of the old one. */
    method Update(dt: real)
      modifies this
      ensures Snapshot() == Step(old(Snapshot()), dt)
    {
      if Held(keys, "w") {
        player1Y := player1Y - PADDLE_SPEED * dt;
      } else if Held(keys, "s") {
        player1Y := player1Y + PADDLE_SPEED * dt;
      }

      if Held(keys, "ArrowUp") {
        player2Y := player2Y - PADDLE_SPEED * dt;
      } else if Held(keys, "ArrowDown") {
        player2Y := player2Y + PADDLE_SPEED * dt;
      }
    }
  }

  /** Holding w moves player 1 up by exactly PADDLE_SPEED * dt, whatever else is held. */
  lemma UpMovesExactly(s: Session, dt: real)
    ensures Held(s.keys, "w") ==> Step(s, dt).player1Y == s.player1Y - PADDLE_SPEED * dt
    ensures !Held(s.keys, "w") && Held(s.keys, "s") ==> Step(s, dt).player1Y == s.player1Y + PADDLE_SPEED * dt
    ensures Held(s.keys, "ArrowUp") ==> Step(s, dt).player2Y == s.player2Y - PADDLE_SPEED * dt
    ensures !Held(s.keys, "ArrowUp") && Held(s.keys, "ArrowDown") ==> Step(s, dt).player2Y == s.player2Y + PADDLE_SPEED * dt
  {
  }

  /** With no movement key held, neither paddle moves. */
  lemma NoKeyNoMove(s: Session, dt: real)
    requires !Held(s.keys, "w") && !Held(s.keys, "s") && !Held(s.keys, "ArrowUp") && !Held(s.keys, "ArrowDown")
    ensures Step(s, dt) == s
  {
  }

  /**
   * Holding w over a run of frames moves player 1 by PADDLE_SPEED times the
   * total time, with no clamp: only the elapsed time matters, not the frame rate.
   */
  lemma {:induction false} HoldingUpOverFrames(s: Session, dts: seq<real>)
    requires Held(s.keys, "w")
    ensures Run(s, dts).player1Y == s.player1Y - PADDLE_SPEED * Sum(dts)
    ensures Run(s, dts).keys == s.keys
    decreases |dts|
  {
    if dts != [] {
      var s1 := Step(s, dts[0]);
      HoldingUpOverFrames(s1, dts[1..]);
      assert PADDLE_SPEED * dts[0] + PADDLE_SPEED * Sum(dts[1..]) == PADDLE_SPEED * Sum(dts);
    }
  }

  /** Nothing stops a paddle at the top: from y = 30, a tenth of a second with w held ends at -70. */
  lemma PaddleLeavesScreen()
    ensures Step(Initial().(keys := map["w" := true]), 0.1).player1Y == -70.0
  {
  }

  /** w wins over s, and ArrowUp over ArrowDown: the lower-priority key is then ignored. */
  lemma UpKeysWin(s: Session, dt: real)
    ensures Held(s.keys, "w") ==> Step(s, dt).player1Y == Step(s.(keys := s.keys["s" := false]), dt).player1Y
    ensures Held(s.keys, "ArrowUp") ==>
      Step(s, dt).player2Y == Step(s.(keys := s.keys["ArrowDown" := false]), dt).player2Y
  {
  }

  /** Player 1's keys w and s never move player 2's paddle. */
  lemma Player1KeysOnlyMovePlayer1(s: Session, dt: real, w: bool, down: bool)
    ensures Step(s.(keys := s.keys["w" := w]["s" := down]), dt).player2Y == Step(s, dt).player2Y
  {
    var k := s.keys["w" := w]["s" := down];
    assert Held(k, "ArrowUp") == Held(s.keys, "ArrowUp") && Held(k, "ArrowDown") == Held(s.keys, "ArrowDown") by {
      assert "ArrowUp" != "w" && "ArrowUp" != "s" && "ArrowDown" != "w" && "ArrowDown" != "s";
    }
  }

  /** The arrow keys never move player 1's paddle. */
  lemma ArrowKeysOnlyMovePlayer2(s: Session, dt: real, up: bool, down: bool)
    ensures Step(s.(keys := s.keys["ArrowUp" := up]["ArrowDown" := down]), dt).player1Y == Step(s, dt).player1Y
  {
    var k := s.keys["ArrowUp" := up]["ArrowDown" := down];
    assert Held(k, "w") == Held(s.keys, "w") && Held(k, "s") == Held(s.keys, "s") by {
      assert "w" != "ArrowUp" && "w" != "ArrowDown" && "s" != "ArrowUp" && "s" != "ArrowDown";
    }
  }

  /** update never changes the scores or the keys. */
  lemma ScoresUnchanged(s: Session, dt: real)
    ensures Step(s, dt).player1Score == s.player1Score && Step(s, dt).player2Score == s.player2Score
    ensures Step(s, dt).keys == s.keys
  {
  }
}
