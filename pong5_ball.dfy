/**
 * The ball of pong-5 (src/pong-5/Ball.js): paddle bounce, wall bounce and
 * integration, in that order, once per frame.
 *
 * The pong-5 utilities file is not part of this model. What its helpers
 * return enters as plain values: the two results of generateRandomNumber(400, 800)
 * that reset uses, and the results `negative` and `positive` of
 * generateRandomNegativeNumber and generateRandomPositiveNumber that update
 * uses on a paddle hit. Where a property depends on those helpers, the only
 * thing assumed of them is their sign (negative < 0 < positive).
 */
module Pong5Ball {
  import opened Numbers
  import opened Kinematics

  /** A paddle, or the ball's own box: top-left corner and size. */
  datatype Rect = Rect(x: real, y: real, width: real, height: real)

  /** Factor by which a paddle hit scales the (reversed) horizontal speed. */
  const REBOUND: real := 1.03

  /** didCollide: axis-aligned overlap, with strict comparisons on all four sides. */
  predicate DidCollide(ball: Rect, paddle: Rect)
  {
    && ball.x < paddle.x + paddle.width
    && paddle.x < ball.x + ball.width
    && ball.y < paddle.y + paddle.height
    && paddle.y < ball.y + ball.height
  }

  /** A point strictly inside a rectangle. */
  ghost predicate Inside(r: Rect, px: real, py: real)
  {
    r.x < px < r.x + r.width && r.y < py < r.y + r.height
  }

  /**
   * For boxes of positive size, didCollide holds exactly when the two boxes
   * share an interior point: touching along an edge or a corner is no collision.
   */
  lemma CollideIffSharedPoint(ball: Rect, paddle: Rect)
    requires 0.0 < ball.width && 0.0 < ball.height && 0.0 < paddle.width && 0.0 < paddle.height
    ensures DidCollide(ball, paddle) <==> exists px, py :: Inside(ball, px, py) && Inside(paddle, px, py)
  {
    if DidCollide(ball, paddle) {
      var px := (Max(ball.x, paddle.x) + Min(ball.x + ball.width, paddle.x + paddle.width)) / 2.0;
      var py := (Max(ball.y, paddle.y) + Min(ball.y + ball.height, paddle.y + paddle.height)) / 2.0;
      assert Inside(ball, px, py) && Inside(paddle, px, py);
    }
  }

  /** Boxes that only touch along an edge do not collide. */
  lemma TouchingDoesNotCollide(ball: Rect, paddle: Rect)
    requires || ball.x == paddle.x + paddle.width || paddle.x == ball.x + ball.width
             || ball.y == paddle.y + paddle.height || paddle.y == ball.y + ball.height
    ensures !DidCollide(ball, paddle) && !DidCollide(paddle, ball)
  {
  }

  /** A 5x5 ball at x = 10 touching a 5x5 paddle at x = 15 does not collide; at x = 14 it does. */
  lemma TouchingExample()
    ensures !DidCollide(Rect(10.0, 10.0, 5.0, 5.0), Rect(15.0, 10.0, 5.0, 5.0))
    ensures DidCollide(Rect(14.0, 10.0, 5.0, 5.0), Rect(15.0, 10.0, 5.0, 5.0))
  {
  }

  /** The ball's box at the position in `m`. */
  function Box(m: Body, width: real, height: real): Rect
  {
    Rect(m.x, m.y, width, height)
  }

  /**
   * Step 1 of update: on overlap with either paddle (tested together, so the
   * effect applies once), reverse and scale dx and redraw dy from the helper
   * of the same sign as the old dy.
   */
  function Bounce(m: Body, width: real, height: real, player1: Rect, player2: Rect,
                  negative: real, positive: real): Body
  {
    if DidCollide(Box(m, width, height), player1) || DidCollide(Box(m, width, height), player2) then
      m.(dx := -m.dx * REBOUND, dy := if m.dy < 0.0 then negative else positive)
    else
      m
  }

  /** Step 2: at or above the top wall, snap to y = 0 and reverse dy. */
  function TopWall(m: Body): Body
  {
    if m.y <= 0.0 then m.(y := 0.0, dy := -m.dy) else m
  }

  /** Step 3, a separate test: at or below `bottom`, snap to it and reverse dy. */
  function BottomWall(m: Body, bottom: real): Body
  {
    if m.y >= bottom then m.(y := bottom, dy := -m.dy) else m
  }

  /** Steps 2 and 3 together, with `bottom = canvasHeight - height`. */
  function Walls(m: Body, bottom: real): Body
  {
    BottomWall(TopWall(m), bottom)
  }

  /** update(dt, player1, player2): bounce, walls, then integrate with the adjusted velocity. */
  function Step(m: Body, width: real, height: real, canvasHeight: real, dt: real,
                player1: Rect, player2: Rect, negative: real, positive: real): Body
  {
    Integrate(Walls(Bounce(m, width, height, player1, player2, negative, positive), canvasHeight - height), dt)
  }

  class Ball {
    var x: real
    var y: real
    var width: real
    var height: real
    var canvasHeight: real
    var dx: real
    var dy: real

    /** Position and velocity as a value. */
    function Motion(): Body
      reads this
    {
      Body(x, y, dx, dy)
    }

    /**
     * Stores the size and the playfield height, then resets to (x, y);
     * `speedX` and `speedY` are what generateRandomNumber(400, 800) returned.
     */
    constructor (x: real, y: real, width: real, height: real, canvasHeight: real, speedX: real, speedY: real)
      ensures this.width == width && this.height == height && this.canvasHeight == canvasHeight
      ensures Motion() == Body(x, y, speedX, speedY)
    {
      this.width := width;
      this.height := height;
      this.canvasHeight := canvasHeight;
      new;
      Reset(x, y, speedX, speedY);
    }

    /** Puts the ball at (x, y) with the freshly drawn velocity; the size and playfield are kept. */
    method Reset(x: real, y: real, speedX: real, speedY: real)
      modifies this
      ensures Motion() == Body(x, y, speedX, speedY)
      ensures width == old(width) && height == old(height) && canvasHeight == old(canvasHeight)
    {
      this.x := x;
      this.y := y;
      dx := speedX;
      dy := speedY;
    }

    /** didCollide(paddle) on this ball's current box. */
    method DidCollideWith(paddle: Rect) returns (hit: bool)
      ensures hit <==> DidCollide(Rect(x, y, width, height), paddle)
    {
      hit := x < paddle.x + paddle.width && paddle.x < x + width
          && y < paddle.y + paddle.height && paddle.y < y + height;
    }

    /** One frame; the new position and velocity are Step of the old ones. */
    method Update(dt: real, player1: Rect, player2: Rect, negative: real, positive: real)
      modifies this
      ensures Motion() == Step(old(Motion()), width, height, canvasHeight, dt, player1, player2, negative, positive)
      ensures width == old(width) && height == old(height) && canvasHeight == old(canvasHeight)
    {
      ghost var m0 := Motion();
      var hit1 := DidCollideWith(player1);
      var hit2 := DidCollideWith(player2);
      if hit1 || hit2 {
        dx := -dx * REBOUND;
        // keep the vertical direction, with a fresh random speed
        if dy < 0.0 {
          dy := negative;
        } else {
          dy := positive;
        }
      }
      ghost var m1 := Motion();
      assert m1 == Bounce(m0, width, height, player1, player2, negative, positive);
      if y <= 0.0 {
        y := 0.0;
        dy := -dy;
      }
      assert Motion() == TopWall(m1);
      if y >= canvasHeight - height {
        y := canvasHeight - height;
        dy := -dy;
      }
      assert Motion() == Walls(m1, canvasHeight - height);
      // x += dx * dt; y += dy * dt
      var moved := Integrate(Motion(), dt);
      x, y := moved.x, moved.y;
    }
  }

  /**
   * A paddle hit, by either paddle or both, leaves dx reversed and 3% larger
   * for the rest of the frame; nothing later in update touches dx.
   */
  lemma PaddleHitReverses(m: Body, width: real, height: real, canvasHeight: real, dt: real,
                          player1: Rect, player2: Rect, negative: real, positive: real)
    requires DidCollide(Box(m, width, height), player1) || DidCollide(Box(m, width, height), player2)
    ensures var m' := Step(m, width, height, canvasHeight, dt, player1, player2, negative, positive);
      && m'.dx == -m.dx * 1.03
      && Abs(m'.dx) == 1.03 * Abs(m.dx)
      && (m.dx > 0.0 <==> m'.dx < 0.0) && (m.dx < 0.0 <==> m'.dx > 0.0)
      && (m.dx != 0.0 ==> Abs(m'.dx) > Abs(m.dx))
  {
  }

  /** Without a paddle hit dx is unchanged. */
  lemma NoHitKeepsDx(m: Body, width: real, height: real, canvasHeight: real, dt: real,
                     player1: Rect, player2: Rect, negative: real, positive: real)
    requires !DidCollide(Box(m, width, height), player1) && !DidCollide(Box(m, width, height), player2)
    ensures Step(m, width, height, canvasHeight, dt, player1, player2, negative, positive).dx == m.dx
  {
  }

  /**
   * On a paddle hit dy comes from the helper of the old dy's sign (0 counts
   * as non-negative); under the helpers' sign contract the direction is kept.
   */
  lemma PaddleHitRedrawsDy(m: Body, width: real, height: real, player1: Rect, player2: Rect,
                           negative: real, positive: real)
    requires DidCollide(Box(m, width, height), player1) || DidCollide(Box(m, width, height), player2)
    ensures Bounce(m, width, height, player1, player2, negative, positive).dy
            == if m.dy < 0.0 then negative else positive
    ensures negative < 0.0 < positive ==>
            (Bounce(m, width, height, player1, player2, negative, positive).dy < 0.0 <==> m.dy < 0.0)
    ensures Bounce(m, width, height, player1, player2, negative, positive).x == m.x
    ensures Bounce(m, width, height, player1, player2, negative, positive).y == m.y
  {
  }

  /** With a positive-height field, a ball at or above the top is snapped to 0 and dy reversed. */
  lemma TopWallReflects(m: Body, bottom: real)
    requires m.y <= 0.0 < bottom
    ensures Walls(m, bottom) == m.(y := 0.0, dy := -m.dy)
  {
  }

  /** A ball below the top and at or below the bottom is snapped to the bottom and dy reversed. */
  lemma BottomWallReflects(m: Body, bottom: real)
    requires 0.0 < m.y && bottom <= m.y
    ensures Walls(m, bottom) == m.(y := bottom, dy := -m.dy)
  {
  }

  /**
   * The two wall tests are independent: when the field has no room
   * (bottom <= 0) and the ball is at or above the top, both fire, dy is
   * reversed twice and keeps its sign, and y ends at `bottom`.
   */
  lemma BothWallsFire(m: Body, bottom: real)
    requires bottom <= 0.0 && m.y <= 0.0
    ensures Walls(m, bottom) == m.(y := bottom)
  {
  }

  /** Before integration, the walls leave y within [0, bottom] whenever that range is not empty. */
  lemma WallsClamp(m: Body, bottom: real)
    requires 0.0 <= bottom
    ensures 0.0 <= Walls(m, bottom).y <= bottom
    ensures Walls(m, bottom).x == m.x && Walls(m, bottom).dx == m.dx
    ensures Abs(Walls(m, bottom).dy) == Abs(m.dy)
  {
  }

  /**
   * Away from the paddles and strictly between the walls, dx and dy are kept
   * and the ball moves by exactly (dx * dt, dy * dt).
   */
  lemma FreeFlight(m: Body, width: real, height: real, canvasHeight: real, dt: real,
                   player1: Rect, player2: Rect, negative: real, positive: real)
    requires !DidCollide(Box(m, width, height), player1) && !DidCollide(Box(m, width, height), player2)
    requires 0.0 < m.y < canvasHeight - height
    ensures Step(m, width, height, canvasHeight, dt, player1, player2, negative, positive) == Integrate(m, dt)
  {
  }

  /** The paddles of the 1280x720 court. */
  const LEFT_PADDLE: Rect := Rect(30.0, 260.0, 20.0, 200.0)
  const RIGHT_PADDLE: Rect := Rect(1230.0, 260.0, 20.0, 200.0)

  /**
   * Integration comes after the wall tests and nothing clamps its result: a
   * fast ball near the top leaves the field within one frame.
   */
  lemma NoClampAfterIntegration(negative: real, positive: real)
    ensures Step(Body(630.0, 10.0, 500.0, -1000.0), 20.0, 20.0, 720.0, 0.05,
                 LEFT_PADDLE, RIGHT_PADDLE, negative, positive).y == -40.0
  {
    assert !DidCollide(Rect(630.0, 10.0, 20.0, 20.0), LEFT_PADDLE);
    assert !DidCollide(Rect(630.0, 10.0, 20.0, 20.0), RIGHT_PADDLE);
  }

  /**
   * A 20-high ball at y = 701 in a 720-high field moving down at 50 is
   * snapped to 700 and reversed, and then moves up within the same frame.
   */
  lemma BottomClampExample(dt: real, negative: real, positive: real)
    ensures Walls(Body(630.0, 701.0, 500.0, 50.0), 720.0 - 20.0) == Body(630.0, 700.0, 500.0, -50.0)
    ensures Step(Body(630.0, 701.0, 500.0, 50.0), 20.0, 20.0, 720.0, dt,
                 LEFT_PADDLE, RIGHT_PADDLE, negative, positive).y == 700.0 - 50.0 * dt
  {
    assert !DidCollide(Rect(630.0, 701.0, 20.0, 20.0), LEFT_PADDLE);
  }

  /** A paddle hit turns dx = 500 into dx = -515. */
  lemma PaddleBounceExample(dt: real, negative: real, positive: real)
    ensures Step(Body(40.0, 300.0, 500.0, 0.0), 20.0, 20.0, 720.0, dt,
                 LEFT_PADDLE, RIGHT_PADDLE, negative, positive).dx == -515.0
  {
    assert DidCollide(Rect(40.0, 300.0, 20.0, 20.0), LEFT_PADDLE);
  }

  /**
   * A ball built at (630, 350) in a 720-high field, reset there and updated
   * for 0.016 s between the two court paddles, touches nothing and moves by
   * exactly its velocity times 0.016.
   */
  method ServeAndFly(speedX: real, speedY: real, negative: real, positive: real) returns (x: real, y: real)
    ensures x == 630.0 + speedX * 0.016 && y == 350.0 + speedY * 0.016
  {
    var ball := new Ball(630.0, 350.0, 20.0, 20.0, 720.0, speedX, speedY);
    ball.Reset(630.0, 350.0, speedX, speedY);
    FreeFlight(ball.Motion(), 20.0, 20.0, 720.0, 0.016, LEFT_PADDLE, RIGHT_PADDLE, negative, positive);
    ball.Update(0.016, LEFT_PADDLE, RIGHT_PADDLE, negative, positive);
    x, y := ball.x, ball.y;
  }
}
