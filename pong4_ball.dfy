/** The ball of pong-4 (src/pong-4/Ball.js): constant velocity, no collisions. */
module Pong4Ball {
  import opened Numbers
  import opened Random
  import opened Kinematics
  import opened Pong4Utils

  class Ball {
    var x: real
    var y: real
    var width: real
    var height: real
    var dx: real
    var dy: real

    /** Position and velocity as a value. */
    function Motion(): Body
      reads this
    {
      Body(x, y, dx, dy)
    }

    /** Stores position and size as given; each velocity component is generateRandomNumber(400, 800). */
    constructor (x: real, y: real, width: real, height: real, rollX: Roll, rollY: Roll)
      ensures this.x == x && this.y == y && this.width == width && this.height == height
      ensures dx == GenerateRandomNumber(400.0, 800.0, rollX)
      ensures dy == GenerateRandomNumber(400.0, 800.0, rollY)
    {
      this.x := x;
      this.y := y;
      this.width := width;
      this.height := height;
      dx := GenerateRandomNumber(400.0, 800.0, rollX);
      dy := GenerateRandomNumber(400.0, 800.0, rollY);
    }

    /** Moves the ball to (x, y) and draws a fresh velocity; the size is kept. */
    method Reset(x: real, y: real, rollX: Roll, rollY: Roll)
      modifies this
      ensures this.x == x && this.y == y
      ensures dx == GenerateRandomNumber(400.0, 800.0, rollX)
      ensures dy == GenerateRandomNumber(400.0, 800.0, rollY)
      ensures width == old(width) && height == old(height)
    {
      this.x := x;
      this.y := y;
      dx := GenerateRandomNumber(400.0, 800.0, rollX);
      dy := GenerateRandomNumber(400.0, 800.0, rollY);
    }

    /** One frame of motion: x' = x + dx*dt, y' = y + dy*dt; velocity and size are kept. */
    method Update(dt: real)
      modifies this
      ensures Motion() == Integrate(old(Motion()), dt)
      ensures dx == old(dx) && dy == old(dy)
      ensures width == old(width) && height == old(height)
    {
      x := x + dx * dt;
      y := y + dy * dt;
    }
  }

  /**
   * What the constructor and Reset leave in dx and dy: a speed in [800, 1200)
   * on each axis, moving either way.
   */
  lemma ServeSpeed(roll: Roll)
    ensures 800.0 <= Abs(GenerateRandomNumber(400.0, 800.0, roll)) < 1200.0
  {
  }

  /** Two calls of update land where one call with the summed time lands. */
  method UpdateTwice(ball: Ball, dt1: real, dt2: real)
    modifies ball
    ensures ball.Motion() == Integrate(old(ball.Motion()), dt1 + dt2)
    ensures ball.width == old(ball.width) && ball.height == old(ball.height)
  {
    ball.Update(dt1);
    ball.Update(dt2);
    IntegrateTwice(old(ball.Motion()), dt1, dt2);
  }
}
