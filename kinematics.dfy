/** Constant-velocity motion of a ball, shared by every stage of the series. */
module Kinematics {
  import opened Numbers

  /** Position (top-left corner) and velocity in units per second. */
  datatype Body = Body(x: real, y: real, dx: real, dy: real)

  /** One Euler step: `x += dx * dt; y += dy * dt`. */
  function Integrate(b: Body, dt: real): Body
  {
    b.(x := b.x + b.dx * dt, y := b.y + b.dy * dt)
  }

  /** Integrating frame after frame, the first frame time first. */
  function Run(b: Body, dts: seq<real>): Body
    decreases |dts|
  {
    if dts == [] then b else Run(Integrate(b, dts[0]), dts[1..])
  }

  /** Integration keeps the velocity and moves by velocity times elapsed time. */
  lemma IntegrateMoves(b: Body, dt: real)
    ensures Integrate(b, dt).dx == b.dx && Integrate(b, dt).dy == b.dy
    ensures Integrate(b, dt).x - b.x == b.dx * dt && Integrate(b, dt).y - b.y == b.dy * dt
  {
  }

  /** A frame of zero length changes nothing. */
  lemma IntegrateZero(b: Body)
    ensures Integrate(b, 0.0) == b
  {
  }

  /** Two frames of dt1 and dt2 land where one frame of dt1 + dt2 lands. */
  lemma IntegrateTwice(b: Body, dt1: real, dt2: real)
    ensures Integrate(Integrate(b, dt1), dt2) == Integrate(b, dt1 + dt2)
  {
    assert b.dx * dt1 + b.dx * dt2 == b.dx * (dt1 + dt2);
    assert b.dy * dt1 + b.dy * dt2 == b.dy * (dt1 + dt2);
  }

  /** Frame-rate independence: only the total elapsed time matters. */
  lemma {:induction false} RunIsOneIntegrate(b: Body, dts: seq<real>)
    ensures Run(b, dts) == Integrate(b, Sum(dts))
    decreases |dts|
  {
    if dts == [] {
      IntegrateZero(b);
    } else {
      RunIsOneIntegrate(Integrate(b, dts[0]), dts[1..]);
      IntegrateTwice(b, dts[0], Sum(dts[1..]));
    }
  }
}
