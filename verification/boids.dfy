/** A single flock member and its randomised construction (`Boid::new`). */
module Boids {
  import opened Vectors
  import opened Constants

  datatype Boid = Boid(pos: Vec2, vel: Vec2)

  /** A value the generator's `rand_float` can yield: one in [0, 1). */
  predicate IsUnitDraw(d: real) {
    0.0 <= d < 1.0
  }

  /** `p` lies in the half-open world rectangle [0, size.x) x [0, size.y). */
  predicate InWorld(p: Vec2, size: Vec2) {
    0.0 <= p.x < size.x && 0.0 <= p.y < size.y
  }

  /** `rng.rand_float() * extent`: a unit draw stretched over [0, extent). */
  function ScaleDraw(d: real, extent: real): (r: real)
    ensures IsUnitDraw(d) && 0.0 < extent ==> 0.0 <= r < extent
  {
    if IsUnitDraw(d) && 0.0 < extent then
      MulNonNeg(d, extent);
      MulPos(1.0 - d, extent);
      assert extent - d * extent == (1.0 - d) * extent;
      d * extent
    else
      d * extent
  }

  /**
    `Boid::new`, given the four draws it takes, in the order the source takes
    them: position x, position y, velocity x, velocity y. The velocity scale is
    the square root of `MaxSpeedSq`, which is exactly `MaxSpeedFrame`.
   */
  function Spawn(draws: seq<real>, space: Vec2): Boid
    requires |draws| == 4
  {
    Boid(Vec2(ScaleDraw(draws[0], space.x), ScaleDraw(draws[1], space.y)),
         Vec2(ScaleDraw(draws[2], MaxSpeedFrame), ScaleDraw(draws[3], MaxSpeedFrame)))
  }

  /**
    With unit draws, a spawned boid lies inside a world of positive size, and
    both velocity components lie in [0, MaxSpeedFrame): only non-negative
    headings are produced.
   */
  lemma SpawnInRange(draws: seq<real>, space: Vec2)
    requires |draws| == 4
    requires forall k | 0 <= k < 4 :: IsUnitDraw(draws[k])
    ensures space.x > 0.0 && space.y > 0.0 ==> InWorld(Spawn(draws, space).pos, space)
    ensures 0.0 <= Spawn(draws, space).vel.x < MaxSpeedFrame
    ensures 0.0 <= Spawn(draws, space).vel.y < MaxSpeedFrame
  {
    assert IsUnitDraw(draws[0]) && IsUnitDraw(draws[1]);
    assert IsUnitDraw(draws[2]) && IsUnitDraw(draws[3]);
  }

  /** `cur_boid.pos += cur_boid.vel`: move by the final velocity. */
  function Integrate(b: Boid): (r: Boid)
    ensures r.vel == b.vel
    ensures Sub(r.pos, b.pos) == b.vel
  {
    b.(pos := Add(b.pos, b.vel))
  }
}
