/**
  The tuning constants of the flock engine. Speeds are given in pixels per
  second and converted to pixels per frame by dividing by the frame rate.
 */
module Constants {

  const Fps: nat := 60
  const MaxPerceive: real := 75.0
  const MinDist: real := 20.0
  const MaxSpeed: real := 500.0
  const MinSpeed: real := 50.0
  /** The share of speed kept when a boid bounces off a wall. */
  const Bounciness: real := 0.5
  const WallPercent: real := 0.1
  const WallAcc: real := 0.64

  /*
    The derived constants are written as literals so that the solver sees plain
    rationals; DerivedConstants proves each equals its defining expression.
   */
  const MaxPerceiveSq: real := 5625.0
  const MinDistSq: real := 400.0

  const MaxSpeedFrame: real := 25.0 / 3.0
  const MinSpeedFrame: real := 5.0 / 6.0
  const MaxSpeedSq: real := 625.0 / 9.0
  const MinSpeedSq: real := 25.0 / 36.0

  /** Each derived constant is the square or per-frame value it names. */
  lemma DerivedConstants()
    ensures MaxPerceiveSq == MaxPerceive * MaxPerceive
    ensures MinDistSq == MinDist * MinDist
    ensures MaxSpeedFrame == MaxSpeed / Fps as real
    ensures MinSpeedFrame == MinSpeed / Fps as real
    ensures MaxSpeedSq == MaxSpeedFrame * MaxSpeedFrame
    ensures MinSpeedSq == MinSpeedFrame * MinSpeedFrame
  {
  }

  /**
    The constructor's start-up assertion holds for these constants, and the
    separation radius lies inside the perception radius.
   */
  lemma ConstantsConsistent()
    ensures MinSpeedSq < MaxSpeedSq
    ensures 0.0 < MinDistSq < MaxPerceiveSq
  {
  }
}
