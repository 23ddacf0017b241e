/**
  The rules as the engine runs them: loops over the buffer that accumulate a
  count and a sum, and a sequence of in-place updates for rule 4. Each method
  is proved to compute the same boid as the corresponding function of `Rules`.
 */
module RuleScans {
  import opened Vectors
  import opened Constants
  import opened Boids
  import opened Neighbours
  import opened Rules

  /** `rule_one`: count the perceived boids and sum their positions, then steer. */
  method ScanRuleOne(b: Boid, all: seq<Boid>, self: nat) returns (r: Boid)
    ensures r == RuleOne(b, all, self)
  {
    var found: nat := 0;
    var centre := Zero;
    var other := 0;
    while other < |all|
      invariant other <= |all|
      invariant found == NearCount(all, self, b.pos, MaxPerceiveSq, other)
      invariant centre == NearPosSum(all, self, b.pos, MaxPerceiveSq, other)
    {
      if other != self {
        if DistSq(b.pos, all[other].pos) < MaxPerceiveSq {
          found := found + 1;
          centre := Add(centre, all[other].pos);
        }
      }
      other := other + 1;
    }
    r := b;
    if found > 0 {
      centre := Div(centre, found as real);
      r := r.(vel := Add(r.vel, Div(Sub(centre, r.pos), 200.0)));
    }
  }

  /** `rule_two`: push away from each too-close boid as the loop meets it. */
  method ScanRuleTwo(b: Boid, all: seq<Boid>, self: nat) returns (r: Boid)
    ensures r == RuleTwo(b, all, self)
  {
    r := b;
    var other := 0;
    while other < |all|
      invariant other <= |all|
      invariant r == b.(vel := SeparationUpTo(b, all, self, other))
    {
      if other != self {
        if DistSq(r.pos, all[other].pos) < MinDistSq {
          r := r.(vel := Sub(r.vel, Div(Sub(all[other].pos, r.pos), 20.0)));
        }
      }
      other := other + 1;
    }
  }

  /** `rule_three`: count the perceived boids and sum their velocities, then steer. */
  method ScanRuleThree(b: Boid, all: seq<Boid>, self: nat) returns (r: Boid)
    ensures r == RuleThree(b, all, self)
  {
    var found: nat := 0;
    var avg := Zero;
    var other := 0;
    while other < |all|
      invariant other <= |all|
      invariant found == NearCount(all, self, b.pos, MaxPerceiveSq, other)
      invariant avg == NearVelSum(all, self, b.pos, MaxPerceiveSq, other)
    {
      if other != self {
        if DistSq(b.pos, all[other].pos) < MaxPerceiveSq {
          found := found + 1;
          avg := Add(avg, all[other].vel);
        }
      }
      other := other + 1;
    }
    r := b;
    if found > 0 {
      avg := Scale(avg, 1.2 / found as real);
      r := r.(vel := Add(r.vel, Div(Sub(avg, r.vel), 20.0)));
    }
  }

  /** The speed limit of `rule_four`, in place. */
  method ApplySpeedLimit(v: Vec2, root: real -> real) returns (vel: Vec2)
    requires IsSqrt(root)
    ensures vel == Clamp(v, root)
  {
    vel := v;
    var lenSq := LengthSq(vel);
    if lenSq > MaxSpeedSq {
      assert 0.0 < root(lenSq) by {
        assert 0.0 <= lenSq;
      }
      vel := Scale(vel, MaxSpeedFrame / root(lenSq));
    }
  }

  /** The look-ahead bounce of `rule_four` on both axes, in place. */
  method ApplyBounce(pos: Vec2, v: Vec2, size: Vec2) returns (vel: Vec2)
    ensures vel == Vec2(BounceAxis(pos.x, v.x, size.x), BounceAxis(pos.y, v.y, size.y))
  {
    vel := v;
    var next := Add(pos, vel);
    if (next.x < 0.0 && vel.x < 0.0) || (next.x > size.x && vel.x > 0.0) {
      vel := vel.(x := vel.x * -Bounciness);
    }
    if (next.y < 0.0 && vel.y < 0.0) || (next.y > size.y && vel.y > 0.0) {
      vel := vel.(y := vel.y * -Bounciness);
    }
  }

  /** The four wall checks of `rule_four`, one after another. */
  method ApplyWalls(pos: Vec2, v: Vec2, size: Vec2) returns (vel: Vec2)
    ensures vel == Vec2(WallAxis(pos.x, v.x, size.x), WallAxis(pos.y, v.y, size.y))
  {
    vel := v;
    if pos.x < size.x * WallPercent {
      vel := vel.(x := vel.x + WallAcc);
    }
    if pos.x > size.x * (1.0 - WallPercent) {
      vel := vel.(x := vel.x - WallAcc);
    }
    if pos.y < size.y * WallPercent {
      vel := vel.(y := vel.y + WallAcc);
    }
    if pos.y > size.y * (1.0 - WallPercent) {
      vel := vel.(y := vel.y - WallAcc);
    }
  }

  /** `rule_four` as the source orders it: speed limit, bounce, then walls. */
  method ApplyRuleFour(b: Boid, size: Vec2, root: real -> real) returns (r: Boid)
    requires IsSqrt(root)
    ensures r == RuleFour(b, size, root)
  {
    var vel := ApplySpeedLimit(b.vel, root);
    vel := ApplyBounce(b.pos, vel, size);
    vel := ApplyWalls(b.pos, vel, size);
    r := b.(vel := vel);
  }
}
