/**
  The five steering rules of `BoidFlock` (`rule_one` ... `rule_five`). Each
  takes the boid being updated (the working copy, whose velocity earlier rules
  may already have changed) and returns it with a new velocity; none of them
  moves the boid. The neighbour rules read the whole current buffer `all` and
  skip the boid's own index `self`.
 */
module Rules {
  import opened Vectors
  import opened Constants
  import opened Boids
  import opened Neighbours

  /* ---------------- Rule 1: cohesion ---------------- */

  /**
    Steer 1/200 of the way from the boid's position towards the mean position
    of the other boids strictly inside the perception radius.
   */
  function RuleOne(b: Boid, all: seq<Boid>, self: nat): (r: Boid)
    ensures r.pos == b.pos
  {
    var found := NearCount(all, self, b.pos, MaxPerceiveSq, |all|);
    if found > 0 then
      var centre := Div(NearPosSum(all, self, b.pos, MaxPerceiveSq, |all|), found as real);
      b.(vel := Add(b.vel, Div(Sub(centre, b.pos), 200.0)))
    else
      b
  }

  /* ---------------- Rule 2: separation ---------------- */

  /**
    The working velocity after the separation loop has visited the first `k`
    boids: every too-close boid subtracts 1/20 of its offset from the boid.
   */
  function SeparationUpTo(b: Boid, all: seq<Boid>, self: nat, k: nat): Vec2
    requires k <= |all|
  {
    if k == 0 then b.vel
    else
      var v := SeparationUpTo(b, all, self, k - 1);
      if Near(all, self, b.pos, MinDistSq, k - 1) then Sub(v, Div(Sub(all[k - 1].pos, b.pos), 20.0))
      else v
  }

  /** Push away from every other boid strictly inside the minimum distance. */
  function RuleTwo(b: Boid, all: seq<Boid>, self: nat): (r: Boid)
    ensures r.pos == b.pos
  {
    b.(vel := SeparationUpTo(b, all, self, |all|))
  }

  /* ---------------- Rule 3: alignment ---------------- */

  /** The velocity the alignment rule steers towards: 1.2 times the neighbours' mean velocity. */
  function AlignTarget(all: seq<Boid>, self: nat, pos: Vec2): Vec2
    requires NearCount(all, self, pos, MaxPerceiveSq, |all|) > 0
  {
    Scale(NearVelSum(all, self, pos, MaxPerceiveSq, |all|),
          1.2 / NearCount(all, self, pos, MaxPerceiveSq, |all|) as real)
  }

  /**
    Steer 1/20 of the way from the current velocity towards 1.2 times the mean
    velocity of the other boids strictly inside the perception radius.
   */
  function RuleThree(b: Boid, all: seq<Boid>, self: nat): (r: Boid)
    ensures r.pos == b.pos
  {
    var found := NearCount(all, self, b.pos, MaxPerceiveSq, |all|);
    if found > 0 then
      var avg := AlignTarget(all, self, b.pos);
      b.(vel := Add(b.vel, Div(Sub(avg, b.vel), 20.0)))
    else
      b
  }

  /* ---------------- Rule 4: speed limit and walls ---------------- */

  /**
    Scale a too-fast velocity down to the maximum per-frame speed; `len` is the
    square root of its squared length.
   */
  function ScaleToMax(v: Vec2, len: real): (r: Vec2)
    requires 0.0 < len && len * len == LengthSq(v)
    ensures LengthSq(r) == MaxSpeedSq
  {
    var k := MaxSpeedFrame / len;
    ScaleLengthSq(v, k);
    assert k * len == MaxSpeedFrame;
    assert k * k * LengthSq(v) == (k * len) * (k * len);
    Scale(v, k)
  }

  /**
    The speed limit of rule 4: a velocity whose squared length exceeds
    `MaxSpeedSq` is cut to exactly the limit; any other is kept.
   */
  function Clamp(v: Vec2, root: real -> real): (r: Vec2)
    requires IsSqrt(root)
    ensures LengthSq(r) <= MaxSpeedSq
    ensures LengthSq(v) <= MaxSpeedSq ==> r == v
    ensures LengthSq(v) > MaxSpeedSq ==> LengthSq(r) == MaxSpeedSq
  {
    var lenSq := LengthSq(v);
    if lenSq > MaxSpeedSq then
      assert 0.0 < root(lenSq) && root(lenSq) * root(lenSq) == lenSq by {
        assert 0.0 <= lenSq;
      }
      ScaleToMax(v, root(lenSq))
    else
      v
  }

  /**
    The one-step look-ahead bounce on one axis: if the predicted coordinate
    `p + v` leaves [0, extent] and `v` points further out, reverse `v` and keep
    `Bounciness` of it.
   */
  function BounceAxis(p: real, v: real, extent: real): (r: real)
    ensures (p + v < 0.0 && v < 0.0) || (extent < p + v && 0.0 < v) ==> r == -Bounciness * v
    ensures r != v ==> (p + v < 0.0 && v < 0.0) || (extent < p + v && 0.0 < v)
    ensures 0.0 <= extent && p + v < 0.0 ==> 0.0 <= r
    ensures 0.0 <= extent && extent < p + v ==> r <= 0.0
    ensures 0.0 <= p + v <= extent ==> r == v
  {
    if (p + v < 0.0 && v < 0.0) || (p + v > extent && v > 0.0) then
      v * -Bounciness
    else v
  }

  /**
    The wall push on one axis: accelerate away from a wall whenever the boid is
    within `WallPercent` of the extent from it.
   */
  function WallAxis(p: real, v: real, extent: real): (r: real)
    ensures 0.0 < extent && p < extent * WallPercent ==> r == v + WallAcc
    ensures 0.0 < extent && p > extent * (1.0 - WallPercent) ==> r == v - WallAcc
    ensures extent * WallPercent <= p <= extent * (1.0 - WallPercent) ==> r == v
  {
    var v1 := if p < extent * WallPercent then v + WallAcc else v;
    if p > extent * (1.0 - WallPercent) then v1 - WallAcc else v1
  }

  /** Rule 4: speed limit, then bounce, then wall push, each per axis. */
  function RuleFour(b: Boid, size: Vec2, root: real -> real): (r: Boid)
    requires IsSqrt(root)
    ensures r.pos == b.pos
  {
    var c := Clamp(b.vel, root);
    var nx := BounceAxis(b.pos.x, c.x, size.x);
    var ny := BounceAxis(b.pos.y, c.y, size.y);
    b.(vel := Vec2(WallAxis(b.pos.x, nx, size.x), WallAxis(b.pos.y, ny, size.y)))
  }

  /* ---------------- Rule 5: goal seeking ---------------- */

  /** Steer 1/200 of the way from the boid's position towards the goal. */
  function RuleFive(b: Boid, goal: Vec2): (r: Boid)
    ensures r.pos == b.pos
  {
    b.(vel := Add(b.vel, Div(Sub(goal, b.pos), 200.0)))
  }

  /* ---------------- Properties of the rules ---------------- */

  /**
    Cohesion changes the velocity by 1/200 of the mean offset from the boid to
    its neighbours, and leaves it alone when there is no neighbour.
   */
  lemma CohesionMeanOffset(b: Boid, all: seq<Boid>, self: nat)
    ensures var n := NearCount(all, self, b.pos, MaxPerceiveSq, |all|);
            n > 0 ==> Sub(RuleOne(b, all, self).vel, b.vel)
                      == Div(NearOffsetSum(all, self, b.pos, MaxPerceiveSq, |all|), 200.0 * n as real)
    ensures NearCount(all, self, b.pos, MaxPerceiveSq, |all|) == 0 ==> RuleOne(b, all, self) == b
  {
    var n := NearCount(all, self, b.pos, MaxPerceiveSq, |all|);
    if n > 0 {
      OffsetSumFromPosSum(all, self, b.pos, MaxPerceiveSq, |all|);
      var s := NearPosSum(all, self, b.pos, MaxPerceiveSq, |all|);
      MeanOffsetStep(s, b.pos, n as real);
    }
  }

  /** (s / n - p) / 200 == (s - n p) / (200 n), componentwise. */
  lemma MeanOffsetStep(s: Vec2, p: Vec2, n: real)
    requires 0.0 < n
    ensures Div(Sub(Div(s, n), p), 200.0) == Div(Sub(s, Scale(p, n)), 200.0 * n)
  {
    assert (s.x / n - p.x) / 200.0 == (s.x - p.x * n) / (200.0 * n);
    assert (s.y / n - p.y) / 200.0 == (s.y - p.y * n) / (200.0 * n);
  }

  /**
    Separation subtracts 1/20 of the summed offsets to every boid strictly
    inside the minimum distance: each such boid contributes, none is skipped.
   */
  lemma {:induction false} SeparationSumsOffsets(b: Boid, all: seq<Boid>, self: nat, k: nat)
    requires k <= |all|
    ensures SeparationUpTo(b, all, self, k) == Sub(b.vel, Div(NearOffsetSum(all, self, b.pos, MinDistSq, k), 20.0))
  {
    if k > 0 {
      SeparationSumsOffsets(b, all, self, k - 1);
      if Near(all, self, b.pos, MinDistSq, k - 1) {
        PushStep(b.vel, NearOffsetSum(all, self, b.pos, MinDistSq, k - 1), Sub(all[k - 1].pos, b.pos));
      }
    }
  }

  /** Subtracting two twentieths one after the other is subtracting the twentieth of their sum. */
  lemma PushStep(v: Vec2, o: Vec2, q: Vec2)
    ensures Sub(Sub(v, Div(o, 20.0)), Div(q, 20.0)) == Sub(v, Div(Add(o, q), 20.0))
  {
  }

  /**
    Alignment closes 1/20 of the gap between the velocity and the target of
    1.2 times the neighbours' mean velocity.
   */
  lemma AlignmentClosesGap(b: Boid, all: seq<Boid>, self: nat)
    requires NearCount(all, self, b.pos, MaxPerceiveSq, |all|) > 0
    ensures var t := AlignTarget(all, self, b.pos);
            Sub(RuleThree(b, all, self).vel, t) == Scale(Sub(b.vel, t), 0.95)
  {
  }

  /** Too-close boids are also within the perception radius. */
  lemma CloseIsPerceived(all: seq<Boid>, self: nat, pos: Vec2, j: nat)
    requires j < |all|
    ensures Near(all, self, pos, MinDistSq, j) ==> Near(all, self, pos, MaxPerceiveSq, j)
  {
  }

  /**
    Separation leaves the boid alone when no other boid is strictly inside the
    minimum distance, whatever lies further out.
   */
  lemma NoCloseBoidNoPush(b: Boid, all: seq<Boid>, self: nat)
    requires forall j | 0 <= j < |all| :: !Near(all, self, b.pos, MinDistSq, j)
    ensures RuleTwo(b, all, self) == b
  {
    NoNeighboursNoSums(all, self, b.pos, MinDistSq, |all|);
    SeparationSumsOffsets(b, all, self, |all|);
  }

  /**
    A boid with no other boid strictly inside the perception radius is left
    untouched by cohesion, separation and alignment; in particular a flock of
    one.
   */
  lemma IsolatedBoidUnsteered(b: Boid, all: seq<Boid>, self: nat)
    requires forall j | 0 <= j < |all| :: !Near(all, self, b.pos, MaxPerceiveSq, j)
    ensures RuleOne(b, all, self) == b
    ensures RuleTwo(b, all, self) == b
    ensures RuleThree(b, all, self) == b
  {
    NoNeighboursNoSums(all, self, b.pos, MaxPerceiveSq, |all|);
    forall j | 0 <= j < |all|
      ensures !Near(all, self, b.pos, MinDistSq, j)
    {
      CloseIsPerceived(all, self, b.pos, j);
    }
    NoCloseBoidNoPush(b, all, self);
  }

  /** In a flock of one there is nobody to steer by. */
  lemma LoneBoidUnsteered(b: Boid, all: seq<Boid>)
    requires |all| == 1
    ensures RuleThree(RuleTwo(RuleOne(b, all, 0), all, 0), all, 0) == b
  {
    IsolatedBoidUnsteered(b, all, 0);
  }

  /**
    The neighbour rules read every slot of the buffer except the boid's own:
    what is stored there does not matter.
   */
  lemma RulesIgnoreOwnSlot(b: Boid, all: seq<Boid>, self: nat, x: Boid)
    requires self < |all|
    ensures RuleOne(b, all[self := x], self) == RuleOne(b, all, self)
    ensures RuleTwo(b, all[self := x], self) == RuleTwo(b, all, self)
    ensures RuleThree(b, all[self := x], self) == RuleThree(b, all, self)
  {
    ScanIgnoresSelf(all, self, x, b.pos, MaxPerceiveSq, |all|);
    ScanIgnoresSelf(all, self, x, b.pos, MinDistSq, |all|);
    SeparationSumsOffsets(b, all[self := x], self, |all|);
    SeparationSumsOffsets(b, all, self, |all|);
  }

  /** Above the limit the velocity keeps its direction: it is shrunk by a factor in (0, 1). */
  lemma ClampKeepsDirection(v: Vec2, root: real -> real)
    requires IsSqrt(root)
    requires LengthSq(v) > MaxSpeedSq
    ensures exists k: real :: 0.0 < k < 1.0 && Clamp(v, root) == Scale(v, k)
  {
    var s := root(LengthSq(v));
    assert 0.0 <= s && s * s == LengthSq(v);
    if s <= MaxSpeedFrame {
      SquareMonotone(s, MaxSpeedFrame);
      assert false;
    }
    assert 0.0 < s;
    assert Clamp(v, root) == Scale(v, MaxSpeedFrame / s);
  }

  /**
    A boid in the wall-free middle band whose speed is within the limit and
    whose next position stays on screen leaves rule 4 unchanged.
   */
  lemma RuleFourAtRest(b: Boid, size: Vec2, root: real -> real)
    requires IsSqrt(root)
    requires LengthSq(b.vel) <= MaxSpeedSq
    requires size.x * WallPercent <= b.pos.x <= size.x * (1.0 - WallPercent)
    requires size.y * WallPercent <= b.pos.y <= size.y * (1.0 - WallPercent)
    requires 0.0 <= b.pos.x + b.vel.x <= size.x && 0.0 <= b.pos.y + b.vel.y <= size.y
    ensures RuleFour(b, size, root) == b
  {
  }

  /**
    Goal seeking raises the velocity's component towards the goal by 1/200 of
    the squared distance to it, so it strictly grows unless the boid is there.
   */
  lemma GoalRaisesApproach(b: Boid, goal: Vec2)
    ensures var d := Sub(goal, b.pos);
            Dot(RuleFive(b, goal).vel, d) == Dot(b.vel, d) + LengthSq(d) / 200.0
    ensures 0.0 < DistSq(goal, b.pos) ==> Dot(RuleFive(b, goal).vel, Sub(goal, b.pos)) > Dot(b.vel, Sub(goal, b.pos))
  {
  }
}
