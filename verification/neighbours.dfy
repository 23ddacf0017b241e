/**
  The neighbour scan shared by the cohesion, separation and alignment rules:
  every other boid strictly closer than a squared-distance limit. The scan
  runs over indices 0, 1, ... in order, so the aggregates are defined over the
  prefix `all[..k]` already visited.
 */
module Neighbours {
  import opened Vectors
  import opened Boids

  /** Boid `j` is not the boid itself and lies strictly within `limit` of `pos`. */
  predicate Near(all: seq<Boid>, self: nat, pos: Vec2, limit: real, j: nat)
    requires j < |all|
  {
    j != self && DistSq(pos, all[j].pos) < limit
  }

  /** Number of neighbours among the first `k` boids (`found`). */
  function NearCount(all: seq<Boid>, self: nat, pos: Vec2, limit: real, k: nat): nat
    requires k <= |all|
  {
    if k == 0 then 0
    else NearCount(all, self, pos, limit, k - 1) + (if Near(all, self, pos, limit, k - 1) then 1 else 0)
  }

  /** Sum of the neighbours' positions among the first `k` boids. */
  function NearPosSum(all: seq<Boid>, self: nat, pos: Vec2, limit: real, k: nat): Vec2
    requires k <= |all|
  {
    if k == 0 then Zero
    else
      var s := NearPosSum(all, self, pos, limit, k - 1);
      if Near(all, self, pos, limit, k - 1) then Add(s, all[k - 1].pos) else s
  }

  /** Sum of the neighbours' velocities among the first `k` boids. */
  function NearVelSum(all: seq<Boid>, self: nat, pos: Vec2, limit: real, k: nat): Vec2
    requires k <= |all|
  {
    if k == 0 then Zero
    else
      var s := NearVelSum(all, self, pos, limit, k - 1);
      if Near(all, self, pos, limit, k - 1) then Add(s, all[k - 1].vel) else s
  }

  /** Sum of the neighbours' offsets `all[j].pos - pos` among the first `k` boids. */
  function NearOffsetSum(all: seq<Boid>, self: nat, pos: Vec2, limit: real, k: nat): Vec2
    requires k <= |all|
  {
    if k == 0 then Zero
    else
      var s := NearOffsetSum(all, self, pos, limit, k - 1);
      if Near(all, self, pos, limit, k - 1) then Add(s, Sub(all[k - 1].pos, pos)) else s
  }

  /** Summing positions and then subtracting `found` copies of `pos` gives the summed offsets. */
  lemma {:induction false} OffsetSumFromPosSum(all: seq<Boid>, self: nat, pos: Vec2, limit: real, k: nat)
    requires k <= |all|
    ensures NearOffsetSum(all, self, pos, limit, k)
         == Sub(NearPosSum(all, self, pos, limit, k), Scale(pos, NearCount(all, self, pos, limit, k) as real))
  {
    if k > 0 {
      OffsetSumFromPosSum(all, self, pos, limit, k - 1);
      if Near(all, self, pos, limit, k - 1) {
        OffsetStep(NearPosSum(all, self, pos, limit, k - 1), all[k - 1].pos, pos,
                   NearCount(all, self, pos, limit, k - 1) as real);
      }
    }
  }

  /** One more summand `q` adds one more copy of `pos` to subtract. */
  lemma OffsetStep(sum: Vec2, q: Vec2, pos: Vec2, n: real)
    ensures Add(Sub(sum, Scale(pos, n)), Sub(q, pos)) == Sub(Add(sum, q), Scale(pos, n + 1.0))
  {
    assert pos.x * (n + 1.0) == pos.x * n + pos.x;
    assert pos.y * (n + 1.0) == pos.y * n + pos.y;
  }

  /** The indices of the neighbours among the first `k` boids. */
  ghost function NearSet(all: seq<Boid>, self: nat, pos: Vec2, limit: real, k: nat): set<nat>
    requires k <= |all|
  {
    set j: nat | j < k && Near(all, self, pos, limit, j)
  }

  /** The running count is the number of distinct qualifying indices. */
  lemma {:induction false} NearCountIsSetSize(all: seq<Boid>, self: nat, pos: Vec2, limit: real, k: nat)
    requires k <= |all|
    ensures NearCount(all, self, pos, limit, k) == |NearSet(all, self, pos, limit, k)|
  {
    if k > 0 {
      NearCountIsSetSize(all, self, pos, limit, k - 1);
      var prev := NearSet(all, self, pos, limit, k - 1);
      var next := NearSet(all, self, pos, limit, k);
      if Near(all, self, pos, limit, k - 1) {
        assert next == prev + {k - 1} by {
          forall j | j in next ensures j in prev + {k - 1} {}
        }
        assert k - 1 !in prev;
        assert |next| == |prev| + 1;
      } else {
        assert next == prev by {
          forall j | j in next ensures j in prev {}
        }
      }
    }
  }

  /** The boid's own index never qualifies, whatever `limit` is. */
  lemma SelfNeverNear(all: seq<Boid>, self: nat, pos: Vec2, limit: real, k: nat)
    requires k <= |all|
    ensures self !in NearSet(all, self, pos, limit, k)
  {
  }

  /** With no qualifying boid, the count is zero and both sums are zero. */
  lemma {:induction false} NoNeighboursNoSums(all: seq<Boid>, self: nat, pos: Vec2, limit: real, k: nat)
    requires k <= |all|
    requires forall j | 0 <= j < k :: !Near(all, self, pos, limit, j)
    ensures NearCount(all, self, pos, limit, k) == 0
    ensures NearPosSum(all, self, pos, limit, k) == Zero
    ensures NearVelSum(all, self, pos, limit, k) == Zero
    ensures NearOffsetSum(all, self, pos, limit, k) == Zero
  {
    if k > 0 {
      NoNeighboursNoSums(all, self, pos, limit, k - 1);
    }
  }

  /**
    The scan never reads the boid's own slot: replacing it with anything
    leaves the count and both sums unchanged.
   */
  lemma {:induction false} ScanIgnoresSelf(all: seq<Boid>, self: nat, x: Boid, pos: Vec2, limit: real, k: nat)
    requires self < |all| && k <= |all|
    ensures NearCount(all[self := x], self, pos, limit, k) == NearCount(all, self, pos, limit, k)
    ensures NearPosSum(all[self := x], self, pos, limit, k) == NearPosSum(all, self, pos, limit, k)
    ensures NearVelSum(all[self := x], self, pos, limit, k) == NearVelSum(all, self, pos, limit, k)
    ensures NearOffsetSum(all[self := x], self, pos, limit, k) == NearOffsetSum(all, self, pos, limit, k)
  {
    if k > 0 {
      ScanIgnoresSelf(all, self, x, pos, limit, k - 1);
      assert Near(all[self := x], self, pos, limit, k - 1) == Near(all, self, pos, limit, k - 1);
    }
  }
}
