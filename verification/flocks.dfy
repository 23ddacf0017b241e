/**
  `BoidFlock`: the double-buffered flock. Buffer `cur` holds the boids as they
  are now; `update` computes every boid's next state from that buffer alone,
  writes it into the other buffer and flips `cur`. The random generator of the
  source is replaced by the sequence of draws it would produce.
 */
module Flocks {
  import opened Options
  import opened Vectors
  import opened Constants
  import opened Boids
  import opened Neighbours
  import opened Rules
  import opened RuleScans

  /** Which of the two buffers is current; the source only ever stores 0 or 1 here. */
  type Selector = k: nat | k < 2

  datatype Flock = Flock(boids0: seq<Boid>, boids1: seq<Boid>, len: nat, size: Vec2,
                         cur: Selector, goal: Option<Vec2>)
  {
    function Buffer(k: Selector): seq<Boid> {
      if k == 0 then boids0 else boids1
    }

    /** Both buffers hold exactly `len` boids (the checks at the top of `update`). */
    predicate Valid() {
      |boids0| == len && |boids1| == len
    }
  }

  /* ---------------- Construction ---------------- */

  /**
    The first `count` boids spawned from `draws`, four draws each, pushed in
    order.
   */
  function Spawned(count: nat, size: Vec2, draws: seq<real>): (r: seq<Boid>)
    requires 4 * count <= |draws|
    ensures |r| == count
    ensures forall i | 0 <= i < count :: r[i] == Spawn(draws[4 * i .. 4 * i + 4], size)
  {
    if count == 0 then []
    else Spawned(count - 1, size, draws) + [Spawn(draws[4 * (count - 1) .. 4 * count], size)]
  }

  /**
    `BoidFlock::new`: `count` boids spawned into buffer 0 and copied into
    buffer 1, buffer 0 current, no goal.
   */
  function New(count: nat, size: Vec2, draws: seq<real>): (r: Flock)
    requires 4 * count <= |draws|
    ensures r.Valid() && r.len == count && r.size == size
    ensures r.cur == 0 && r.goal == None
    ensures r.boids0 == r.boids1
    ensures forall i | 0 <= i < count :: r.boids0[i] == Spawn(draws[4 * i .. 4 * i + 4], size)
  {
    var spawned := Spawned(count, size, draws);
    Flock(spawned, spawned, count, size, 0, None)
  }

  /**
    With unit draws and a positive size, every boid of a new flock starts on
    screen with both velocity components in [0, MaxSpeedFrame).
   */
  lemma NewBoidsInRange(count: nat, size: Vec2, draws: seq<real>)
    requires 4 * count <= |draws|
    requires forall k | 0 <= k < |draws| :: IsUnitDraw(draws[k])
    requires size.x > 0.0 && size.y > 0.0
    ensures forall i | 0 <= i < count ::
              InWorld(New(count, size, draws).boids0[i].pos, size)
              && 0.0 <= New(count, size, draws).boids0[i].vel.x < MaxSpeedFrame
              && 0.0 <= New(count, size, draws).boids0[i].vel.y < MaxSpeedFrame
  {
    var f := New(count, size, draws);
    forall i | 0 <= i < count
      ensures InWorld(f.boids0[i].pos, size)
      ensures 0.0 <= f.boids0[i].vel.x < MaxSpeedFrame && 0.0 <= f.boids0[i].vel.y < MaxSpeedFrame
    {
      var d := draws[4 * i .. 4 * i + 4];
      assert forall k | 0 <= k < 4 :: d[k] == draws[4 * i + k];
      SpawnInRange(d, size);
    }
  }

  /* ---------------- Accessors ---------------- */

  /** `iter`: the boids of the current buffer. */
  function Agents(f: Flock): (r: seq<Boid>)
    requires f.Valid()
    ensures |r| == f.len
  {
    f.Buffer(f.cur)
  }

  /** `resize`: the source panics unless both extents are positive. */
  function Resize(f: Flock, newSize: Vec2): (r: Flock)
    requires newSize.x > 0.0 && newSize.y > 0.0
    ensures r.size == newSize
  {
    f.(size := newSize)
  }

  /** `set_goal`. */
  function SetGoal(f: Flock, newGoal: Option<Vec2>): (r: Flock)
    ensures r.goal == newGoal
  {
    f.(goal := newGoal)
  }

  /** `get_goal`. */
  function GetGoal(f: Flock): Option<Vec2> {
    f.goal
  }

  /** Resizing and setting the goal change nothing but their own field. */
  lemma SettersTouchOneField(f: Flock, size: Vec2, goal: Option<Vec2>)
    requires size.x > 0.0 && size.y > 0.0
    ensures Resize(f, size).(size := f.size) == f
    ensures SetGoal(f, goal).(goal := f.goal) == f
  {
  }

  /** The goal read back is the goal last set, and setting the goal read leaves the flock as it was. */
  lemma GoalRoundTrip(f: Flock, goal: Option<Vec2>)
    ensures GetGoal(SetGoal(f, goal)) == goal
    ensures SetGoal(f, GetGoal(f)) == f
  {
  }

  /** Resizing moves no boid: the current buffer is unchanged, even if boids now lie outside. */
  lemma ResizeKeepsAgents(f: Flock, size: Vec2)
    requires f.Valid() && size.x > 0.0 && size.y > 0.0
    ensures Resize(f, size).Valid()
    ensures Agents(Resize(f, size)) == Agents(f)
  {
  }

  /* ---------------- Update ---------------- */

  /**
    The next state of boid `i`, read from buffer `from`: rules one to four,
    rule five when there is a goal, then a move by the final velocity.
   */
  function Step(from: seq<Boid>, i: nat, size: Vec2, goal: Option<Vec2>, root: real -> real): (r: Boid)
    requires i < |from| && IsSqrt(root)
    ensures Sub(r.pos, from[i].pos) == r.vel
  {
    var b1 := RuleOne(from[i], from, i);
    var b2 := RuleTwo(b1, from, i);
    var b3 := RuleThree(b2, from, i);
    var b4 := RuleFour(b3, size, root);
    var b5 := match goal
      case Some(g) => RuleFive(b4, g)
      case None => b4;
    Integrate(b5)
  }

  /** The buffer `update` writes: the step of every boid of `from`. */
  function NextBuffer(from: seq<Boid>, size: Vec2, goal: Option<Vec2>, root: real -> real): (r: seq<Boid>)
    requires IsSqrt(root)
    ensures |r| == |from|
    ensures forall i | 0 <= i < |from| :: r[i] == Step(from, i, size, goal, root)
  {
    seq(|from|, i requires 0 <= i < |from| => Step(from, i, size, goal, root))
  }

  /**
    `update`: fill the other buffer with the next state of every boid and make
    it current.
   */
  function Update(f: Flock, root: real -> real): (r: Flock)
    requires f.Valid() && IsSqrt(root)
    ensures r.Valid()
    ensures r.cur == 1 - f.cur
    ensures r.len == f.len && r.size == f.size && r.goal == f.goal
    ensures r.Buffer(f.cur) == f.Buffer(f.cur)
    ensures forall i | 0 <= i < f.len :: Agents(r)[i] == Step(Agents(f), i, f.size, f.goal, root)
  {
    var next := NextBuffer(f.Buffer(f.cur), f.size, f.goal, root);
    if f.cur == 0 then f.(boids1 := next, cur := 1) else f.(boids0 := next, cur := 0)
  }

  /**
    `update` as the source runs it: a loop over the boids that overwrites the
    other buffer one slot at a time.
   */
  method UpdateLoop(f: Flock, root: real -> real) returns (r: Flock)
    requires f.Valid() && IsSqrt(root)
    ensures r == Update(f, root)
  {
    var from := f.Buffer(f.cur);
    var to := f.Buffer(1 - f.cur);
    var i := 0;
    while i < f.len
      invariant i <= f.len && |to| == f.len
      invariant forall j | 0 <= j < i :: to[j] == Step(from, j, f.size, f.goal, root)
    {
      var b := ScanRuleOne(from[i], from, i);
      b := ScanRuleTwo(b, from, i);
      b := ScanRuleThree(b, from, i);
      b := ApplyRuleFour(b, f.size, root);
      match f.goal {
        case Some(g) => b := RuleFive(b, g);
        case None =>
      }
      b := b.(pos := Add(b.pos, b.vel));
      to := to[i := b];
      i := i + 1;
    }
    assert to == NextBuffer(from, f.size, f.goal, root);
    if f.cur == 0 {
      r := f.(boids1 := to, cur := 1);
    } else {
      r := f.(boids0 := to, cur := 0);
    }
  }

  /** Two updates make the original buffer current again. */
  lemma UpdateTwiceRestoresSelector(f: Flock, root: real -> real)
    requires f.Valid() && IsSqrt(root)
    ensures Update(Update(f, root), root).cur == f.cur
  {
  }

  /**
    Only the current buffer is read: whatever the other buffer held before
    the update makes no difference to the result.
   */
  lemma UpdateIgnoresOtherBuffer(f: Flock, stale: seq<Boid>, root: real -> real)
    requires f.Valid() && IsSqrt(root) && |stale| == f.len
    ensures var g := if f.cur == 0 then f.(boids1 := stale) else f.(boids0 := stale);
            Update(g, root) == Update(f, root)
  {
  }

  /**
    A boid with nobody inside its perception radius and no goal set is moved
    by rule 4 alone.
   */
  lemma IsolatedStep(from: seq<Boid>, i: nat, size: Vec2, root: real -> real)
    requires i < |from| && IsSqrt(root)
    requires forall j | 0 <= j < |from| :: !Near(from, i, from[i].pos, MaxPerceiveSq, j)
    ensures Step(from, i, size, None, root) == Integrate(RuleFour(from[i], size, root))
  {
    IsolatedBoidUnsteered(from[i], from, i);
  }

  /**
    A lone boid mid-field, within the speed limit and heading for a point on
    screen, flies straight on when there is no goal.
   */
  lemma LoneBoidDrifts(f: Flock, root: real -> real)
    requires f.Valid() && IsSqrt(root) && f.len == 1 && f.goal == None
    requires var b := Agents(f)[0];
             LengthSq(b.vel) <= MaxSpeedSq
             && f.size.x * WallPercent <= b.pos.x <= f.size.x * (1.0 - WallPercent)
             && f.size.y * WallPercent <= b.pos.y <= f.size.y * (1.0 - WallPercent)
             && 0.0 <= b.pos.x + b.vel.x <= f.size.x && 0.0 <= b.pos.y + b.vel.y <= f.size.y
    ensures Agents(Update(f, root)) == [Integrate(Agents(f)[0])]
  {
    var from := Agents(f);
    LoneBoidUnsteered(from[0], from);
    RuleFourAtRest(from[0], f.size, root);
    assert Agents(Update(f, root))[0] == Step(from, 0, f.size, None, root);
  }

  /**
    A goal adds 1/200 of the offset to the goal to the velocity the boid would
    otherwise have ended with, and so also to its displacement.
   */
  lemma GoalAddsPull(from: seq<Boid>, i: nat, size: Vec2, goal: Vec2, root: real -> real)
    requires i < |from| && IsSqrt(root)
    ensures Sub(Step(from, i, size, Some(goal), root).vel, Step(from, i, size, None, root).vel)
            == Div(Sub(goal, from[i].pos), 200.0)
  {
  }
}
