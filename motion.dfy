/** The arithmetic of one animation tick, shared by both front ends: which
    trajectory index a tick aims at, and how the pose moves toward it. */
module Motion {
  import opened Geometry
  import Config

  /** The index a tick reads: the stored index, or 0 once it has reached the end. */
  function TargetIndex(current: nat, length: nat): (i: nat)
    ensures length > 0 ==> i < length
    ensures i == current || i == 0
  {
    if current >= length then 0 else current
  }

  /** The index a tick leaves behind: one past the target it read. */
  function NextIndex(current: nat, length: nat): (n: nat)
    ensures length > 0 ==> 1 <= n <= length
  {
    TargetIndex(current, length) + 1
  }

  /** The stored index after `k` ticks from index 0. */
  function IndexAfter(k: nat, length: nat): nat
  {
    if k == 0 then 0 else NextIndex(IndexAfter(k - 1, length), length)
  }

  /** One coordinate moved a tenth of the way toward its target. */
  function Lerp(from: real, to: real): real
  {
    from + (to - from) * 0.1
  }

  /** The pose after one tick toward `target`: both coordinates moved a tenth of
      the way, the heading set to the direction of the remaining vector. */
  function Step(p: Pose, target: Point, atan2: (real, real) -> real): (r: Pose)
    ensures target.x - r.x == 0.9 * (target.x - p.x) && target.y - r.y == 0.9 * (target.y - p.y)
  {
    Pose(Lerp(p.x, target.x), Lerp(p.y, target.y), atan2(target.y - p.y, target.x - p.x))
  }

  /** One tick moves the pose by 10% of the vector to the target, so 90% of the
      offset remains, and the heading is the direction of the original vector. */
  lemma StepRemainingOffset(p: Pose, target: Point, atan2: (real, real) -> real)
    ensures Step(p, target, atan2).x - p.x == 0.1 * (target.x - p.x)
    ensures Step(p, target, atan2).y - p.y == 0.1 * (target.y - p.y)
    ensures target.x - Step(p, target, atan2).x == 0.9 * (target.x - p.x)
    ensures target.y - Step(p, target, atan2).y == 0.9 * (target.y - p.y)
    ensures Step(p, target, atan2).theta == atan2(target.y - p.y, target.x - p.x)
  {
  }

  /** From the initial pose (0, -2, 0) toward the point (2, 0), one tick gives
      (0.2, -1.8) with heading atan2(2, 2). */
  lemma FirstTickFromInitialState(atan2: (real, real) -> real)
    ensures Step(Config.INITIAL_STATE, Point(2.0, 0.0), atan2) == Pose(0.2, -1.8, atan2(2.0, 2.0))
  {
  }

  function Pow(r: real, k: nat): real
  {
    if k == 0 then 1.0 else r * Pow(r, k - 1)
  }

  /** A coordinate after `k` ticks toward a fixed target. */
  function Approach(from: real, to: real, k: nat): real
  {
    if k == 0 then from else Lerp(Approach(from, to, k - 1), to)
  }

  /** After `k` ticks toward a fixed target the offset is 0.9^k of the original one. */
  lemma {:induction false} ApproachOffset(from: real, to: real, k: nat)
    ensures to - Approach(from, to, k) == Pow(0.9, k) * (to - from)
  {
    if k > 0 {
      ApproachOffset(from, to, k - 1);
      var a := Approach(from, to, k - 1);
      calc {
        to - Approach(from, to, k);
        to - Lerp(a, to);
        0.9 * (to - a);
        0.9 * (Pow(0.9, k - 1) * (to - from));
        (0.9 * Pow(0.9, k - 1)) * (to - from);
      }
    }
  }

  lemma {:induction false} PowPositive(r: real, k: nat)
    requires r > 0.0
    ensures Pow(r, k) > 0.0
  {
    if k > 0 {
      PowPositive(r, k - 1);
      assert r * Pow(r, k - 1) > 0.0;
    }
  }

  /** The approach is exponential: a coordinate not already on its target never
      reaches it exactly. */
  lemma NeverArrives(from: real, to: real, k: nat)
    requires from != to
    ensures Approach(from, to, k) != to
  {
    ApproachOffset(from, to, k);
    PowPositive(0.9, k);
    assert Pow(0.9, k) * (to - from) != 0.0;
  }

  /** Between ticks the stored index is one past a valid index. */
  lemma IndexAfterBounds(k: nat, length: nat)
    requires length > 0
    ensures k == 0 ==> IndexAfter(k, length) == 0
    ensures k > 0 ==> 1 <= IndexAfter(k, length) <= length
  {
  }

  /** Ticks from index 0 read the trajectory in order 0, 1, ..., length - 1 and
      then start again at 0: tick number k reads index k mod length. */
  lemma {:induction false} VisitOrder(k: nat, length: nat)
    requires length > 0
    ensures IndexAfter(k, length) == if k == 0 then 0 else (k - 1) % length + 1
    ensures TargetIndex(IndexAfter(k, length), length) == k % length
  {
    if k > 0 {
      VisitOrder(k - 1, length);
      ModSuccessor(k - 1, length);
    }
  }

  /** The remainder of a successor, without nonlinear arithmetic at the call site. */
  lemma ModSuccessor(a: nat, n: nat)
    requires n > 0
    ensures (a + 1) % n == if a % n == n - 1 then 0 else a % n + 1
  {
    var q, r := a / n, a % n;
    if r == n - 1 {
      ModUnique(a + 1, n, q + 1, 0);
    } else {
      ModUnique(a + 1, n, q, r + 1);
    }
  }

  /** The remainder is the unique r in [0, n) with x = q * n + r. */
  lemma ModUnique(x: int, n: int, q: int, r: int)
    requires n > 0 && 0 <= r < n && x == q * n + r
    ensures x % n == r
  {
    var q', r' := x / n, x % n;
    assert x == q' * n + r';
    var d := q - q';
    assert q * n - q' * n == d * n by { MulSub(q, q', n); }
    assert d * n == r' - r;
    if d > 0 {
      AtLeastOne(d, n);
    } else if d < 0 {
      AtLeastOne(-d, n);
    }
  }

  lemma MulSub(a: int, b: int, n: int)
    ensures a * n - b * n == (a - b) * n
  {
  }

  lemma AtLeastOne(d: int, n: int)
    requires d >= 1 && n > 0
    ensures d * n >= n
  {
    assert d * n == (d - 1) * n + n;
    assert (d - 1) * n >= 0;
  }
}
