/** Repeated equal steps towards a cap, from a start that replaces the value zero: the shape of the
    slow loop's target under a run of equally placed samples. */
module Ladder {
  import opened Numeric

  datatype Ladder = Ladder(start: real, step: real, top: real) {
    predicate Valid() {
      0.0 < step && start != 0.0 && top != 0.0 && start <= top
    }
  }

  /** One step up; zero reads as "unset" and restarts. */
  function Up(l: Ladder, d: real): real {
    Min(l.top, (if d == 0.0 then l.start else d) + l.step)
  }

  function Climb(l: Ladder, d: real, n: nat): real {
    if n == 0 then d else Up(l, Climb(l, d, n - 1))
  }

  /** `k` times `step`. */
  function Times(k: nat, step: real): real {
    if k == 0 then 0.0 else Times(k - 1, step) + step
  }

  lemma {:induction false} TimesIsProduct(k: nat, step: real)
    ensures Times(k, step) == k as real * step
    ensures 0.0 <= step ==> 0.0 <= Times(k, step)
    ensures 0.0 < step && 0 < k ==> 0.0 < Times(k, step)
  {
    if k == 0 {
    } else {
      TimesIsProduct(k - 1, step);
    }
  }

  lemma {:induction false} TimesSum(j: nat, k: nat, step: real)
    ensures Times(j + k, step) == Times(j, step) + Times(k, step)
  {
    if k == 0 {
    } else {
      TimesSum(j, k - 1, step);
    }
  }

  /** Some number of steps from `d` is `distance` or more. */
  lemma EnoughSteps(distance: real, step: real) returns (n: nat)
    requires 0.0 < step
    ensures distance <= Times(n, step)
  {
    if distance <= 0.0 {
      n := 0;
    } else {
      n := Quotient(distance, step);
      TimesIsProduct(n, step);
    }
  }

  /** Division, rounded up. */
  lemma Quotient(distance: real, step: real) returns (n: nat)
    requires 0.0 < step && 0.0 < distance
    ensures 0 < n && distance <= n as real * step
  {
    var q := distance / step;
    assert q * step == distance;
    assert 0.0 <= q;
    n := q.Floor + 1;
    ProductMonotone(q, n as real, step);
  }

  lemma {:induction false} ClimbSum(l: Ladder, d: real, j: nat, k: nat)
    ensures Climb(l, d, j + k) == Climb(l, Climb(l, d, j), k)
  {
    if k == 0 {
    } else {
      ClimbSum(l, d, j, k - 1);
    }
  }

  /** The climb without restarts. */
  function Straight(l: Ladder, d: real, n: nat): real {
    Min(l.top, d + Times(n, l.step))
  }

  /** `k` steps from `x` land exactly on zero. */
  predicate Hits(x: real, k: nat, step: real) {
    x + Times(k, step) == 0.0
  }

  /** None of the first `n` uncapped values is zero. */
  predicate Clear(step: real, d: real, n: nat) {
    forall k: nat :: k < n ==> !Hits(d, k, step)
  }

  /** Some number of whole steps from `x` lands on zero. */
  ghost predicate MeetsZero(step: real, x: real) {
    exists k: nat :: Hits(x, k, step)
  }

  /** A restart looks like a step: the cap hides zero, or hides the difference. */
  predicate RestartInvisible(l: Ladder) {
    l.top < 0.0 || (l.top <= l.step && l.top <= l.start + l.step)
  }

  lemma {:induction false} ClimbIsStraight(l: Ladder, d: real, n: nat)
    requires l.Valid() && d <= l.top
    requires RestartInvisible(l) || Clear(l.step, d, n)
    ensures Climb(l, d, n) == Straight(l, d, n)
  {
    if n == 0 {
    } else {
      ClimbIsStraight(l, d, n - 1);
      TimesIsProduct(n - 1, l.step);
      assert RestartInvisible(l) || !Hits(d, n - 1, l.step);
    }
  }

  /** The least number of steps to zero. */
  lemma {:induction false} FirstZero(l: Ladder, d: real, k: nat) returns (m: nat)
    requires Hits(d, k, l.step)
    ensures m <= k && Hits(d, m, l.step) && Clear(l.step, d, m)
  {
    m := 0;
    while !Hits(d, m, l.step)
      invariant m <= k && Clear(l.step, d, m)
      decreases k - m
    {
      m := m + 1;
    }
  }

  /** The climb is straight for ever exactly when a restart is invisible or never happens. */
  lemma StraightIff(l: Ladder, d: real)
    requires l.Valid() && d <= l.top
    ensures (forall n: nat :: Climb(l, d, n) == Straight(l, d, n))
      <==> RestartInvisible(l) || !MeetsZero(l.step, d)
  {
    if RestartInvisible(l) || !MeetsZero(l.step, d) {
      forall n: nat
        ensures Climb(l, d, n) == Straight(l, d, n)
      {
        ClimbIsStraight(l, d, n);
      }
    } else {
      var k: nat :| Hits(d, k, l.step);
      var m := FirstZero(l, d, k);
      ClimbIsStraight(l, d, m);
      assert Climb(l, d, m + 1) == Min(l.top, l.start + l.step);
      assert Straight(l, d, m + 1) == Min(l.top, l.step);
      assert Climb(l, d, m + 1) != Straight(l, d, m + 1);
    }
  }

  /** The climb meets zero, and so does every restart. */
  ghost predicate Cycles(l: Ladder, d: real) {
    0.0 < l.top && MeetsZero(l.step, d) && MeetsZero(l.step, l.start)
  }

  lemma CycleStep(l: Ladder, d: real)
    requires l.Valid() && Cycles(l, d)
    ensures Cycles(l, Up(l, d)) && Up(l, d) <= 0.0
  {
    var from := if d == 0.0 then l.start else d;
    assert MeetsZero(l.step, from);
    var k: nat :| Hits(from, k, l.step);
    assert 0 < k;
    TimesIsProduct(k - 1, l.step);
    assert Hits(from + l.step, k - 1, l.step);
    assert Up(l, d) == from + l.step;
  }

  /** A cycling climb never passes zero. */
  lemma {:induction false} CycleTraps(l: Ladder, d: real, n: nat)
    requires l.Valid() && Cycles(l, d)
    ensures Cycles(l, Climb(l, d, n)) && Climb(l, d, n) <= 0.0
  {
    if n == 0 {
      var k: nat :| Hits(d, k, l.step);
      TimesIsProduct(k, l.step);
    } else {
      CycleTraps(l, d, n - 1);
      CycleStep(l, Climb(l, d, n - 1));
    }
  }

  /** After a restart the climb is the one from the start. */
  lemma {:induction false} RestartClimbs(l: Ladder, n: nat)
    requires l.Valid() && 0 < n
    ensures Climb(l, 0.0, n) == Climb(l, l.start, n)
  {
    if n == 1 {
    } else {
      RestartClimbs(l, n - 1);
    }
  }

  /** Without a cycle the top is reached: within one span when no visible restart occurs, and within
      two otherwise. */
  lemma ReachesTop(l: Ladder, d: real, n: nat, span: real)
    requires l.Valid() && d <= l.top && !Cycles(l, d)
    requires l.top - d <= span && l.top - l.start <= span
    requires (if RestartInvisible(l) || Clear(l.step, d, n) then span else 2.0 * span) <= Times(n, l.step)
    ensures Climb(l, d, n) == l.top
  {
    if RestartInvisible(l) || Clear(l.step, d, n) {
      ClimbIsStraight(l, d, n);
    } else {
      var k: nat :| k < n && Hits(d, k, l.step);
      assert MeetsZero(l.step, d) && 0.0 < l.top;
      var m := FirstZero(l, d, k);
      var rest := n - m;
      ClimbIsStraight(l, d, m);
      ClimbSum(l, d, m, rest);
      RestartClimbs(l, rest);
      assert !MeetsZero(l.step, l.start);
      ClimbIsStraight(l, l.start, rest);
      TimesSum(m, rest, l.step);
    }
  }

  /** From `n` steps on the climb is at the top. */
  ghost predicate SettlesBy(l: Ladder, d: real, n: nat) {
    forall m: nat :: n <= m ==> Climb(l, d, m) == l.top
  }

  /** The top is reached, and kept, exactly when the climb does not cycle. */
  lemma SettlesIff(l: Ladder, d: real)
    requires l.Valid() && d <= l.top
    ensures (exists n: nat :: SettlesBy(l, d, n)) <==> !Cycles(l, d)
  {
    if Cycles(l, d) {
      forall n: nat
        ensures !SettlesBy(l, d, n)
      {
        CycleTraps(l, d, n);
      }
    } else {
      var span := Max(l.top - d, l.top - l.start);
      var n := EnoughSteps(2.0 * span, l.step);
      forall m: nat | n <= m
        ensures Climb(l, d, m) == l.top
      {
        TimesSum(n, m - n, l.step);
        TimesIsProduct(m - n, l.step);
        ReachesTop(l, d, m, span);
      }
      assert SettlesBy(l, d, n);
    }
  }
}
