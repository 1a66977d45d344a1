/** The worker pool's shared cells: duty target, pause band and runnable guard
    (pkg/shape/pool.go, pkg/shape/pause.go). */
module Shape {
  import opened Numeric

  const MIN_QUANTUM := 1_000_000
  const MAX_QUANTUM := 5_000_000
  const DEFAULT_QUANTUM := MIN_QUANTUM

  datatype PoolState = PoolState(
    target: real,
    pause: real,
    resume: real,
    guard: real,
    paused: bool)

  /** What the pool's mutators store, on values. */
  datatype Write = ObserveLoad(utilisation: Float, runnable: Float) | SetTarget(value: Float)

  function UnitInterval(x: Float): real {
    match x
    case NaN => 0.0
    case Infinite(positive) => if positive then 1.0 else 0.0
    case Finite(v) => Clamp(v, 0.0, 1.0)
  }

  const FRESH := PoolState(0.0, 0.0, 0.0, 0.0, false)

  function PauseBand(p: PoolState, pause: Float, resume: Float): PoolState {
    var upper := UnitInterval(pause);
    p.(pause := upper,
       resume := Min(UnitInterval(resume), upper),
       paused := upper != 0.0 && p.paused)
  }

  function RunnableGuard(p: PoolState, threshold: Float): PoolState {
    p.(guard := NormaliseRunnable(threshold))
  }

  /** An observation decides the pause flag, or leaves it alone (`None`): inside the band, or
      when the utilisation is not a number. */
  function Verdict(p: PoolState, utilisation: Float, runnable: Float): Option<bool> {
    if !utilisation.Finite? then None
    else if 0.0 < p.guard <= NormaliseRunnable(runnable) then Some(true)
    else if p.pause <= 0.0 then Some(false)
    else if p.pause <= UnitInterval(utilisation) then Some(true)
    else if UnitInterval(utilisation) <= p.resume then Some(false)
    else None
  }

  function Apply(p: PoolState, w: Write): PoolState {
    match w
    case SetTarget(value) => p.(target := UnitInterval(value))
    case ObserveLoad(u, r) =>
      match Verdict(p, u, r)
      case Some(paused) => p.(paused := paused)
      case None => p
  }

  function ApplyAll(p: PoolState, ws: seq<Write>): PoolState
    decreases ws
  {
    if ws == [] then p else ApplyAll(Apply(p, ws[0]), ws[1..])
  }

  predicate Sound(p: PoolState) {
    && 0.0 <= p.target <= 1.0
    && 0.0 <= p.resume <= p.pause <= 1.0
    && 0.0 <= p.guard
  }

  /** Every write keeps the cells in range and touches only its own cell. */
  lemma {:induction false} ApplyAllFrame(p: PoolState, ws: seq<Write>)
    requires Sound(p)
    ensures var q := ApplyAll(p, ws);
      && Sound(q)
      && q.pause == p.pause && q.resume == p.resume && q.guard == p.guard
      && ((forall i :: 0 <= i < |ws| ==> ws[i].ObserveLoad?) ==> q.target == p.target)
      && ((forall i :: 0 <= i < |ws| ==> ws[i].SetTarget?) ==> q.paused == p.paused)
    decreases ws
  {
    if ws == [] {
    } else {
      var rest := ws[1..];
      ApplyAllFrame(Apply(p, ws[0]), rest);
      assert forall i :: 0 <= i < |rest| ==> rest[i] == ws[i + 1];
    }
  }

  lemma {:induction false} ApplyAllConcat(p: PoolState, a: seq<Write>, b: seq<Write>)
    ensures ApplyAll(p, a + b) == ApplyAll(ApplyAll(p, a), b)
    decreases a
  {
    if a == [] {
      assert a + b == b;
    } else {
      ApplyAllConcat(Apply(p, a[0]), a[1..], b);
      assert (a + b)[1..] == a[1..] + b;
    }
  }

  /** Hysteresis: the pause flag is the verdict of the latest deciding observation, and the
      initial flag when none decided. */
  lemma {:induction false} PausedByLatestVerdict(p: PoolState, ws: seq<Write>, k: nat)
    requires k < |ws| && ws[k].ObserveLoad?
    requires Verdict(p, ws[k].utilisation, ws[k].runnable).Some?
    requires forall i :: k < i < |ws| && ws[i].ObserveLoad? ==>
      Verdict(p, ws[i].utilisation, ws[i].runnable) == None
    ensures ApplyAll(p, ws).paused == Verdict(p, ws[k].utilisation, ws[k].runnable).value
  {
    var before, after := ws[..k], ws[k + 1..];
    assert ws == before + ([ws[k]] + after);
    ApplyAllConcat(p, before, [ws[k]] + after);
    var q := ApplyAll(p, before);
    VerdictFrame(p, before);
    UndecidedKeeps(Apply(q, ws[k]), after);
  }

  lemma {:induction false} VerdictFrame(p: PoolState, ws: seq<Write>)
    ensures var q := ApplyAll(p, ws); q.pause == p.pause && q.resume == p.resume && q.guard == p.guard
    decreases ws
  {
    if ws == [] {
    } else {
      VerdictFrame(Apply(p, ws[0]), ws[1..]);
    }
  }

  lemma {:induction false} UndecidedKeeps(p: PoolState, ws: seq<Write>)
    requires forall i :: 0 <= i < |ws| && ws[i].ObserveLoad? ==>
      Verdict(p, ws[i].utilisation, ws[i].runnable) == None
    ensures ApplyAll(p, ws).paused == p.paused
    decreases ws
  {
    if ws == [] {
    } else {
      var rest := ws[1..];
      assert forall i :: 0 <= i < |rest| ==> rest[i] == ws[i + 1];
      UndecidedKeeps(Apply(p, ws[0]), rest);
    }
  }

  // --------------------------------------------------- the cells in terms of raw inputs

  /** `v` is the number of the unit interval closest to `x`; NaN counts as zero. */
  predicate NearestInUnit(v: real, x: Float) {
    match x
    case NaN => v == 0.0
    case Infinite(positive) => v == if positive then 1.0 else 0.0
    case Finite(value) => ClosestInUnit(v, value)
  }

  /** The target is the latest one stored, brought into the unit interval. */
  lemma TargetIsLatest(p: PoolState, before: seq<Write>, value: Float, after: seq<Write>)
    requires forall i :: 0 <= i < |after| ==> after[i].ObserveLoad?
    ensures NearestInUnit(ApplyAll(p, before + [SetTarget(value)] + after).target, value)
  {
    var q := ApplyAll(p, before);
    assert before + [SetTarget(value)] + after == before + ([SetTarget(value)] + after);
    ApplyAllConcat(p, before, [SetTarget(value)] + after);
    assert ([SetTarget(value)] + after)[1..] == after;
    ObservationsKeepTarget(Apply(q, SetTarget(value)), after);
  }

  lemma {:induction false} ObservationsKeepTarget(p: PoolState, ws: seq<Write>)
    requires forall i :: 0 <= i < |ws| ==> ws[i].ObserveLoad?
    ensures ApplyAll(p, ws).target == p.target
    decreases ws
  {
    if ws == [] {
    } else {
      var rest := ws[1..];
      assert forall i :: 0 <= i < |rest| ==> rest[i] == ws[i + 1];
      ObservationsKeepTarget(Apply(p, ws[0]), rest);
    }
  }

  /** A usable observation that reaches the guard or the pause level. */
  predicate Raises(p: PoolState, w: Write) {
    && w.ObserveLoad? && w.utilisation.Finite?
    && (|| (p.guard != 0.0 && w.runnable.Finite? && p.guard <= w.runnable.value)
        || (p.pause != 0.0 && p.pause <= w.utilisation.value))
  }

  /** A usable observation that does not, and is down at the resume level or needs no level. */
  predicate Lowers(p: PoolState, w: Write) {
    && w.ObserveLoad? && w.utilisation.Finite? && !Raises(p, w)
    && (p.pause == 0.0 || w.utilisation.value <= p.resume)
  }

  ghost predicate RaisedAt(p: PoolState, ws: seq<Write>, k: int) {
    && 0 <= k < |ws|
    && Raises(p, ws[k])
    && forall j :: k < j < |ws| ==> !Lowers(p, ws[j])
  }

  predicate NeverLowered(p: PoolState, ws: seq<Write>) {
    forall j :: 0 <= j < |ws| ==> !Lowers(p, ws[j])
  }

  /** Hysteresis over any stores: the pool is paused exactly when an observation raised the flag, or
      it was up at the start, and none has lowered it since. */
  lemma {:induction false} PausedIff(p: PoolState, ws: seq<Write>)
    requires Sound(p)
    ensures ApplyAll(p, ws).paused <==>
      (exists k :: RaisedAt(p, ws, k)) || (p.paused && NeverLowered(p, ws))
    decreases |ws|
  {
    if ws == [] {
    } else {
      var n := |ws| - 1;
      var before, w := ws[..n], ws[n];
      PausedIff(p, before);
      assert ws == before + [w];
      ApplyAllConcat(p, before, [w]);
      var q := ApplyAll(p, before);
      VerdictFrame(p, before);
      assert ApplyAll(p, ws) == Apply(q, w);
      assert forall j :: 0 <= j < n ==> ws[j] == before[j];
      forall k | k != n
        ensures RaisedAt(p, ws, k) <==> RaisedAt(p, before, k) && !Lowers(p, w)
      {
        if RaisedAt(p, before, k) && !Lowers(p, w) {
          assert forall j :: k < j < |ws| ==> !Lowers(p, ws[j]);
        }
      }
      assert RaisedAt(p, ws, n) <==> Raises(p, w);
      assert NeverLowered(p, ws) <==> NeverLowered(p, before) && !Lowers(p, w);
    }
  }

  // ------------------------------------------------------------------- the pool

  /** `q` is the admissible quantum closest to the requested one. */
  predicate Nearest(q: int, requested: int) {
    && 1_000_000 <= q <= 5_000_000
    && (q < requested ==> q == 5_000_000)
    && (requested < q ==> q == 1_000_000)
  }

  class Pool {
    const workers: nat
    const quantum: nat
    var target: real
    var pauseThreshold: real
    var resumeThreshold: real
    var runnableGuard: real
    var paused: bool

    ghost function State(): PoolState
      reads this
    {
      PoolState(target, pauseThreshold, resumeThreshold, runnableGuard, paused)
    }

    constructor (workers: nat, quantum: int)
      requires 0 < workers
      ensures State() == FRESH
      ensures this.workers == workers
      ensures Nearest(this.quantum, quantum)
    {
      var q := if quantum <= 0 then DEFAULT_QUANTUM else quantum;
      if q < MIN_QUANTUM {
        q := MIN_QUANTUM;
      }
      if q > MAX_QUANTUM {
        q := MAX_QUANTUM;
      }
      this.workers := workers;
      this.quantum := q;
      paused := false;
      runnableGuard := 0.0;
      new;
      SetTarget(Finite(0.0));
      SetPauseThresholds(Finite(0.0), Finite(0.0));
    }

    method SetTarget(value: Float)
      modifies this`target
      ensures State() == Apply(old(State()), Write.SetTarget(value))
      ensures NearestInUnit(target, value)
    {
      match value
      case NaN => target := 0.0;
      case Infinite(positive) => target := if positive then 1.0 else 0.0;
      case Finite(v) =>
        if v < 0.0 {
          target := 0.0;
        } else if v > 1.0 {
          target := 1.0;
        } else {
          target := v;
        }
    }

    method SetPauseThresholds(pause: Float, resume: Float)
      modifies this`pauseThreshold, this`resumeThreshold, this`paused
      ensures State() == PauseBand(old(State()), pause, resume)
      ensures NearestInUnit(pauseThreshold, pause) && resumeThreshold <= pauseThreshold
      ensures NearestInUnit(resumeThreshold, resume)
        || (resumeThreshold == pauseThreshold
            && !exists r :: NearestInUnit(r, resume) && r <= pauseThreshold)
      ensures paused <==> old(paused) && pauseThreshold != 0.0
    {
      var upper, lower := UnitInterval(pause), UnitInterval(resume);
      if upper == 0.0 {
        lower := 0.0;
        paused := false;
      } else if lower > upper {
        lower := upper;
      }
      pauseThreshold := upper;
      resumeThreshold := lower;
    }

    method SetRunnableGuard(threshold: Float)
      modifies this`runnableGuard
      ensures State() == RunnableGuard(old(State()), threshold)
      ensures runnableGuard ==
        if threshold.Finite? && 0.0 < threshold.value then threshold.value else 0.0
    {
      runnableGuard := 0.0;
      if threshold.Finite? && threshold.value >= 0.0 {
        runnableGuard := threshold.value;
      }
    }

    method ObserveHostLoad(utilisation: Float, runnable: Float)
      modifies this`paused
      ensures State() == Apply(old(State()), ObserveLoad(utilisation, runnable))
    {
      if !utilisation.Finite? {
        return;
      }
      var load, run := UnitInterval(utilisation), NormaliseRunnable(runnable);
      if runnableGuard > 0.0 && run >= runnableGuard {
        paused := true;
        return;
      }
      if pauseThreshold <= 0.0 {
        paused := false;
        return;
      }
      if load >= pauseThreshold {
        paused := true;
        return;
      }
      if load <= resumeThreshold {
        paused := false;
      }
    }
  }

  /** Rejects a worker count that is not positive. */
  method NewPool(workers: int, quantum: int) returns (r: Result<Pool, Error>)
    ensures r.Ok? <==> 0 < workers
    ensures r.Ok? ==> fresh(r.value) && r.value.State() == FRESH && r.value.workers == workers
    ensures r.Ok? ==> Nearest(r.value.quantum, quantum)
  {
    if workers <= 0 {
      return Err("worker count must be positive");
    }
    var pool := new Pool(workers, quantum);
    r := Ok(pool);
  }
}
