/** Leaving suppression: how soon, after how many samples, and when never. */
module Resume {
  import opened Numeric
  import opened Config
  import opened Control
  import opened Invariant
  import Ladder

  function Samples(es: seq<Event>): nat
    decreases es
  {
    if es == [] then 0 else Samples(es[..|es| - 1]) + (if es[|es| - 1].Obs? then 1 else 0)
  }

  /** The divisor of the moving average; without smoothing it is one. */
  function Window(cfg: Settings): nat {
    if cfg.smoothingSamples <= 1 then 1 else cfg.smoothingSamples
  }

  /** Every sample is cool by the margin `d`. Failed observations and steps may be interleaved. */
  predicate CoolBy(cfg: Settings, es: seq<Event>, d: real) {
    forall i :: 0 <= i < |es| && es[i].Obs? ==>
      && (0.0 < cfg.suppressThreshold ==> Load(es[i]) <= cfg.suppressResume - d)
      && (0.0 < cfg.runnableThreshold ==> Runnables(es[i]) <= cfg.runnableResume)
  }

  /** How far the smoothed load is above the resume level, in window units. */
  function Gap(cfg: Settings, hostLoad: real): real {
    Window(cfg) as real * (hostLoad - cfg.suppressResume)
  }

  lemma GapSign(cfg: Settings, hostLoad: real)
    ensures 0.0 < Gap(cfg, hostLoad) <==> cfg.suppressResume < hostLoad
  {
    var n, x := Window(cfg) as real, hostLoad - cfg.suppressResume;
    assert Gap(cfg, hostLoad) == n * x;
    if 0.0 < x {
      ProductMonotone(1.0, n, x);
    } else {
      ProductMonotone(1.0, n, -x);
      assert n * -x == -(n * x);
    }
  }

  lemma GapMoves(cfg: Settings, h: real, load: real)
    requires h != 0.0
    ensures Gap(cfg, Smoothed(cfg, h, load, false)) == Gap(cfg, h) + (load - h)
  {
    var n := Window(cfg) as real;
    var step := (load - h) / n;
    assert n * step == load - h;
    assert n * (h + step - cfg.suppressResume) == n * (h - cfg.suppressResume) + n * step;
  }

  /** A cool sample that does not resume has brought the smoothed load at least `d` closer. */
  lemma CoolSample(cfg: Settings, s: Core, e: Event, d: real)
    requires WellFormed(cfg) && Inv(cfg, s) && 0.0 < d && e.Obs? && CoolBy(cfg, [e], d)
    requires Next(cfg, s, e).suppressed
    ensures var after := Next(cfg, s, e);
      && s.suppressed
      && 0.0 < cfg.suppressThreshold && cfg.suppressResume < after.hostLoad
      && Gap(cfg, after.hostLoad) <= Gap(cfg, s.hostLoad) - d
  {
    assert [e][0] == e;
    var after := Next(cfg, s, e);
    NextKeepsInv(cfg, s, e);
    assert !Guarded(cfg, e);
    SmoothedBetween(cfg, s.hostLoad, Load(e), false);
    if 0.0 < cfg.suppressThreshold && s.hostLoad != 0.0 {
      GapMoves(cfg, s.hostLoad, Load(e));
    }
  }

  /** The cooling `es` guarantees: `d` for each sample. */
  function Cooling(es: seq<Event>, d: real): real
    decreases es
  {
    if es == [] then 0.0 else Cooling(es[..|es| - 1], d) + (if es[|es| - 1].Obs? then d else 0.0)
  }

  lemma {:induction false} CoolingPerSample(es: seq<Event>, d: real)
    ensures Cooling(es, d) == Samples(es) as real * d
    decreases es
  {
    if es == [] {
    } else {
      CoolingPerSample(es[..|es| - 1], d);
    }
  }

  /** While still suppressed, each sample has brought the average closer by `d`. */
  lemma {:induction false} StillSuppressed(cfg: Settings, s: Core, es: seq<Event>, d: real)
    requires WellFormed(cfg) && Inv(cfg, s) && 0.0 < d && CoolBy(cfg, es, d)
    requires RunFrom(cfg, s, es).suppressed && 0 < Samples(es)
    ensures var t := RunFrom(cfg, s, es);
      && s.suppressed
      && 0.0 < cfg.suppressThreshold && cfg.suppressResume < t.hostLoad
      && Gap(cfg, t.hostLoad) <= Gap(cfg, s.hostLoad) - Cooling(es, d)
    decreases es
  {
    var before, e := es[..|es| - 1], es[|es| - 1];
    var t := RunFrom(cfg, s, before);
    RunKeepsInv(cfg, s, before);
    CoolParts(cfg, es, d);
    if e.Obs? {
      CoolSample(cfg, t, e, d);
    }
    if 0 < Samples(before) {
      StillSuppressed(cfg, s, before, d);
    } else {
      NoSamples(cfg, s, before);
      CoolingPerSample(before, d);
    }
  }

  lemma CoolParts(cfg: Settings, es: seq<Event>, d: real)
    requires es != [] && CoolBy(cfg, es, d)
    ensures CoolBy(cfg, es[..|es| - 1], d) && CoolBy(cfg, [es[|es| - 1]], d)
  {
    var before := es[..|es| - 1];
    assert forall i :: 0 <= i < |before| ==> before[i] == es[i];
  }

  lemma {:induction false} NoSamples(cfg: Settings, s: Core, es: seq<Event>)
    requires Samples(es) == 0
    ensures var t := RunFrom(cfg, s, es);
      t.suppressed == s.suppressed && t.hostLoad == s.hostLoad && t.hostRunnable == s.hostRunnable
    decreases es
  {
    if es == [] {
    } else {
      NoSamples(cfg, s, es[..|es| - 1]);
    }
  }

  /** Bounded resume: from any reachable state, once the samples are cool by `d`, the controller is
      unsuppressed after any history holding at least one sample and at least
      `n * (h0 - resume) / d` of them. */
  lemma ResumesWithinBound(cfg: Settings, s: Core, es: seq<Event>, d: real)
    requires WellFormed(cfg) && Inv(cfg, s) && 0.0 < d && CoolBy(cfg, es, d)
    requires 0 < Samples(es)
    requires 0.0 < cfg.suppressThreshold ==>
      Gap(cfg, s.hostLoad) <= Samples(es) as real * d
    ensures !RunFrom(cfg, s, es).suppressed
  {
    var t := RunFrom(cfg, s, es);
    if t.suppressed {
      StillSuppressed(cfg, s, es, d);
      CoolingPerSample(es, d);
      GapSign(cfg, t.hostLoad);
      assert false;
    }
  }

  // -------------------------------------------------------- a constant cool sample

  function Repeat(e: Event, k: nat): seq<Event> {
    if k == 0 then [] else Repeat(e, k - 1) + [e]
  }

  /** The smoothed load after `k` samples of one value, in closed form. */
  function Decayed(cfg: Settings, h0: real, load: real, k: nat): real {
    load + Pow(1.0 - 1.0 / (Window(cfg) as real), k) * (h0 - load)
  }

  lemma DecayStep(cfg: Settings, h0: real, load: real, k: nat)
    requires 0.0 < h0 && 0.0 <= load && 2 <= cfg.smoothingSamples
    ensures 0.0 < Decayed(cfg, h0, load, k)
    ensures Smoothed(cfg, Decayed(cfg, h0, load, k), load, false) == Decayed(cfg, h0, load, k + 1)
  {
    var n := Window(cfg) as real;
    var q, x := 1.0 - 1.0 / n, h0 - load;
    Fraction(n);
    PowUnit(q, k);
    Convex(Pow(q, k), h0, load);
    assert Decayed(cfg, h0, load, k) == load + Pow(q, k) * x;
    Contract(n, Pow(q, k), x);
    assert Pow(q, k + 1) == q * Pow(q, k);
  }

  lemma Fraction(n: real)
    requires 2.0 <= n
    ensures 0.0 < 1.0 / n <= 0.5
  {
    var r := 1.0 / n;
    assert n * r == 1.0;
    if 0.5 < r {
      ProductMonotone(2.0, n, r);
    }
  }

  lemma Convex(p: real, a: real, b: real)
    requires 0.0 < p <= 1.0 && 0.0 < a && 0.0 <= b
    ensures 0.0 < b + p * (a - b)
  {
    var q := 1.0 - p;
    NotNegative(q, b);
    ProductPositive(p, a);
    Blend(p, a, b);
  }

  lemma NotNegative(q: real, b: real)
    requires 0.0 <= q && 0.0 <= b
    ensures 0.0 <= q * b
  {
  }

  lemma Blend(p: real, a: real, b: real)
    ensures b + p * (a - b) == (1.0 - p) * b + p * a
  {
  }

  /** Averaging in one more sample multiplies the distance `p * x` by `1 - 1/n`. */
  lemma Contract(n: real, p: real, x: real)
    requires n != 0.0
    ensures p * x + (-(p * x)) / n == (1.0 - 1.0 / n) * p * x
  {
    var y, r := p * x, 1.0 / n;
    calc {
      p * x + (-(p * x)) / n;
      y + (-y) / n;
      { Reciprocal(-y, n); }
      y + (-y) * r;
      { Distribute(r, y); }
      (1.0 - r) * y;
      { Associate(1.0 - r, p, x); }
      (1.0 - r) * p * x;
    }
  }

  lemma Reciprocal(a: real, n: real)
    requires n != 0.0
    ensures a / n == a * (1.0 / n)
  {
    assert n * (a * (1.0 / n)) == a;
  }

  lemma Distribute(r: real, y: real)
    ensures y + -y * r == (1.0 - r) * y
  {
  }

  lemma Associate(a: real, b: real, c: real)
    ensures a * b * c == a * (b * c)
  {
  }

  lemma {:induction false} PowUnit(q: real, k: nat)
    requires 0.0 < q <= 1.0
    ensures 0.0 < Pow(q, k) <= 1.0
  {
    if k == 0 {
    } else {
      PowUnit(q, k - 1);
      var p := Pow(q, k - 1);
      ProductMonotone(q, 1.0, p);
      PowPositive(q, k);
    }
  }

  /** The smoothed load after `k` samples of one value, sample by sample. */
  function Course(cfg: Settings, h0: real, load: real, k: nat): real {
    if k == 0 then h0 else Smoothed(cfg, Course(cfg, h0, load, k - 1), load, false)
  }

  lemma {:induction false} CourseInClosedForm(cfg: Settings, h0: real, load: real, k: nat)
    requires 0.0 < h0 && 0.0 <= load && 2 <= cfg.smoothingSamples
    ensures Course(cfg, h0, load, k) == Decayed(cfg, h0, load, k)
  {
    if k == 0 {
    } else {
      CourseInClosedForm(cfg, h0, load, k - 1);
      DecayStep(cfg, h0, load, k - 1);
    }
  }

  /** A course that is on the sample's side of the resume level stays on it. */
  lemma {:induction false} CourseKeepsSide(cfg: Settings, h0: real, load: real, i: nat, k: nat)
    requires i <= k
    ensures cfg.suppressResume < load && cfg.suppressResume < Course(cfg, h0, load, i) ==>
      cfg.suppressResume < Course(cfg, h0, load, k)
    ensures load <= cfg.suppressResume && Course(cfg, h0, load, i) <= cfg.suppressResume ==>
      Course(cfg, h0, load, k) <= cfg.suppressResume
  {
    if k == i {
    } else {
      CourseKeepsSide(cfg, h0, load, i, k - 1);
      SmoothedBetween(cfg, Course(cfg, h0, load, k - 1), load, false);
    }
  }

  /** The runnable count alone keeps a suppressed controller suppressed. */
  predicate RunnablesHot(cfg: Settings, run: real) {
    0.0 < cfg.runnableThreshold && cfg.runnableResume < run
  }

  /** The smoothed load is above the resume level of an enabled band. */
  predicate LoadHot(cfg: Settings, load: real) {
    0.0 < cfg.suppressThreshold && cfg.suppressResume < load
  }

  /** The load follows the course from any state, suppressed or not, reachable or not. */
  lemma {:induction false} ConstantLoad(cfg: Settings, s: Core, e: Event, k: nat)
    requires e.Obs? && !Guarded(cfg, e) && !Disabled(cfg)
    ensures RunFrom(cfg, s, Repeat(e, k)).hostLoad == Course(cfg, s.hostLoad, Load(e), k)
  {
    if k == 0 {
    } else {
      ConstantLoad(cfg, s, e, k - 1);
      RunFromSnoc(cfg, s, Repeat(e, k - 1), e);
    }
  }

  /** One sample that reaches no threshold keeps the flag exactly while it leaves something hot. */
  lemma UnguardedStep(cfg: Settings, s: Core, e: Event)
    requires WellFormed(cfg) && Inv(cfg, s) && e.Obs? && !Guarded(cfg, e)
    ensures Next(cfg, s, e).suppressed <==>
      s.suppressed
      && (RunnablesHot(cfg, Runnables(e)) || LoadHot(cfg, Smoothed(cfg, s.hostLoad, Load(e), false)))
  {
    SmoothedBetween(cfg, s.hostLoad, Load(e), false);
  }

  /** `k` equal samples below the thresholds, from any state the invariant allows: the flag survives
      them exactly when the runnables are hot, or the course is above the resume level both after
      the first sample and after the last. */
  lemma {:induction false} ConstantSample(cfg: Settings, s: Core, e: Event, k: nat)
    requires WellFormed(cfg) && Inv(cfg, s) && e.Obs? && !Guarded(cfg, e) && 0 < k
    ensures var course := i => Course(cfg, s.hostLoad, Load(e), i);
      RunFrom(cfg, s, Repeat(e, k)).suppressed <==>
        s.suppressed
        && (RunnablesHot(cfg, Runnables(e)) || (LoadHot(cfg, course(1)) && LoadHot(cfg, course(k))))
  {
    var before := Repeat(e, k - 1);
    var t := RunFrom(cfg, s, before);
    RunFromSnoc(cfg, s, before, e);
    RunKeepsInv(cfg, s, before);
    UnguardedStep(cfg, t, e);
    if !Disabled(cfg) {
      ConstantLoad(cfg, s, e, k - 1);
      ConstantLoad(cfg, s, e, k);
    }
    if 1 < k {
      ConstantSample(cfg, s, e, k - 1);
      CourseKeepsSide(cfg, s.hostLoad, Load(e), 1, k - 1);
      CourseKeepsSide(cfg, s.hostLoad, Load(e), k - 1, k);
    }
  }

  /** Cooling in closed form: after `k` equal samples `u` with cool runnables the load is
      `u + (1 - 1/n)^k * (h0 - u)`, and a controller that started above the resume level is
      suppressed exactly while that exceeds it. */
  lemma ConstantSampleInClosedForm(cfg: Settings, s: Core, e: Event, k: nat)
    requires WellFormed(cfg) && Inv(cfg, s) && e.Obs? && !Guarded(cfg, e)
    requires 0.0 < cfg.suppressThreshold && 2 <= cfg.smoothingSamples
    requires cfg.suppressResume < s.hostLoad && !RunnablesHot(cfg, Runnables(e))
    ensures var t := RunFrom(cfg, s, Repeat(e, k));
      && t.hostLoad == Decayed(cfg, s.hostLoad, Load(e), k)
      && (t.suppressed <==>
            s.suppressed && cfg.suppressResume < Decayed(cfg, s.hostLoad, Load(e), k))
  {
    ConstantLoad(cfg, s, e, k);
    CourseInClosedForm(cfg, s.hostLoad, Load(e), k);
    if 0 < k {
      ConstantSample(cfg, s, e, k);
      CourseKeepsSide(cfg, s.hostLoad, Load(e), 0, 1);
      CourseKeepsSide(cfg, s.hostLoad, Load(e), 1, k);
    }
  }

  // ------------------------------------------------- when suppression is for ever

  ghost predicate CanResume(cfg: Settings, es: seq<Event>) {
    exists more :: !History(cfg, es + more).suppressed
  }

  /** A zero resume level under smoothing: the average approaches zero and never reaches it. */
  predicate Trapping(cfg: Settings) {
    && 0.0 < cfg.suppressThreshold && cfg.suppressResume == 0.0
    && 1 < cfg.smoothingSamples
    && cfg.runnableThreshold == 0.0
  }

  /** Every history can be continued to an unsuppressed state exactly when the configuration is not
      a trapping one; validation accepts trapping configurations. */
  lemma RecoverableIff(cfg: Settings)
    requires WellFormed(cfg)
    ensures (forall es :: CanResume(cfg, es)) <==> !Trapping(cfg)
  {
    if Trapping(cfg) {
      var hot := Obs(1.0, Finite(0.0));
      RunFromSnoc(cfg, Init(cfg), [], hot);
      assert [] + [hot] == [hot];
      forall more
        ensures History(cfg, [hot] + more).suppressed
      {
        RunFromConcat(cfg, Init(cfg), [hot], more);
        Trapped(cfg, History(cfg, [hot]), more);
      }
      assert !CanResume(cfg, [hot]);
    } else {
      forall es
        ensures CanResume(cfg, es)
      {
        var more := Continuation(cfg, es);
        RunFromConcat(cfg, Init(cfg), es, more);
        assert !History(cfg, es + more).suppressed;
      }
    }
  }

  lemma TrappedStep(cfg: Settings, s: Core, e: Event)
    requires WellFormed(cfg) && Trapping(cfg) && s.suppressed && 0.0 < s.hostLoad
    ensures var t := Next(cfg, s, e); t.suppressed && 0.0 < t.hostLoad
  {
    if e.Obs? && !Guarded(cfg, e) {
      SmoothedStaysPositive(cfg, s.hostLoad, Load(e));
    }
  }

  lemma {:induction false} Trapped(cfg: Settings, s: Core, es: seq<Event>)
    requires WellFormed(cfg) && Trapping(cfg) && s.suppressed && 0.0 < s.hostLoad
    ensures var t := RunFrom(cfg, s, es); t.suppressed && 0.0 < t.hostLoad
    decreases es
  {
    if es == [] {
    } else {
      Trapped(cfg, s, es[..|es| - 1]);
      TrappedStep(cfg, RunFrom(cfg, s, es[..|es| - 1]), es[|es| - 1]);
    }
  }

  const IDLE := Obs(0.0, Finite(0.0))

  lemma {:induction false} RepeatOnly(e: Event, k: nat)
    ensures |Repeat(e, k)| == k && forall i :: 0 <= i < k ==> Repeat(e, k)[i] == e
    ensures e.Obs? ==> Samples(Repeat(e, k)) == k
  {
    if k == 0 {
    } else {
      RepeatOnly(e, k - 1);
      assert Repeat(e, k)[..k - 1] == Repeat(e, k - 1);
    }
  }

  lemma IdleHistory(cfg: Settings, k: nat, d: real)
    requires WellFormed(cfg) && (0.0 < cfg.suppressThreshold ==> d <= cfg.suppressResume)
    ensures CoolBy(cfg, Repeat(IDLE, k), d) && Samples(Repeat(IDLE, k)) == k
  {
    RepeatOnly(IDLE, k);
    assert Load(IDLE) == 0.0 && Runnables(IDLE) == 0.0;
  }

  lemma Continuation(cfg: Settings, es: seq<Event>) returns (more: seq<Event>)
    requires WellFormed(cfg) && !Trapping(cfg)
    ensures !RunFrom(cfg, History(cfg, es), more).suppressed
  {
    var s := History(cfg, es);
    EveryHistory(cfg, es);
    if !s.suppressed {
      more := [];
    } else if cfg.suppressThreshold <= 0.0 {
      more := Repeat(IDLE, 1);
      IdleHistory(cfg, 1, 1.0);
      ResumesWithinBound(cfg, s, more, 1.0);
    } else if 0.0 < cfg.suppressResume {
      more := ByIdling(cfg, s);
    } else {
      more := ByReset(cfg, s);
    }
  }

  lemma ByIdling(cfg: Settings, s: Core) returns (more: seq<Event>)
    requires WellFormed(cfg) && Inv(cfg, s) && 0.0 < cfg.suppressResume
    ensures !RunFrom(cfg, s, more).suppressed
  {
    var d, gap := cfg.suppressResume, Gap(cfg, s.hostLoad);
    var k := EnoughSamples(gap, d);
    more := Repeat(IDLE, k);
    IdleHistory(cfg, k, d);
    ResumesWithinBound(cfg, s, more, d);
  }

  lemma EnoughSamples(gap: real, d: real) returns (k: nat)
    requires 0.0 < d
    ensures 0 < k && gap <= k as real * d
  {
    if gap <= 0.0 {
      k := 1;
      ProductMonotone(0.0, k as real, d);
    } else {
      k := Ladder.Quotient(gap, d);
    }
  }

  /** The load must first be exactly zero: a runnable overload on an idle CPU sets it to zero. */
  lemma ByReset(cfg: Settings, s: Core) returns (more: seq<Event>)
    requires WellFormed(cfg) && Inv(cfg, s) && s.suppressed
    requires 0.0 < cfg.suppressThreshold && cfg.suppressResume == 0.0 && !Trapping(cfg)
    ensures !RunFrom(cfg, s, more).suppressed
  {
    var reset := if cfg.smoothingSamples <= 1 then IDLE else Obs(0.0, Finite(cfg.runnableThreshold));
    more := [reset] + [IDLE];
    RunFromSnoc(cfg, s, [reset], IDLE);
    RunFromSnoc(cfg, s, [], reset);
    assert [] + [reset] == [reset];
  }

  const TRAP := DEFAULTS.(suppressResume := 0.0, runnableThreshold := 0.0, runnableResume := 0.0)

  lemma TrapAccepted()
    ensures ValidateConfig(TRAP) == None && Trapping(TRAP) && WellFormed(TRAP)
    ensures exists es :: !CanResume(TRAP, es)
  {
    CoercedFixesExactlyWellFormed(TRAP);
    TargetTable(TRAP);
    SuppressionTable(TRAP);
    RecoverableIff(TRAP);
  }
}
