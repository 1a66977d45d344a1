/** What every run keeps: the controller's record, the pool's target cell and the gauges. */
module Invariant {
  import opened Numeric
  import opened Config
  import opened Control
  import Shape

  /** True after every history, for every well-formed configuration. */
  predicate Inv(cfg: Settings, s: Core) {
    && InTargetBand(cfg, s.desired)
    && (s.suppressed ==> s.target == 0.0 && s.relaxed == 0)
    && (!s.suppressed ==> s.target == s.desired || (s.desired == 0.0 && s.target == cfg.targetStart))
    && s.slowState != Suppressed
    && s.state == Effective(s.suppressed, s.slowState)
    && 0.0 <= s.hostLoad <= 1.0 && 0.0 <= s.hostRunnable
    && 0 <= s.relaxed
    && (s.suppressed ==> !Cooled(cfg, s.hostLoad, s.hostRunnable))
    && (!s.suppressed ==> !Reached(cfg, s.hostLoad, s.hostRunnable))
  }

  lemma SmoothedBetween(cfg: Settings, hostLoad: real, load: real, guarded: bool)
    ensures var h := Smoothed(cfg, hostLoad, load, guarded);
      Min(hostLoad, load) <= h <= Max(hostLoad, load)
  {
    if 1 < cfg.smoothingSamples {
      var n := cfg.smoothingSamples as real;
      var step := (load - hostLoad) / n;
      assert n * step == load - hostLoad;
      assert 1.0 < n;
      if 0.0 <= step {
        ProductMonotone(1.0, n, step);
      } else {
        ProductMonotone(1.0, n, -step);
      }
    }
  }

  /** Averaging a positive load with samples never makes it zero. */
  lemma SmoothedStaysPositive(cfg: Settings, hostLoad: real, load: real)
    requires 0.0 < hostLoad && 0.0 <= load && 1 < cfg.smoothingSamples
    ensures 0.0 < Smoothed(cfg, hostLoad, load, false)
  {
    var n := cfg.smoothingSamples as real;
    var step := (load - hostLoad) / n;
    assert n * step == load - hostLoad;
    ProductGreater(1.0, n, hostLoad);
    assert n * (hostLoad + step) == n * hostLoad + n * step;
    if hostLoad + step <= 0.0 {
      ProductMonotone(hostLoad + step, 0.0, n);
    }
  }

  lemma NextKeepsInv(cfg: Settings, s: Core, e: Event)
    requires WellFormed(cfg) && Inv(cfg, s)
    ensures Inv(cfg, Next(cfg, s, e))
  {
    if e.Obs? && !Disabled(cfg) {
      SmoothedBetween(cfg, s.hostLoad, Load(e), Guarded(cfg, e));
    }
  }

  lemma {:induction false} RunKeepsInv(cfg: Settings, s: Core, es: seq<Event>)
    requires WellFormed(cfg) && Inv(cfg, s)
    ensures Inv(cfg, RunFrom(cfg, s, es))
    decreases es
  {
    if es == [] {
    } else {
      RunKeepsInv(cfg, s, es[..|es| - 1]);
      NextKeepsInv(cfg, RunFrom(cfg, s, es[..|es| - 1]), es[|es| - 1]);
    }
  }

  /** Zero cannot be a duty: the "unset" mark is then never confused with a real target. */
  predicate ZeroOutsideBand(cfg: Settings) {
    0.0 < cfg.targetMin || cfg.targetMax < 0.0
  }

  /** The master invariant. With zero outside the target band, the record is determined by the
      suppression flag and the slow loop's wishes. */
  lemma EveryHistory(cfg: Settings, es: seq<Event>)
    requires WellFormed(cfg)
    ensures var s := History(cfg, es);
      && Inv(cfg, s)
      && (ZeroOutsideBand(cfg) ==>
            && s.target == (if s.suppressed then 0.0 else s.desired)
            && (s.suppressed <==> s.target == 0.0))
  {
    RunKeepsInv(cfg, Init(cfg), es);
  }

  /** When an observation lifts suppression, the restored target is the desired one exactly when
      the desired one is not the "unset" mark. */
  lemma ResumeRestoresDesiredIff(cfg: Settings, s: Core, e: Event)
    requires WellFormed(cfg) && Inv(cfg, s) && s.suppressed
    requires !Next(cfg, s, e).suppressed
    ensures var after := Next(cfg, s, e);
      && (after.target == after.desired <==> s.desired != 0.0)
      && InTargetBand(cfg, after.target)
  {
  }

  const ZERO_IN_BAND := DEFAULTS.(targetMin := -0.01, fallbackTarget := 0.01, stepDown := 0.01)

  /** A configuration that validation accepts, and a history, after which the controller is not
      suppressed and yet runs at another target than the one the slow loop asked for. */
  lemma ZeroInBandLosesDesired()
    ensures ValidateConfig(ZERO_IN_BAND) == None && WellFormed(ZERO_IN_BAND)
    ensures var s := History(ZERO_IN_BAND, [StepOk(1.0, 0), Obs(1.0, Finite(0.0)), StepErr("down"),
                                            StepOk(1.0, 0), Obs(0.0, Finite(2.0)), Obs(0.0, Finite(0.0))]);
      !s.suppressed && s.desired == 0.0 && s.target == 0.22
  {
    var cfg := ZERO_IN_BAND;
    CoercedFixesExactlyWellFormed(cfg);
    var s := Init(cfg);
    var es := [StepOk(1.0, 0), Obs(1.0, Finite(0.0)), StepErr("down"), StepOk(1.0, 0),
               Obs(0.0, Finite(2.0)), Obs(0.0, Finite(0.0))];
    var s1 := Next(cfg, s, es[0]);
    var s2 := Next(cfg, s1, es[1]);
    var s3 := Next(cfg, s2, es[2]);
    var s4 := Next(cfg, s3, es[3]);
    var s5 := Next(cfg, s4, es[4]);
    assert es[..1] == [es[0]] && es[..2] == [es[0]] + [es[1]];
    assert es[..3] == es[..2] + [es[2]] && es[..4] == es[..3] + [es[3]];
    assert es[..5] == es[..4] + [es[4]] && es == es[..5] + [es[5]];
    RunFromSnoc(cfg, s, [], es[0]);
    assert [] + [es[0]] == es[..1];
    RunFromSnoc(cfg, s, es[..1], es[1]);
    RunFromSnoc(cfg, s, es[..2], es[2]);
    RunFromSnoc(cfg, s, es[..3], es[3]);
    RunFromSnoc(cfg, s, es[..4], es[4]);
    RunFromSnoc(cfg, s, es[..5], es[5]);
  }

  // ------------------------------------------------------- the cycler and the gauges

  /** The target the duty cycler must show. */
  function Shown(c: Cycler, target: real): real {
    if c.Driving? then Clamp(target, 0.0, 1.0) else target
  }

  function CyclerTarget(c: Cycler): real {
    match c
    case Driving(pool) => pool.target
    case Recorded(target) => target
  }

  predicate Mirrored(cfg: Settings, sys: System) {
    && Inv(cfg, sys.core)
    && CyclerTarget(sys.cycler) == Shown(sys.cycler, sys.core.target)
    && (sys.gauges.Some? ==>
          var g := sys.gauges.value;
          && g.state == sys.core.state
          && g.target == sys.core.target
          && g.mode == cfg.mode && g.lastError == sys.core.lastErr && g.p95 == sys.core.lastP95
          && (g.relaxed != sys.core.relaxed ==> sys.core.relaxed == 0 && sys.core.state == Fallback))
  }

  /** After every history the pool cell and the exported state, target, error and P95 mirror the
      record; the exported counter can lag only in the fallback state, where the true counter is zero. */
  lemma {:induction false} EverySystemMirrors(cfg: Settings, cycler: Cycler, gauges: Option<Gauges>,
                                              es: seq<Event>)
    requires WellFormed(cfg)
    requires gauges.Some? ==> gauges.value.relaxed == 0 && gauges.value.p95 == 0.0
    ensures Mirrored(cfg, AdvanceAll(cfg, Launch(cfg, cycler, gauges), es))
    decreases es
  {
    if es == [] {
    } else {
      EverySystemMirrors(cfg, cycler, gauges, es[..|es| - 1]);
      AdvanceMirrors(cfg, AdvanceAll(cfg, Launch(cfg, cycler, gauges), es[..|es| - 1]), es[|es| - 1]);
    }
  }

  lemma AdvanceMirrors(cfg: Settings, sys: System, e: Event)
    requires WellFormed(cfg) && Mirrored(cfg, sys)
    ensures Mirrored(cfg, Advance(cfg, sys, e))
  {
    NextKeepsInv(cfg, sys.core, e);
    var retarget := Shape.SetTarget(Finite(Next(cfg, sys.core, e).target));
    var first := if e.Obs? then Shape.ObserveLoad(Finite(Load(e)), Finite(Runnables(e))) else retarget;
    CyclerApplyShort(sys.cycler, first, retarget);
  }

  /** The failure path leaves the exported counter as it was: it is right afterwards exactly
      when it already showed zero. */
  lemma FailureLeavesGauge(cfg: Settings, sys: System, error: Error)
    requires sys.gauges.Some?
    ensures var after := Advance(cfg, sys, StepErr(error));
      after.gauges.value.relaxed == after.core.relaxed <==> sys.gauges.value.relaxed == 0
  {
  }
}
