/** The controller object, its recorder and its duty cycler
    (pkg/adapt/controller_*.go, pkg/adapt/suppression.go, pkg/adapt/dutycycler_wrapper.go).

    Each method is one locked section, or a part of one; its contract gives the whole new
    state of the controller, the cycler and the gauges. */
module Adapt {
  import opened Numeric
  import opened Config
  import opened Control
  import Shape

  /** The dry-run stand-in for the pool: remembers targets, ignores host load. */
  class RecordingDutyCycler {
    var target: real

    constructor (target: real)
      ensures this.target == target
    {
      this.target := target;
    }

    method SetTarget(value: real)
      modifies this
      ensures target == value
    {
      target := value;
    }
  }

  datatype DutyCycler = Live(pool: Shape.Pool) | Wrapped(cell: RecordingDutyCycler) {

    ghost function Cells(): set<object> {
      match this
      case Live(pool) => {pool}
      case Wrapped(cell) => {cell}
    }

    ghost function View(): Cycler
      reads Cells()
    {
      match this
      case Live(pool) => Driving(pool.State())
      case Wrapped(cell) => Recorded(cell.target)
    }

    method SetTarget(value: real)
      modifies Cells()
      ensures View() == CyclerApply(old(View()), Shape.SetTarget(Finite(value)))
    {
      match this
      case Live(pool) => pool.SetTarget(Finite(value));
      case Wrapped(cell) => cell.SetTarget(value);
    }

    method ObserveHostLoad(utilisation: real, runnable: real)
      modifies Cells()
      ensures View() ==
        CyclerApply(old(View()), Shape.ObserveLoad(Finite(utilisation), Finite(runnable)))
    {
      match this
      case Live(pool) => pool.ObserveHostLoad(Finite(utilisation), Finite(runnable));
      case Wrapped(_) =>
    }
  }

  method NewModeAwareDutyCycler(mode: Mode, shaper: Shape.Pool) returns (cycler: DutyCycler)
    ensures cycler.Wrapped? <==> mode.DryRun? || mode.Noop?
    ensures cycler.Wrapped? ==> fresh(cycler.cell) && cycler.cell.target == shaper.target
    ensures mode.Blank? || mode.Normal? || mode.Enforce? || mode.Other? ==> cycler == Live(shaper)
  {
    if EnforcesTargets(mode) {
      return Live(shaper);
    }
    var cell := new RecordingDutyCycler(shaper.target);
    cycler := Wrapped(cell);
  }

  class MetricsRecorder {
    var gauges: Gauges

    constructor (gauges: Gauges)
      ensures this.gauges == gauges
    {
      this.gauges := gauges;
    }

    method SetMode(mode: Mode)
      modifies this
      ensures gauges == old(gauges).(mode := mode)
    {
      gauges := gauges.(mode := mode);
    }

    method SetState(state: State)
      modifies this
      ensures gauges == old(gauges).(state := state)
    {
      gauges := gauges.(state := state);
    }

    method SetTarget(target: real)
      modifies this
      ensures gauges == old(gauges).(target := target)
    {
      gauges := gauges.(target := target);
    }

    method ObserveOCIP95(value: real, fetchedAt: int)
      modifies this
      ensures gauges == old(gauges).(p95 := value, fetchedAt := fetchedAt)
    {
      gauges := gauges.(p95 := value, fetchedAt := fetchedAt);
    }

    method ObserveHostCPU(utilisation: real)
      modifies this
      ensures gauges == old(gauges).(hostCPU := utilisation)
    {
      gauges := gauges.(hostCPU := utilisation);
    }

    method SetInterval(interval: int)
      modifies this
      ensures gauges == old(gauges).(interval := interval)
    {
      gauges := gauges.(interval := interval);
    }

    method SetLastError(error: Option<Error>)
      modifies this
      ensures gauges == old(gauges).(lastError := error)
    {
      gauges := gauges.(lastError := error);
    }

    method SetRelaxedSuccesses(count: int)
      modifies this
      ensures gauges == old(gauges).(relaxed := count)
    {
      gauges := gauges.(relaxed := count);
    }
  }

  datatype BuildError = MetricsClientRequired | DutyCyclerRequired | Invalid(violation: Violation)

  // Effects shared by several locked sections, on values.

  function Retargeted(sys: System, target: real): System {
    System(
      sys.core.(target := target),
      CyclerApply(sys.cycler, Shape.SetTarget(Finite(target))),
      match sys.gauges
      case None => None
      case Some(g) => Some(g.(target := target)))
  }

  function Settled(sys: System): System {
    var state := Effective(sys.core.suppressed, sys.core.slowState);
    System(
      sys.core.(state := state),
      sys.cycler,
      match sys.gauges
      case None => None
      case Some(g) => Some(g.(state := state)))
  }

  function Unrelaxed(sys: System): System {
    System(
      sys.core.(relaxed := 0),
      sys.cycler,
      match sys.gauges
      case None => None
      case Some(g) => Some(g.(relaxed := 0)))
  }

  function Sampled(sys: System, p95: real, fetchedAt: int): System {
    System(
      sys.core.(slowState := State.Normal, lastErr := None, lastP95 := p95),
      sys.cycler,
      match sys.gauges
      case None => None
      case Some(g) => Some(g.(lastError := None, p95 := p95, fetchedAt := fetchedAt)))
  }

  function Lost(sys: System, error: Error): System {
    System(
      sys.core.(slowState := Fallback, lastErr := Some(error), relaxed := 0),
      sys.cycler,
      match sys.gauges
      case None => None
      case Some(g) => Some(g.(lastError := Some(error))))
  }

  lemma FailureComposes(cfg: Settings, sys: System, error: Error)
    ensures var after := Reaimed(Lost(sys, error), FallbackDuty(cfg));
      Advance(cfg, sys, StepErr(error)) ==
        after.(gauges := match after.gauges
                         case None => None
                         case Some(g) => Some(g.(interval := cfg.interval)))
  {
    var write := Shape.SetTarget(Finite(FallbackDuty(cfg)));
    CyclerApplyShort(sys.cycler, write, write);
  }

  /** An observation noted, before any suppression decision. */
  function Observed(sys: System, load: real, run: real): System {
    System(
      sys.core.(lastEstErr := None),
      CyclerApply(sys.cycler, Shape.ObserveLoad(Finite(load), Finite(run))),
      match sys.gauges
      case None => None
      case Some(g) => Some(g.(hostCPU := load)))
  }

  function Measured(cfg: Settings, sys: System, load: real, run: real, guarded: bool): System {
    sys.(core := sys.core.(hostLoad := Smoothed(cfg, sys.core.hostLoad, load, guarded),
                           hostRunnable := run))
  }

  lemma ObservationComposes(cfg: Settings, sys: System, e: Event)
    requires e.Obs?
    ensures var observed := Observed(sys, Load(e), Runnables(e));
      Advance(cfg, sys, e) ==
        if Disabled(cfg) then observed
        else
          Transitioned(cfg, Measured(cfg, observed, Load(e), Runnables(e), Guarded(cfg, e)),
                       Guarded(cfg, e))
  {
    var observe := Shape.ObserveLoad(Finite(Load(e)), Finite(Runnables(e)));
    CyclerApplyShort(sys.cycler, observe, Shape.SetTarget(Finite(Next(cfg, sys.core, e).target)));
  }

  function Reaimed(sys: System, duty: real): System {
    var aimed := sys.(core := sys.core.(desired := duty));
    Settled(if sys.core.suppressed then aimed else Retargeted(aimed, duty))
  }

  function Counted(cfg: Settings, sys: System, p95: real): System {
    var relaxed := RelaxedAfter(cfg, sys.core, p95);
    System(
      sys.core.(relaxed := relaxed),
      sys.cycler,
      match sys.gauges
      case None => None
      case Some(g) =>
        Some(g.(relaxed := relaxed, interval := NextInterval(cfg, sys.core, StepOk(p95, 0)))))
  }

  lemma SuccessComposes(cfg: Settings, sys: System, p95: real, fetchedAt: int)
    ensures
      var duty := Stepped(cfg, if sys.core.suppressed then sys.core.desired else sys.core.target, p95);
      Advance(cfg, sys, StepOk(p95, fetchedAt))
      == Counted(cfg, Reaimed(Sampled(sys, p95, fetchedAt), duty), p95)
  {
    var duty := Stepped(cfg, if sys.core.suppressed then sys.core.desired else sys.core.target, p95);
    var write := Shape.SetTarget(Finite(duty));
    CyclerApplyShort(sys.cycler, write, write);
  }

  class AdaptiveController {
    const cfg: Settings
    const shaper: DutyCycler
    const recorder: MetricsRecorder?

    var state: State
    var slowState: State
    var suppressed: bool
    var target: real
    var desired: real
    var lastP95: real
    var lastErr: Option<Error>
    var lastEstErr: Option<Error>
    var hostLoad: real
    var hostRunnable: real
    var interval: int
    var relaxedSuccesses: int

    ghost function Footprint(): set<object> {
      {this} + shaper.Cells() + (if recorder == null then {} else {recorder})
    }

    ghost function Record(): Core
      reads this
    {
      Core(state, slowState, suppressed, target, desired, lastP95, lastErr, lastEstErr,
           hostLoad, hostRunnable, relaxedSuccesses)
    }

    ghost function View(): System
      reads Footprint()
    {
      System(Record(), shaper.View(), if recorder == null then None else Some(recorder.gauges))
    }

    constructor (cfg: Settings, shaper: DutyCycler, recorder: MetricsRecorder?)
      modifies shaper.Cells(), recorder
      ensures this.cfg == cfg && this.shaper == shaper && this.recorder == recorder
      ensures interval == cfg.interval
      ensures View() == Launch(cfg, old(shaper.View()),
                               if recorder == null then None else Some(old(recorder.gauges)))
    {
      this.cfg := cfg;
      this.shaper := shaper;
      this.recorder := recorder;
      state := Fallback;
      slowState := Fallback;
      suppressed := false;
      target := cfg.fallbackTarget;
      desired := cfg.fallbackTarget;
      lastP95 := 0.0;
      lastErr := None;
      lastEstErr := None;
      hostLoad := 0.0;
      hostRunnable := 0.0;
      interval := cfg.interval;
      relaxedSuccesses := 0;
      new;
      shaper.SetTarget(cfg.fallbackTarget);
      if recorder != null {
        recorder.SetMode(cfg.mode);
        recorder.SetState(state);
        recorder.SetTarget(target);
        recorder.SetInterval(interval);
        recorder.SetLastError(None);
      }
    }

    // ------------------------------------------------------------- shared effects

    method ApplyTargetLocked(value: real)
      modifies Footprint()
      ensures View() == Retargeted(old(View()), value) && interval == old(interval)
    {
      target := value;
      shaper.SetTarget(value);
      if recorder != null {
        recorder.SetTarget(value);
      }
    }

    method UpdateEffectiveStateLocked()
      modifies Footprint()
      ensures View() == Settled(old(View())) && interval == old(interval)
    {
      if suppressed {
        state := Suppressed;
        if recorder != null {
          recorder.SetState(state);
        }
        return;
      }
      state := slowState;
      if recorder != null {
        recorder.SetState(state);
      }
    }

    method ResetRelaxedSuccessesLocked()
      modifies Footprint()
      ensures View() == Unrelaxed(old(View())) && interval == old(interval)
    {
      relaxedSuccesses := 0;
      if recorder != null {
        recorder.SetRelaxedSuccesses(relaxedSuccesses);
      }
    }

    /** The tail the two outcomes of a step share. */
    method ReaimLocked(duty: real)
      modifies Footprint()
      ensures View() == Reaimed(old(View()), duty) && interval == old(interval)
    {
      desired := duty;
      if !suppressed {
        ApplyTargetLocked(duty);
      }
      UpdateEffectiveStateLocked();
    }

    // ------------------------------------------------------------------ slow loop

    /** `query` is the outcome of the metrics query. */
    method Step(query: Event) returns (next: int)
      requires IsStep(query)
      modifies Footprint()
      ensures View() == Advance(cfg, old(View()), query) && interval == old(interval)
      ensures next == NextInterval(cfg, old(Record()), query)
      ensures query.StepOk? ==>
        slowState == State.Normal && lastErr == None && lastP95 == query.p95
      ensures query.StepErr? ==>
        slowState == Fallback && lastErr == Some(query.error) && lastP95 == old(lastP95)
      ensures state == if suppressed then Suppressed else slowState
    {
      match query
      case StepErr(error) => next := HandleStepErrorLocked(error);
      case StepOk(p95, fetchedAt) => next := HandleStepSuccessLocked(p95, fetchedAt);
    }

    method HandleStepErrorLocked(error: Error) returns (next: int)
      modifies Footprint()
      ensures View() == Advance(cfg, old(View()), StepErr(error)) && interval == old(interval)
      ensures next == cfg.interval
      ensures slowState == Fallback && lastErr == Some(error) && lastP95 == old(lastP95)
      ensures state == if suppressed then Suppressed else Fallback
    {
      slowState := Fallback;
      lastErr := Some(error);
      if recorder != null {
        recorder.SetLastError(Some(error));
      }
      var duty := Clamp(cfg.fallbackTarget, cfg.targetMin, cfg.targetMax);
      relaxedSuccesses := 0;
      assert View() == Lost(old(View()), error);
      ReaimLocked(duty);
      next := cfg.interval;
      if recorder != null {
        recorder.SetInterval(next);
      }
      FailureComposes(cfg, old(View()), error);
    }

    /** What a successful query leaves in the record and the gauges before the target moves. */
    method NoteSampleLocked(p95: real, fetchedAt: int)
      modifies Footprint()
      ensures View() == Sampled(old(View()), p95, fetchedAt) && interval == old(interval)
    {
      slowState := State.Normal;
      lastErr := None;
      if recorder != null {
        recorder.SetLastError(None);
      }
      lastP95 := p95;
      if recorder != null {
        recorder.ObserveOCIP95(p95, fetchedAt);
      }
    }

    method HandleStepSuccessLocked(p95: real, fetchedAt: int) returns (next: int)
      modifies Footprint()
      ensures View() == Advance(cfg, old(View()), StepOk(p95, fetchedAt)) && interval == old(interval)
      ensures next == NextInterval(cfg, old(Record()), StepOk(p95, fetchedAt))
      ensures slowState == State.Normal && lastErr == None && lastP95 == p95
      ensures state == if suppressed then Suppressed else State.Normal
    {
      NoteSampleLocked(p95, fetchedAt);
      var nextTarget := target;
      if suppressed {
        nextTarget := desired;
      }
      if nextTarget == 0.0 {
        nextTarget := cfg.targetStart;
      }
      if p95 < cfg.goalLow {
        nextTarget := nextTarget + cfg.stepUp;
      } else if p95 > cfg.goalHigh {
        nextTarget := nextTarget - cfg.stepDown;
      }
      nextTarget := Clamp(nextTarget, cfg.targetMin, cfg.targetMax);
      assert nextTarget == Stepped(cfg, if suppressed then desired else target, p95);
      ReaimLocked(nextTarget);
      next := NextIntervalLocked(p95);
      if recorder != null {
        recorder.SetInterval(next);
      }
      assert View() == Counted(cfg, Reaimed(Sampled(old(View()), p95, fetchedAt), nextTarget), p95);
      SuccessComposes(cfg, old(View()), p95, fetchedAt);
    }

    method NextIntervalLocked(p95: real) returns (next: int)
      modifies Footprint()
      ensures relaxedSuccesses == RelaxedAfter(cfg, old(Record()), p95)
      ensures View() == System(
        old(Record()).(relaxed := relaxedSuccesses),
        old(shaper.View()),
        if recorder == null then None else Some(old(recorder.gauges).(relaxed := relaxedSuccesses)))
      ensures interval == old(interval)
      ensures next == NextInterval(cfg, old(Record()), StepOk(p95, 0))
    {
      if suppressed {
        ResetRelaxedSuccessesLocked();
        return cfg.interval;
      }
      next := cfg.interval;
      if p95 >= cfg.relaxedThreshold {
        relaxedSuccesses := relaxedSuccesses + 1;
        if relaxedSuccesses >= cfg.relaxedConfirmations {
          next := cfg.relaxedInterval;
        }
      } else {
        relaxedSuccesses := 0;
      }
      if recorder != null {
        recorder.SetRelaxedSuccesses(relaxedSuccesses);
      }
    }

    // ------------------------------------------------------------------ fast loop

    method HandleObservation(observation: Event)
      requires !IsStep(observation)
      modifies Footprint()
      ensures View() == Advance(cfg, old(View()), observation) && interval == old(interval)
      ensures lastEstErr == if observation.ObsErr? then Some(observation.error) else None
    {
      if observation.ObsErr? {
        lastEstErr := Some(observation.error);
        UpdateEffectiveStateLocked();
        return;
      }
      var load := Clamp(observation.utilisation, 0.0, 1.0);
      var run := NormaliseRunnable(observation.runnable);
      var guarded := GuardExceeded(load, run);
      NoteLoadLocked(load, run);
      ObservationComposes(cfg, old(View()), observation);
      if SuppressionDisabled() {
        HandleGuardedSuppressionLocked(guarded);
        return;
      }
      UpdateHostLoadLocked(load, guarded);
      hostRunnable := run;
      assert View() == Measured(cfg, Observed(old(View()), load, run), load, run, guarded);
      HandleSuppressionTransitionLocked(guarded);
    }

    /** What a good observation tells the record, the gauge and the pool before any decision. */
    method NoteLoadLocked(load: real, run: real)
      modifies Footprint()
      ensures View() == Observed(old(View()), load, run) && interval == old(interval)
    {
      lastEstErr := None;
      if recorder != null {
        recorder.ObserveHostCPU(load);
      }
      shaper.ObserveHostLoad(load, run);
    }

    predicate GuardExceeded(load: real, run: real)
      ensures GuardExceeded(load, run) <==> Reached(cfg, load, run)
    {
      || (cfg.suppressThreshold > 0.0 && load >= cfg.suppressThreshold)
      || (cfg.runnableThreshold > 0.0 && run >= cfg.runnableThreshold)
    }

    predicate SuppressionDisabled()
      ensures SuppressionDisabled() <==> Disabled(cfg)
    {
      cfg.suppressThreshold <= 0.0 && cfg.runnableThreshold <= 0.0
    }

    method UpdateHostLoadLocked(load: real, guarded: bool)
      modifies this`hostLoad
      ensures hostLoad == Smoothed(cfg, old(hostLoad), load, guarded)
    {
      if hostLoad == 0.0 || guarded || cfg.smoothingSamples <= 1 {
        hostLoad := load;
        return;
      }
      hostLoad := hostLoad + (load - hostLoad) / (cfg.smoothingSamples as real);
    }

    method HandleGuardedSuppressionLocked(guarded: bool)
      modifies Footprint()
      ensures interval == old(interval)
      ensures View() ==
        if !guarded then old(View())
        else Settled(Retargeted(old(View()).(core := old(Record()).(suppressed := true)), 0.0))
    {
      if !guarded {
        return;
      }
      suppressed := true;
      ApplySuppressionTargetsLocked(false);
      UpdateEffectiveStateLocked();
    }

    method TransitionSuppressionLocked(guarded: bool) returns (previous: bool)
      modifies this`suppressed
      ensures previous == old(suppressed)
      ensures suppressed == Decide(cfg, previous, guarded, hostLoad, hostRunnable)
    {
      previous := suppressed;
      if guarded {
        suppressed := true;
      } else if !suppressed && (ShouldSuppressForUtilisation() || ShouldSuppressForRunnables()) {
        suppressed := true;
      } else if suppressed && UtilisationCooled() && RunnablesCooled() {
        suppressed := false;
      }
    }

    predicate ShouldSuppressForUtilisation()
      reads this
    {
      cfg.suppressThreshold > 0.0 && hostLoad >= cfg.suppressThreshold
    }

    predicate ShouldSuppressForRunnables()
      reads this
    {
      cfg.runnableThreshold > 0.0 && hostRunnable >= cfg.runnableThreshold
    }

    predicate UtilisationCooled()
      reads this
    {
      cfg.suppressThreshold <= 0.0 || hostLoad <= cfg.suppressResume
    }

    predicate RunnablesCooled()
      reads this
    {
      cfg.runnableThreshold <= 0.0 || hostRunnable <= cfg.runnableResume
    }

    method ApplySuppressionTargetsLocked(previouslySuppressed: bool)
      modifies Footprint()
      ensures interval == old(interval)
      ensures View() ==
        if old(suppressed) then Retargeted(old(View()), 0.0)
        else if previouslySuppressed then Retargeted(old(View()), Restored(cfg, old(desired)))
        else old(View())
    {
      if suppressed {
        ApplyTargetLocked(0.0);
      } else if previouslySuppressed {
        var restore := desired;
        if restore == 0.0 {
          restore := cfg.targetStart;
        }
        restore := Clamp(restore, cfg.targetMin, cfg.targetMax);
        ApplyTargetLocked(restore);
      }
    }

    method HandleSuppressionTransitionLocked(guarded: bool)
      modifies Footprint()
      ensures interval == old(interval)
      ensures View() == Transitioned(cfg, old(View()), guarded)
    {
      var previouslySuppressed := TransitionSuppressionLocked(guarded);
      if previouslySuppressed != suppressed {
        ResetRelaxedSuccessesLocked();
      }
      ApplySuppressionTargetsLocked(previouslySuppressed);
      UpdateEffectiveStateLocked();
    }

    // ------------------------------------------------------------------- run loop

    /** The run loop over a script of locked sections: step outcomes in the order of its
        ticks, with the estimator's observations interleaved in any way. The ticker's period
        and the recorded interval stay equal and positive. */
    method RunLoop(script: seq<Event>) returns (period: Option<int>)
      requires WellFormed(cfg)
      modifies Footprint()
      ensures View() == AdvanceAll(cfg, old(View()), script)
      ensures period == LastInterval(cfg, old(Record()), script)
      ensures period.Some? ==> period.value == interval && 0 < interval
      ensures period.None? ==> interval == old(interval)
    {
      period := None;
      var i := 0;
      assert script[..0] == [];
      while i < |script|
        invariant 0 <= i <= |script|
        invariant View() == AdvanceAll(cfg, old(View()), script[..i])
        invariant period == LastInterval(cfg, old(Record()), script[..i])
        invariant period.Some? ==> period.value == interval && 0 < interval
        invariant period.None? ==> interval == old(interval)
      {
        assert script[..i + 1][..i] == script[..i];
        CoreOfAdvanceAll(cfg, old(View()), script[..i]);
        if IsStep(script[i]) {
          var nextInterval := Step(script[i]);
          if nextInterval <= 0 {
            nextInterval := cfg.interval;
          }
          if period.None? || nextInterval != interval {
            period := Some(nextInterval);
          }
          interval := nextInterval;
        } else {
          HandleObservation(script[i]);
        }
        i := i + 1;
      }
      assert script[..|script|] == script;
    }
  }

  /** A suppression transition, then its targets and state, on values. */
  function Transitioned(cfg: Settings, sys: System, guarded: bool): System {
    var was := sys.core.suppressed;
    var now := Decide(cfg, was, guarded, sys.core.hostLoad, sys.core.hostRunnable);
    var moved := sys.(core := sys.core.(suppressed := now));
    var counted := if was != now then Unrelaxed(moved) else moved;
    Settled(
      if now then Retargeted(counted, 0.0)
      else if was then Retargeted(counted, Restored(cfg, sys.core.desired))
      else counted)
  }

  /** The interval returned by the latest step of a history. */
  function LastInterval(cfg: Settings, s: Core, es: seq<Event>): Option<int>
    decreases es
  {
    if es == [] then None
    else
      var before, e := es[..|es| - 1], es[|es| - 1];
      if IsStep(e) then Some(NextInterval(cfg, RunFrom(cfg, s, before), e))
      else LastInterval(cfg, s, before)
  }

  /** It is the latest step's, whatever was observed since. */
  lemma {:induction false} LatestInterval(cfg: Settings, s: Core, past: seq<Event>, e: Event, tail: seq<Event>)
    requires IsStep(e) && forall i :: 0 <= i < |tail| ==> tail[i].Obs? || tail[i].ObsErr?
    ensures LastInterval(cfg, s, past + [e] + tail) == Some(NextInterval(cfg, RunFrom(cfg, s, past), e))
    decreases tail
  {
    if tail == [] {
      assert past + [e] + tail == past + [e] && (past + [e])[..|past|] == past;
    } else {
      var before, all := tail[..|tail| - 1], past + [e] + tail;
      assert all[..|all| - 1] == past + [e] + before;
      LatestInterval(cfg, s, past, e, before);
    }
  }

  lemma {:induction false} CoreOfAdvanceAll(cfg: Settings, sys: System, es: seq<Event>)
    ensures AdvanceAll(cfg, sys, es).core == RunFrom(cfg, sys.core, es)
    decreases es
  {
    if es == [] {
    } else {
      CoreOfAdvanceAll(cfg, sys, es[..|es| - 1]);
    }
  }

  /** Builds a controller, checking its collaborators first and its configuration next. */
  method NewAdaptiveController(raw: Settings, hasMetrics: bool, shaper: Shape.Pool?,
                               recorder: MetricsRecorder?)
    returns (r: Result<AdaptiveController, BuildError>)
    modifies shaper, recorder
    ensures !hasMetrics ==> r == Err(MetricsClientRequired)
    ensures hasMetrics && shaper == null ==> r == Err(DutyCyclerRequired)
    ensures hasMetrics && shaper != null ==>
      match NormalizeConfig(raw)
      case Err(violation) => r == Err(Invalid(violation))
      case Ok(cfg) => r.Ok? && fresh(r.value) && r.value.cfg == cfg && WellFormed(cfg)
    ensures r.Ok? ==>
      && r.value.recorder == recorder
      && r.value.interval == r.value.cfg.interval
      && (if raw.mode.DryRun? || raw.mode.Noop? then
            r.value.shaper.Wrapped? && fresh(r.value.shaper.cell) && shaper.State() == old(shaper.State())
          else r.value.shaper == Live(shaper))
      && r.value.View() == Launch(
        r.value.cfg,
        if raw.mode.DryRun? || raw.mode.Noop? then Recorded(old(shaper.target))
        else Driving(old(shaper.State())),
        if recorder == null then None else Some(old(recorder.gauges)))
    ensures r.Err? && shaper != null ==> shaper.State() == old(shaper.State())
    ensures r.Err? && recorder != null ==> recorder.gauges == old(recorder.gauges)
  {
    if !hasMetrics {
      return Err(MetricsClientRequired);
    }
    if shaper == null {
      return Err(DutyCyclerRequired);
    }
    var normalized := NormalizeConfig(raw);
    if normalized.Err? {
      return Err(Invalid(normalized.error));
    }
    var cfg := normalized.value;
    BuildableIffWellFormed(cfg);
    var cycler := NewModeAwareDutyCycler(cfg.mode, shaper);
    var controller := new AdaptiveController(cfg, cycler, recorder);
    r := Ok(controller);
  }
}
