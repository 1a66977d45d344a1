/** The two-rate controller as a transition system: the record its mutex guards, the four
    events that change it, and runs over event histories (pkg/adapt/controller_*.go,
    pkg/adapt/suppression.go). */
module Control {
  import opened Numeric
  import opened Config
  import Shape

  datatype State = Normal | Fallback | Suppressed

  /** One locked section: a slow-loop query result, or a fast-loop observation. */
  datatype Event =
    | StepOk(p95: real, fetchedAt: int)
    | StepErr(error: Error)
    | Obs(utilisation: real, runnable: Float)
    | ObsErr(error: Error)

  datatype Core = Core(
    state: State,
    slowState: State,
    suppressed: bool,
    target: real,
    desired: real,
    lastP95: real,
    lastErr: Option<Error>,
    lastEstErr: Option<Error>,
    hostLoad: real,
    hostRunnable: real,
    relaxed: int)

  function Init(cfg: Settings): Core {
    Core(Fallback, Fallback, false, cfg.fallbackTarget, cfg.fallbackTarget,
         0.0, None, None, 0.0, 0.0, 0)
  }

  predicate IsStep(e: Event) {
    e.StepOk? || e.StepErr?
  }

  // ------------------------------------------------------------------ fast loop

  /** The utilisation and runnable count the fast loop works with. */
  function Load(e: Event): real
    requires e.Obs?
  {
    Clamp(e.utilisation, 0.0, 1.0)
  }

  function Runnables(e: Event): real
    requires e.Obs?
  {
    NormaliseRunnable(e.runnable)
  }

  predicate Reached(cfg: Settings, load: real, run: real) {
    || (0.0 < cfg.suppressThreshold && cfg.suppressThreshold <= load)
    || (0.0 < cfg.runnableThreshold && cfg.runnableThreshold <= run)
  }

  predicate Cooled(cfg: Settings, load: real, run: real) {
    && (cfg.suppressThreshold <= 0.0 || load <= cfg.suppressResume)
    && (cfg.runnableThreshold <= 0.0 || run <= cfg.runnableResume)
  }

  /** An observation whose raw sample alone reaches a threshold. */
  predicate Guarded(cfg: Settings, e: Event) {
    e.Obs? && Reached(cfg, Load(e), Runnables(e))
  }

  predicate Disabled(cfg: Settings) {
    cfg.suppressThreshold <= 0.0 && cfg.runnableThreshold <= 0.0
  }

  function Smoothed(cfg: Settings, hostLoad: real, load: real, guarded: bool): real {
    if hostLoad == 0.0 || guarded || cfg.smoothingSamples <= 1 then load
    else hostLoad + (load - hostLoad) / (cfg.smoothingSamples as real)
  }

  function Decide(cfg: Settings, was: bool, guarded: bool, load: real, run: real): bool {
    guarded || (if was then !Cooled(cfg, load, run) else Reached(cfg, load, run))
  }

  function Restored(cfg: Settings, desired: real): real {
    Clamp(if desired == 0.0 then cfg.targetStart else desired, cfg.targetMin, cfg.targetMax)
  }

  // ------------------------------------------------------------------ slow loop

  /** A zero target is the "unset" mark and restarts from `targetStart`. */
  function Stepped(cfg: Settings, from: real, p95: real): real {
    var base := if from == 0.0 then cfg.targetStart else from;
    Clamp(
      if p95 < cfg.goalLow then base + cfg.stepUp
      else if p95 > cfg.goalHigh then base - cfg.stepDown
      else base,
      cfg.targetMin, cfg.targetMax)
  }

  function FallbackDuty(cfg: Settings): real {
    Clamp(cfg.fallbackTarget, cfg.targetMin, cfg.targetMax)
  }

  function RelaxedAfter(cfg: Settings, s: Core, p95: real): int {
    if s.suppressed || p95 < cfg.relaxedThreshold then 0 else s.relaxed + 1
  }

  /** The polling interval a step hands back to the run loop. */
  function NextInterval(cfg: Settings, s: Core, e: Event): int {
    if e.StepOk? && !s.suppressed && cfg.relaxedThreshold <= e.p95
       && cfg.relaxedConfirmations <= s.relaxed + 1
    then cfg.relaxedInterval
    else cfg.interval
  }

  // ---------------------------------------------------------------- transitions

  function Effective(suppressed: bool, slowState: State): State {
    if suppressed then Suppressed else slowState
  }

  function NextStep(cfg: Settings, s: Core, slowState: State, duty: real): Core {
    s.(slowState := slowState,
       state := Effective(s.suppressed, slowState),
       desired := duty,
       target := if s.suppressed then s.target else duty)
  }

  function NextObs(cfg: Settings, s: Core, load: real, run: real, guarded: bool): Core {
    var hostLoad := Smoothed(cfg, s.hostLoad, load, guarded);
    var suppressed := Decide(cfg, s.suppressed, guarded, hostLoad, run);
    s.(lastEstErr := None,
       hostLoad := hostLoad,
       hostRunnable := run,
       suppressed := suppressed,
       state := Effective(suppressed, s.slowState),
       target := if suppressed then 0.0
                 else if s.suppressed then Restored(cfg, s.desired)
                 else s.target,
       relaxed := if suppressed != s.suppressed then 0 else s.relaxed)
  }

  function Next(cfg: Settings, s: Core, e: Event): Core {
    match e
    case StepErr(error) =>
      NextStep(cfg, s, Fallback, FallbackDuty(cfg)).(lastErr := Some(error), relaxed := 0)
    case StepOk(p95, _) =>
      NextStep(cfg, s, State.Normal, Stepped(cfg, if s.suppressed then s.desired else s.target, p95))
        .(lastErr := None, lastP95 := p95, relaxed := RelaxedAfter(cfg, s, p95))
    case ObsErr(error) =>
      s.(lastEstErr := Some(error), state := Effective(s.suppressed, s.slowState))
    case Obs(_, _) =>
      if Disabled(cfg) then s.(lastEstErr := None)
      else NextObs(cfg, s, Load(e), Runnables(e), Guarded(cfg, e))
  }

  /** What a locked section stores into the pool's cells, in order. */
  function Writes(cfg: Settings, s: Core, e: Event): seq<Shape.Write> {
    var after := Next(cfg, s, e);
    var retarget := [Shape.SetTarget(Finite(after.target))];
    match e
    case ObsErr(_) => []
    case Obs(_, _) =>
      [Shape.ObserveLoad(Finite(Load(e)), Finite(Runnables(e)))]
      + (if !Disabled(cfg) && (after.suppressed || s.suppressed) then retarget else [])
    case _ => if s.suppressed then [] else retarget
  }

  /** The record after a history of locked sections. */
  function RunFrom(cfg: Settings, s: Core, es: seq<Event>): Core
    decreases es
  {
    if es == [] then s
    else Next(cfg, RunFrom(cfg, s, es[..|es| - 1]), es[|es| - 1])
  }

  function History(cfg: Settings, es: seq<Event>): Core {
    RunFrom(cfg, Init(cfg), es)
  }

  lemma {:induction false} RunFromConcat(cfg: Settings, s: Core, a: seq<Event>, b: seq<Event>)
    ensures RunFrom(cfg, s, a + b) == RunFrom(cfg, RunFrom(cfg, s, a), b)
    decreases b
  {
    if b == [] {
      assert a + b == a;
    } else {
      RunFromConcat(cfg, s, a, b[..|b| - 1]);
      assert (a + b)[..|a + b| - 1] == a + b[..|b| - 1];
    }
  }

  lemma RunFromSnoc(cfg: Settings, s: Core, es: seq<Event>, e: Event)
    ensures RunFrom(cfg, s, es + [e]) == Next(cfg, RunFrom(cfg, s, es), e)
  {
    assert (es + [e])[..|es + [e]| - 1] == es;
  }

  // ----------------------------------------------------------- observable system

  /** The duty cycler behind the controller: the pool itself when enforcing, a cell that
      only remembers the target otherwise. */
  datatype Cycler = Driving(pool: Shape.PoolState) | Recorded(target: real)

  function CyclerApply(c: Cycler, w: Shape.Write): Cycler {
    match c
    case Driving(pool) => Driving(Shape.Apply(pool, w))
    case Recorded(target) =>
      if w.SetTarget? && w.value.Finite? then Recorded(w.value.value) else c
  }

  function CyclerApplyAll(c: Cycler, ws: seq<Shape.Write>): Cycler
    decreases ws
  {
    if ws == [] then c else CyclerApplyAll(CyclerApply(c, ws[0]), ws[1..])
  }

  lemma CyclerApplyShort(c: Cycler, a: Shape.Write, b: Shape.Write)
    ensures CyclerApplyAll(c, [a]) == CyclerApply(c, a)
    ensures CyclerApplyAll(c, [a] + []) == CyclerApply(c, a)
    ensures CyclerApplyAll(c, [a] + [b]) == CyclerApply(CyclerApply(c, a), b)
  {
    assert [a] + [] == [a];
    assert ([a] + [b])[1..] == [b] && [b][1..] == [];
    assert CyclerApplyAll(c, [a] + [b]) == CyclerApplyAll(CyclerApply(c, a), [b]);
  }

  /** The exported gauges. */
  datatype Gauges = Gauges(
    mode: Mode,
    state: State,
    target: real,
    p95: real,
    fetchedAt: int,
    hostCPU: real,
    interval: int,
    lastError: Option<Error>,
    relaxed: int)

  datatype System = System(core: Core, cycler: Cycler, gauges: Option<Gauges>)

  /** Gauges after a locked section. The failure path zeroes the counter without exporting it. */
  function Exhibit(cfg: Settings, s: Core, e: Event, g: Gauges): Gauges {
    var after := Next(cfg, s, e);
    var stated := g.(state := after.state, target := if s.suppressed then g.target else after.target);
    match e
    case StepErr(error) => stated.(lastError := Some(error), interval := cfg.interval)
    case StepOk(p95, fetchedAt) =>
      stated.(lastError := None, p95 := p95, fetchedAt := fetchedAt,
              relaxed := after.relaxed, interval := NextInterval(cfg, s, e))
    case ObsErr(_) => g.(state := after.state)
    case Obs(_, _) =>
      if Disabled(cfg) then g.(hostCPU := Load(e))
      else
        g.(state := after.state,
           hostCPU := Load(e),
           target := if after.suppressed || s.suppressed then after.target else g.target,
           relaxed := if after.suppressed != s.suppressed then 0 else g.relaxed)
  }

  function Advance(cfg: Settings, sys: System, e: Event): System {
    System(
      Next(cfg, sys.core, e),
      CyclerApplyAll(sys.cycler, Writes(cfg, sys.core, e)),
      match sys.gauges
      case None => None
      case Some(g) => Some(Exhibit(cfg, sys.core, e, g)))
  }

  function Launch(cfg: Settings, cycler: Cycler, gauges: Option<Gauges>): System {
    System(
      Init(cfg),
      CyclerApply(cycler, Shape.SetTarget(Finite(cfg.fallbackTarget))),
      match gauges
      case None => None
      case Some(g) =>
        Some(g.(mode := cfg.mode, state := Fallback, target := cfg.fallbackTarget,
                interval := cfg.interval, lastError := None)))
  }

  function AdvanceAll(cfg: Settings, sys: System, es: seq<Event>): System
    decreases es
  {
    if es == [] then sys
    else Advance(cfg, AdvanceAll(cfg, sys, es[..|es| - 1]), es[|es| - 1])
  }
}
