/** Putting the parts together, as the command does: a pool, its pause band and guard, a controller
    over it, and a run (cmd/shaper/controller_helpers.go, cmd/shaper/bootstrap_controller.go). */
module Wiring {
  import opened Numeric
  import opened Config
  import opened Control
  import opened Adapt
  import Machine
  import Shape

  datatype PoolSettings =
    PoolSettings(workers: int, quantum: int, pause: Float, resume: Float, guard: Float)

  datatype WiringError = PoolRejected(reason: Error) | ControllerRejected(cause: BuildError)

  /** The cells of a pool that has been configured and not yet driven. */
  function Configured(p: PoolSettings): Shape.PoolState {
    Shape.RunnableGuard(Shape.PauseBand(Shape.FRESH, p.pause, p.resume), p.guard)
  }

  /** The duty cycler a controller in this mode drives, over a configured pool. */
  function CyclerOf(mode: Mode, p: PoolSettings): Cycler {
    if mode.DryRun? || mode.Noop? then Recorded(0.0) else Driving(Configured(p))
  }

  /** The configuration handed to the constructor. */
  function Labelled(raw: Settings, mode: Mode, instance: string): Settings {
    raw.(resourceID := instance, mode := mode)
  }

  /** The cells hold the settings: levels brought into the unit interval, the resume level no higher
      than the pause level, and the guard when it is a positive number. */
  predicate Holds(cells: Shape.PoolState, p: PoolSettings) {
    && Shape.NearestInUnit(cells.pause, p.pause)
    && (cells.resume == cells.pause || Shape.NearestInUnit(cells.resume, p.resume))
    && cells.resume <= cells.pause
    && cells.guard == (if p.guard.Finite? && 0.0 < p.guard.value then p.guard.value else 0.0)
    && !cells.paused
  }

  lemma ConfiguredHolds(p: PoolSettings)
    ensures Holds(Configured(p), p) && Configured(p).target == 0.0
  {
  }

  /** The controller's label and mode are the ones it was asked for. */
  predicate Answers(cfg: Settings, mode: Mode, instance: string) {
    cfg.resourceID == instance && cfg.mode == if mode.Blank? || mode.Normal? then Enforce else mode
  }

  method BuildAdaptiveController(raw: Settings, mode: Mode, instance: string, p: PoolSettings,
                                 recorder: MetricsRecorder)
    returns (r: Result<(AdaptiveController, Shape.Pool), WiringError>)
    modifies recorder
    ensures r.Err? ==> recorder.gauges == old(recorder.gauges)
    ensures r.Err? && r.error.PoolRejected? <==> p.workers <= 0
    ensures 0 < p.workers ==>
      match NormalizeConfig(Labelled(raw, mode, instance))
      case Err(violation) => r == Err(ControllerRejected(Invalid(violation)))
      case Ok(cfg) => r.Ok? && r.value.0.cfg == cfg && WellFormed(cfg)
    ensures r.Ok? ==>
      var (controller, pool) := r.value;
      && fresh(controller) && fresh(pool) && fresh(controller.shaper.Cells())
      && controller.recorder == recorder
      && controller.interval == controller.cfg.interval
      && Answers(controller.cfg, mode, instance)
      && pool.workers == p.workers && Shape.Nearest(pool.quantum, p.quantum) && Holds(pool.State(), p)
      && (if mode.DryRun? || mode.Noop? then
            controller.shaper.Wrapped? && pool.State() == Configured(p)
          else
            && controller.shaper == Live(pool)
            && pool.State() ==
                 Configured(p).(target := Clamp(controller.cfg.fallbackTarget, 0.0, 1.0)))
      && controller.View() ==
           Launch(controller.cfg, CyclerOf(mode, p), Some(old(recorder.gauges)))
  {
    var built := Shape.NewPool(p.workers, p.quantum);
    if built.Err? {
      return Err(PoolRejected(built.error));
    }
    var pool := built.value;
    pool.SetPauseThresholds(p.pause, p.resume);
    pool.SetRunnableGuard(p.guard);
    var controller := NewAdaptiveController(Labelled(raw, mode, instance), true, pool, recorder);
    if controller.Err? {
      return Err(ControllerRejected(controller.error));
    }
    CoercionRepairs(Labelled(raw, mode, instance));
    ConfiguredHolds(p);
    r := Ok((controller.value, pool));
  }

  /** Builds and runs. In every mode the record is the enforcing one; the pool gets every target when
      enforcing, and outside enforce mode is left exactly as it was configured, at target zero. */
  method BuildAndRun(raw: Settings, mode: Mode, instance: string, p: PoolSettings,
                     recorder: MetricsRecorder, script: seq<Event>)
    returns (r: Result<(AdaptiveController, Shape.Pool), WiringError>)
    modifies recorder
    ensures r.Ok? ==>
      var (controller, pool) := r.value;
      var cfg := controller.cfg;
      && NormalizeConfig(Labelled(raw, mode, instance)) == Ok(cfg) && Answers(cfg, mode, instance)
      && controller.View() ==
           AdvanceAll(cfg, Launch(cfg, CyclerOf(mode, p), Some(old(recorder.gauges))), script)
      && controller.Record() == History(cfg.(mode := Enforce), script)
      && (if mode.DryRun? || mode.Noop? then
            && controller.shaper.Wrapped?
            && pool.State() == Configured(p) && Holds(pool.State(), p) && pool.target == 0.0
          else controller.shaper == Live(pool) && controller.View().cycler == Driving(pool.State()))
    ensures r.Err? ==> recorder.gauges == old(recorder.gauges)
  {
    r := BuildAdaptiveController(raw, mode, instance, p, recorder);
    if r.Ok? {
      var (controller, pool) := r.value;
      ghost var launched := controller.View();
      var _ := controller.RunLoop(script);
      CoreOfAdvanceAll(controller.cfg, launched, script);
      HistoryIgnoresMode(controller.cfg, Enforce, script);
    }
  }

  lemma {:induction false} HistoryIgnoresMode(cfg: Settings, mode: Mode, es: seq<Event>)
    ensures History(cfg.(mode := mode), es) == History(cfg, es)
    decreases es
  {
    if es == [] {
    } else {
      var before, e := es[..|es| - 1], es[|es| - 1];
      HistoryIgnoresMode(cfg, mode, before);
      Machine.ModeIsInvisible(cfg, mode, History(cfg, before), e);
    }
  }
}
