/** The controller, the pool's cells and the workers running concurrently. A locked section stores
    into the pool one cell at a time, and the workers read the cells without the lock, so a
    schedule interleaves single stores and single worker steps in any order. */
module Machine {
  import opened Numeric
  import opened Config
  import opened Control
  import opened Invariant
  import opened Workers
  import Shape

  datatype Machine = Machine(
    core: Core,
    pool: Shape.PoolState,
    pending: seq<Shape.Write>,
    workers: seq<Worker>)

  /** A locked section takes effect on the record; the next of its stores reaches the pool; or one
      worker moves. An action that is not enabled changes nothing. */
  datatype Action = Begin(e: Event) | Flush | Move(worker: nat)

  function Act(cfg: Settings, quantum: nat, m: Machine, a: Action): Machine {
    match a
    case Begin(e) =>
      if m.pending != [] then m
      else m.(core := Next(cfg, m.core, e),
              pending := if EnforcesTargets(cfg.mode) then Writes(cfg, m.core, e) else [])
    case Flush =>
      if m.pending == [] then m
      else m.(pool := Shape.Apply(m.pool, m.pending[0]), pending := m.pending[1..])
    case Move(i) =>
      if i < |m.workers| then
        m.(workers := m.workers[i := WorkerStep(m.pool, quantum, m.workers[i])])
      else m
  }

  function Schedule(cfg: Settings, quantum: nat, m: Machine, acts: seq<Action>): Machine
    decreases acts
  {
    if acts == [] then m
    else Act(cfg, quantum, Schedule(cfg, quantum, m, acts[..|acts| - 1]), acts[|acts| - 1])
  }

  function Start(cfg: Settings, pool: Shape.PoolState, count: nat): Machine {
    Machine(
      Init(cfg),
      if EnforcesTargets(cfg.mode) then Shape.Apply(pool, Shape.SetTarget(Finite(cfg.fallbackTarget)))
      else pool,
      [],
      seq(count, _ => NEW_WORKER))
  }

  // ------------------------------------------------------------ what every schedule keeps

  function DutyCap(cfg: Settings): real {
    Clamp(cfg.targetMax, 0.0, 1.0)
  }

  predicate WriteCapped(cfg: Settings, w: Shape.Write) {
    w.SetTarget? ==> w.value.Finite? && Clamp(w.value.value, 0.0, 1.0) <= DutyCap(cfg)
  }

  predicate MachineOk(cfg: Settings, quantum: nat, m: Machine) {
    && Inv(cfg, m.core)
    && Shape.Sound(m.pool)
    && m.pool.target <= DutyCap(cfg)
    && (forall i :: 0 <= i < |m.pending| ==> WriteCapped(cfg, m.pending[i]))
    && (!cfg.mode.DryRun? && !cfg.mode.Noop? ==>
          Shape.ApplyAll(m.pool, m.pending).target == Clamp(m.core.target, 0.0, 1.0))
    && (forall i :: 0 <= i < |m.workers| ==>
          LedgerOk(m.workers[i], quantum, BusyFor(DutyCap(cfg), quantum)))
  }

  lemma WritesCapped(cfg: Settings, s: Core, e: Event)
    requires WellFormed(cfg) && Inv(cfg, s)
    ensures forall i :: 0 <= i < |Writes(cfg, s, e)| ==> WriteCapped(cfg, Writes(cfg, s, e)[i])
  {
    NextKeepsInv(cfg, s, e);
  }

  /** The last target store of a locked section leaves the pool at the record's target. */
  lemma WritesReachTarget(cfg: Settings, s: Core, e: Event, p: Shape.PoolState)
    requires p.target == Clamp(s.target, 0.0, 1.0)
    ensures Shape.ApplyAll(p, Writes(cfg, s, e)).target == Clamp(Next(cfg, s, e).target, 0.0, 1.0)
  {
    var retarget := Shape.SetTarget(Finite(Next(cfg, s, e).target));
    var first := if e.Obs? then Shape.ObserveLoad(Finite(Load(e)), Finite(Runnables(e))) else retarget;
    CyclerApplyShort(Driving(p), first, retarget);
    DrivingApplies(p, Writes(cfg, s, e));
  }

  lemma ActKeepsOk(cfg: Settings, quantum: nat, m: Machine, a: Action)
    requires WellFormed(cfg) && MachineOk(cfg, quantum, m)
    ensures MachineOk(cfg, quantum, Act(cfg, quantum, m, a))
  {
    match a
    case Begin(e) =>
      NextKeepsInv(cfg, m.core, e);
      if m.pending == [] && EnforcesTargets(cfg.mode) {
        WritesCapped(cfg, m.core, e);
        WritesReachTarget(cfg, m.core, e, m.pool);
      }
    case Flush =>
    case Move(i) =>
      if i < |m.workers| {
        BusyMonotone(m.pool.target, DutyCap(cfg), quantum);
        DutyWithinANanosecond(DutyCap(cfg), quantum);
        StepKeepsLedger(m.pool, quantum, BusyFor(DutyCap(cfg), quantum), m.workers[i]);
      }
  }

  lemma {:induction false} ScheduleKeepsOk(cfg: Settings, quantum: nat, m: Machine, acts: seq<Action>)
    requires WellFormed(cfg) && MachineOk(cfg, quantum, m)
    ensures MachineOk(cfg, quantum, Schedule(cfg, quantum, m, acts))
    decreases acts
  {
    if acts == [] {
    } else {
      ScheduleKeepsOk(cfg, quantum, m, acts[..|acts| - 1]);
      ActKeepsOk(cfg, quantum, Schedule(cfg, quantum, m, acts[..|acts| - 1]), acts[|acts| - 1]);
    }
  }

  lemma StartOk(cfg: Settings, quantum: nat, pool: Shape.PoolState, count: nat)
    requires WellFormed(cfg) && Shape.Sound(pool) && pool.target == 0.0
    ensures MachineOk(cfg, quantum, Start(cfg, pool, count))
  {
    assert Shape.ApplyAll(Start(cfg, pool, count).pool, []) == Start(cfg, pool, count).pool;
    DutyWithinANanosecond(DutyCap(cfg), quantum);
  }

  /** Duty accounting under every schedule: each worker's time adds up to whole quanta, and no
      worker has ever been busier than the target ceiling allows, tick for tick. */
  lemma {:induction false} EveryScheduleAccounts(cfg: Settings, quantum: nat, pool: Shape.PoolState, count: nat,
                              acts: seq<Action>, i: nat)
    requires WellFormed(cfg) && Shape.Sound(pool) && pool.target == 0.0 && i < count
    ensures var m := Schedule(cfg, quantum, Start(cfg, pool, count), acts);
      && |m.workers| == count
      && var w := m.workers[i];
        && w.busy + w.idle + w.slept == w.ticks * quantum + Booked(w, quantum)
        && (w.phase.Loaded? ==> 0 <= w.phase.busy <= BusyFor(DutyCap(cfg), quantum))
        && w.busy <= w.segments * BusyFor(DutyCap(cfg), quantum)
        && w.segments <= w.ticks + (if w.phase.Draining? then 1 else 0)
        && (m.pending == [] && !cfg.mode.DryRun? && !cfg.mode.Noop? ==>
              m.pool.target == Clamp(m.core.target, 0.0, 1.0))
  {
    StartOk(cfg, quantum, pool, count);
    ScheduleKeepsOk(cfg, quantum, Start(cfg, pool, count), acts);
    SameWorkerCount(cfg, quantum, Start(cfg, pool, count), acts);
  }

  lemma {:induction false} SameWorkerCount(cfg: Settings, quantum: nat, m: Machine, acts: seq<Action>)
    ensures |Schedule(cfg, quantum, m, acts).workers| == |m.workers|
    decreases acts
  {
    if acts == [] {
    } else {
      SameWorkerCount(cfg, quantum, m, acts[..|acts| - 1]);
    }
  }

  // ---------------------------------------------------------- workers cannot be observed

  /** The locked sections a schedule actually ran. */
  function Sections(cfg: Settings, quantum: nat, m: Machine, acts: seq<Action>): seq<Event>
    decreases acts
  {
    if acts == [] then []
    else
      var before, a := acts[..|acts| - 1], acts[|acts| - 1];
      Sections(cfg, quantum, m, before)
      + (if a.Begin? && Schedule(cfg, quantum, m, before).pending == [] then [a.e] else [])
  }

  lemma {:induction false} DrivingApplies(p: Shape.PoolState, ws: seq<Shape.Write>)
    ensures CyclerApplyAll(Driving(p), ws) == Driving(Shape.ApplyAll(p, ws))
    decreases ws
  {
    if ws == [] {
    } else {
      DrivingApplies(Shape.Apply(p, ws[0]), ws[1..]);
    }
  }

  /** Refinement: the record, and the pool once the stores still under way are counted, are those
      of the atomic run of the locked sections; neither depends on the workers. */
  lemma {:induction false} ScheduleRefinesRun(cfg: Settings, quantum: nat, pool: Shape.PoolState,
                                              count: nat, acts: seq<Action>)
    requires !cfg.mode.DryRun? && !cfg.mode.Noop?
    ensures var m := Schedule(cfg, quantum, Start(cfg, pool, count), acts);
      var run := AdvanceAll(cfg, Launch(cfg, Driving(pool), None),
                            Sections(cfg, quantum, Start(cfg, pool, count), acts));
      m.core == run.core && run.cycler == Driving(Shape.ApplyAll(m.pool, m.pending))
    decreases acts
  {
    var start := Start(cfg, pool, count);
    if acts == [] {
    } else {
      var before, a := acts[..|acts| - 1], acts[|acts| - 1];
      ScheduleRefinesRun(cfg, quantum, pool, count, before);
      var m := Schedule(cfg, quantum, start, before);
      if a.Begin? && m.pending == [] {
        var es := Sections(cfg, quantum, start, before);
        assert (es + [a.e])[..|es + [a.e]| - 1] == es;
        DrivingApplies(m.pool, Writes(cfg, m.core, a.e));
      } else {
        assert Sections(cfg, quantum, start, acts) == Sections(cfg, quantum, start, before);
      }
    }
  }

  // ------------------------------------------------------------------- stale targets

  /** Every record along the schedule is suppressed. */
  predicate StaysSuppressed(cfg: Settings, quantum: nat, m: Machine, acts: seq<Action>) {
    forall k :: 0 <= k <= |acts| ==> Schedule(cfg, quantum, m, acts[..k]).core.suppressed
  }

  /** The pool's target is zero and no store under way will change that. */
  predicate Quenched(m: Machine) {
    && m.core.suppressed
    && m.pool.target == 0.0
    && forall i :: 0 <= i < |m.pending| && m.pending[i].SetTarget? ==> m.pending[i].value == Finite(0.0)
  }

  /** A worker that read its target before it was zeroed still owes one busy segment. */
  function Stale(w: Worker): int {
    if w.phase.Loaded? && 0 < w.phase.busy then 1 else 0
  }

  function StaleBusy(w: Worker): int {
    if w.phase.Loaded? then w.phase.busy else 0
  }

  lemma QuenchedStep(cfg: Settings, quantum: nat, m: Machine, a: Action)
    requires WellFormed(cfg) && Inv(cfg, m.core) && Quenched(m)
    requires Act(cfg, quantum, m, a).core.suppressed
    ensures Quenched(Act(cfg, quantum, m, a))
    ensures forall i :: 0 <= i < |m.workers| ==>
      var w, after := m.workers[i], Act(cfg, quantum, m, a).workers[i];
      && after.segments + Stale(after) == w.segments + Stale(w)
      && after.busy + StaleBusy(after) == w.busy + StaleBusy(w)
  {
    assert BusyFor(0.0, quantum) == 0 by {
      assert 0.0 * quantum as real == 0.0;
    }
    if a.Begin? {
      NextKeepsInv(cfg, m.core, a.e);
    }
  }

  /** The stale-read bound, worker by worker and exactly: while the controller stays suppressed, a
      worker begins only the segment it had already loaded when the zero target was stored. */
  lemma {:induction false} StaleReads(cfg: Settings, quantum: nat, m: Machine, acts: seq<Action>)
    requires WellFormed(cfg) && MachineOk(cfg, quantum, m) && Quenched(m)
    requires StaysSuppressed(cfg, quantum, m, acts)
    ensures var n := Schedule(cfg, quantum, m, acts);
      && Quenched(n)
      && |n.workers| == |m.workers|
      && forall i :: 0 <= i < |m.workers| ==>
        && n.workers[i].segments + Stale(n.workers[i]) == m.workers[i].segments + Stale(m.workers[i])
        && n.workers[i].busy + StaleBusy(n.workers[i]) == m.workers[i].busy + StaleBusy(m.workers[i])
    decreases acts
  {
    if acts == [] {
    } else {
      var before := acts[..|acts| - 1];
      assert acts[..|acts|] == acts;
      assert StaysSuppressed(cfg, quantum, m, before) by {
        assert forall k :: 0 <= k <= |before| ==> before[..k] == acts[..k];
      }
      StaleReads(cfg, quantum, m, before);
      ScheduleKeepsOk(cfg, quantum, m, before);
      QuenchedStep(cfg, quantum, Schedule(cfg, quantum, m, before), acts[|acts| - 1]);
    }
  }

  function TotalBusy(ws: seq<Worker>): int
    decreases ws
  {
    if ws == [] then 0 else ws[0].busy + TotalBusy(ws[1..])
  }

  lemma {:induction false} TotalBusyBound(before: seq<Worker>, after: seq<Worker>, cap: nat)
    requires |before| == |after|
    requires forall i :: 0 <= i < |before| ==> after[i].busy <= before[i].busy + cap
    ensures TotalBusy(after) <= TotalBusy(before) + |before| * cap
    decreases before
  {
    if before == [] {
    } else {
      TotalBusyBound(before[1..], after[1..], cap);
      assert |before| * cap == |before[1..]| * cap + cap;
    }
  }

  /** From the completion of a suppressing section until the resume, under any schedule: each worker
      begins at most one non-zero busy segment, and all of them together begin at most
      `workers * quantum` of busy time. */
  lemma SuppressionIsPrompt(cfg: Settings, quantum: nat, m: Machine, acts: seq<Action>)
    requires WellFormed(cfg) && MachineOk(cfg, quantum, m)
    requires !cfg.mode.DryRun? && !cfg.mode.Noop?
    requires m.core.suppressed && m.pending == []
    requires StaysSuppressed(cfg, quantum, m, acts)
    ensures var n := Schedule(cfg, quantum, m, acts);
      && |n.workers| == |m.workers|
      && (forall i :: 0 <= i < |m.workers| ==>
            m.workers[i].segments <= n.workers[i].segments <= m.workers[i].segments + 1)
      && TotalBusy(n.workers) <= TotalBusy(m.workers) + |m.workers| * quantum
  {
    assert Shape.ApplyAll(m.pool, m.pending) == m.pool;
    StaleReads(cfg, quantum, m, acts);
    ScheduleKeepsOk(cfg, quantum, m, acts);
    DutyWithinANanosecond(DutyCap(cfg), quantum);
    var n := Schedule(cfg, quantum, m, acts);
    forall i | 0 <= i < |m.workers|
      ensures m.workers[i].segments <= n.workers[i].segments <= m.workers[i].segments + 1
      ensures n.workers[i].busy <= m.workers[i].busy + quantum
    {
      SegmentsGrow(cfg, quantum, m, acts, i);
    }
    TotalBusyBound(m.workers, n.workers, quantum);
  }

  lemma {:induction false} SegmentsGrow(cfg: Settings, quantum: nat, m: Machine, acts: seq<Action>, i: nat)
    requires i < |m.workers|
    ensures var n := Schedule(cfg, quantum, m, acts);
      i < |n.workers| && m.workers[i].segments <= n.workers[i].segments
    decreases acts
  {
    if acts == [] {
    } else {
      SegmentsGrow(cfg, quantum, m, acts[..|acts| - 1], i);
    }
  }

  lemma ScheduleSnoc(cfg: Settings, quantum: nat, m: Machine, acts: seq<Action>, a: Action)
    ensures Schedule(cfg, quantum, m, acts + [a]) == Act(cfg, quantum, Schedule(cfg, quantum, m, acts), a)
  {
    assert (acts + [a])[..|acts + [a]| - 1] == acts;
  }

  /** A worker loads its target, then an overload is handled to the last store. */
  function LateOverload(): seq<Action> {
    [Move(0)] + [Move(0)] + [Begin(Obs(1.0, Finite(0.0)))] + [Flush] + [Flush]
  }

  /** A worker that finds the pool unpaused loads its target in two moves. */
  lemma LoadsFirst(cfg: Settings, quantum: nat, m: Machine)
    requires m.workers != [] && m.workers[0] == NEW_WORKER && !m.pool.paused
    ensures var n := Schedule(cfg, quantum, m, [Move(0)] + [Move(0)]);
      n == m.(workers := n.workers) && |n.workers| == |m.workers|
      && n.workers[0] == NEW_WORKER.(phase := Loaded(BusyFor(m.pool.target, quantum)))
  {
    ScheduleSnoc(cfg, quantum, m, [], Move(0));
    assert [] + [Move(0)] == [Move(0)];
    ScheduleSnoc(cfg, quantum, m, [Move(0)], Move(0));
  }

  /** An overload's section suppresses, and its two stores bring the pool to zero. */
  lemma OverloadLands(cfg: Settings, quantum: nat, m: Machine, e: Event)
    requires EnforcesTargets(cfg.mode) && m.pending == [] && Guarded(cfg, e) && !Disabled(cfg)
    ensures var n := Act(cfg, quantum, Act(cfg, quantum, Act(cfg, quantum, m, Begin(e)), Flush), Flush);
      Quenched(n) && n.pending == [] && n.workers == m.workers
  {
    var begun := Act(cfg, quantum, m, Begin(e));
    assert begun.pending ==
      [Shape.ObserveLoad(Finite(Load(e)), Finite(Runnables(e)))] + [Shape.SetTarget(Finite(0.0))];
    assert begun.pending[1..] == [Shape.SetTarget(Finite(0.0))];
  }

  /** The bound is attained: after a completed suppression the worker still begins the segment it had
      loaded. */
  lemma StaleSegmentHappens(cfg: Settings, quantum: nat, pool: Shape.PoolState, count: nat)
    requires WellFormed(cfg) && !cfg.mode.DryRun? && !cfg.mode.Noop? && 0.0 < cfg.suppressThreshold
    requires !pool.paused && 0 < count
    requires 0 < BusyFor(Clamp(cfg.fallbackTarget, 0.0, 1.0), quantum)
    ensures var m := Schedule(cfg, quantum, Start(cfg, pool, count), LateOverload());
      var n := Act(cfg, quantum, m, Move(0));
      && Quenched(m) && m.pending == [] && n.core == m.core && |m.workers| == |n.workers| == count
      && m.workers[0].segments == 0 && n.workers[0].segments == 1
      && n.workers[0].busy == BusyFor(Clamp(cfg.fallbackTarget, 0.0, 1.0), quantum)
  {
    var start, e := Start(cfg, pool, count), Obs(1.0, Finite(0.0));
    var loads := [Move(0)] + [Move(0)];
    LoadsFirst(cfg, quantum, start);
    ScheduleSnoc(cfg, quantum, start, loads, Begin(e));
    ScheduleSnoc(cfg, quantum, start, loads + [Begin(e)], Flush);
    ScheduleSnoc(cfg, quantum, start, loads + [Begin(e)] + [Flush], Flush);
    OverloadLands(cfg, quantum, Schedule(cfg, quantum, start, loads), e);
  }

  // --------------------------------------------------------------------------- dry run

  predicate Untouched(pool: Shape.PoolState, m: Machine) {
    && m.pool == pool && m.pending == []
    && forall i :: 0 <= i < |m.workers| ==>
      m.workers[i].busy == 0 && m.workers[i].segments == 0 && StaleBusy(m.workers[i]) == 0
  }

  /** Outside enforce mode no schedule touches the pool or makes a worker busy, while the record goes
      through exactly the states an enforcing controller's would. */
  lemma {:induction false} DryRunIsFaithful(cfg: Settings, quantum: nat, pool: Shape.PoolState,
                                            count: nat, acts: seq<Action>)
    requires (cfg.mode.DryRun? || cfg.mode.Noop?) && pool.target == 0.0
    ensures var m := Schedule(cfg, quantum, Start(cfg, pool, count), acts);
      var enforcing := cfg.(mode := Enforce);
      && Untouched(pool, m)
      && m.core == History(enforcing, Sections(cfg, quantum, Start(cfg, pool, count), acts))
    decreases acts
  {
    var start := Start(cfg, pool, count);
    if acts == [] {
    } else {
      var before, a := acts[..|acts| - 1], acts[|acts| - 1];
      DryRunIsFaithful(cfg, quantum, pool, count, before);
      assert BusyFor(0.0, quantum) == 0 by {
        assert 0.0 * quantum as real == 0.0;
      }
      var es := Sections(cfg, quantum, start, before);
      if a.Begin? {
        RunFromSnoc(cfg.(mode := Enforce), Init(cfg), es, a.e);
        ModeIsInvisible(cfg, Enforce, Schedule(cfg, quantum, start, before).core, a.e);
      } else {
        assert Sections(cfg, quantum, start, acts) == es;
      }
    }
  }

  lemma ModeIsInvisible(cfg: Settings, mode: Mode, s: Core, e: Event)
    ensures Next(cfg.(mode := mode), s, e) == Next(cfg, s, e)
    ensures NextInterval(cfg.(mode := mode), s, e) == NextInterval(cfg, s, e)
  {
  }
}
