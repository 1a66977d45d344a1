/** The pool's workers as small steps between their reads of the shared cells, and their duty
    ledgers (pkg/shape/worker.go). Durations are whole nanoseconds. */
module Workers {
  import opened Numeric
  import Shape

  /** Where a worker is within one tick: before the pause check, past it, holding the busy time
      computed from the target it read, or owing the idle rest of the quantum. */
  datatype Phase = Waiting | Admitted | Loaded(busy: int) | Draining(idle: int)

  /** A worker with its ledger: time spent busy, idle and paused, finished ticks, and non-zero busy
      segments begun. */
  datatype Worker = Worker(phase: Phase, busy: int, idle: int, slept: int, ticks: int, segments: int)

  const NEW_WORKER := Worker(Waiting, 0, 0, 0, 0, 0)

  /** The busy share of a quantum: truncated to whole nanoseconds and never above the quantum. */
  function BusyFor(target: real, quantum: nat): int {
    var share := (target * quantum as real).Floor;
    if share <= quantum then share else quantum
  }

  function WorkerStep(p: Shape.PoolState, quantum: nat, w: Worker): Worker {
    match w.phase
    case Waiting =>
      if p.paused then w.(slept := w.slept + quantum, ticks := w.ticks + 1)
      else w.(phase := Admitted)
    case Admitted => w.(phase := Loaded(BusyFor(p.target, quantum)))
    case Loaded(busy) =>
      w.(phase := Draining(quantum - busy),
         busy := w.busy + busy,
         segments := w.segments + (if 0 < busy then 1 else 0))
    case Draining(idle) => w.(phase := Waiting, idle := w.idle + idle, ticks := w.ticks + 1)
  }

  /** The busy time is the target's share of the quantum, less than a nanosecond short of it. */
  lemma DutyWithinANanosecond(target: real, quantum: nat)
    requires 0.0 <= target <= 1.0
    ensures var b := BusyFor(target, quantum);
      0 <= b <= quantum && 0.0 <= target * quantum as real - b as real < 1.0
  {
    ProductMonotone(target, 1.0, quantum as real);
    ProductMonotone(0.0, target, quantum as real);
  }

  lemma BusyMonotone(a: real, b: real, quantum: nat)
    requires a <= b
    ensures BusyFor(a, quantum) <= BusyFor(b, quantum)
  {
    ProductMonotone(a, b, quantum as real);
    var x, y := a * quantum as real, b * quantum as real;
    assert x.Floor <= y.Floor;
  }

  /** The part of the current tick already booked. */
  function Booked(w: Worker, quantum: nat): int {
    match w.phase
    case Draining(idle) => quantum - idle
    case _ => 0
  }

  /** `cap` bounds the busy time of any tick. */
  predicate LedgerOk(w: Worker, quantum: nat, cap: int) {
    && 0 <= w.busy && 0 <= w.idle && 0 <= w.slept && 0 <= w.segments
    && w.busy + w.idle + w.slept == w.ticks * quantum + Booked(w, quantum)
    && w.busy <= w.segments * cap
    && w.segments <= w.ticks + (if w.phase.Draining? then 1 else 0)
    && (w.phase.Loaded? ==> 0 <= w.phase.busy <= cap)
    && (w.phase.Draining? ==> 0 <= w.phase.idle <= quantum)
  }

  lemma OneMore(n: int, x: int)
    ensures (n + 1) * x == n * x + x
  {
  }

  lemma StepKeepsLedger(p: Shape.PoolState, quantum: nat, cap: int, w: Worker)
    requires 0.0 <= p.target <= 1.0 && BusyFor(p.target, quantum) <= cap <= quantum
    requires LedgerOk(w, quantum, cap)
    ensures LedgerOk(WorkerStep(p, quantum, w), quantum, cap)
  {
    DutyWithinANanosecond(p.target, quantum);
    OneMore(w.ticks, quantum);
    OneMore(w.segments, cap);
  }

  /** A whole undisturbed tick. */
  function FullTick(p: Shape.PoolState, quantum: nat, w: Worker): Worker {
    if p.paused then WorkerStep(p, quantum, w)
    else
      WorkerStep(p, quantum, WorkerStep(p, quantum, WorkerStep(p, quantum, WorkerStep(p, quantum, w))))
  }

  /** One tick while the cells change between its steps: the pause flag is read at the start, the target
      after it, and nothing the pool stores later in the tick matters. */
  lemma TickReadsTwice(p1: Shape.PoolState, p2: Shape.PoolState, p3: Shape.PoolState,
                       p4: Shape.PoolState, quantum: nat, w: Worker)
    requires w.phase == Waiting
    ensures p1.paused ==>
      WorkerStep(p1, quantum, w) == w.(slept := w.slept + quantum, ticks := w.ticks + 1)
    ensures !p1.paused ==>
      var busy := BusyFor(p2.target, quantum);
      var loaded := WorkerStep(p2, quantum, WorkerStep(p1, quantum, w));
      && loaded == w.(phase := Loaded(busy))
      && WorkerStep(p4, quantum, WorkerStep(p3, quantum, loaded)) ==
           Worker(Waiting, w.busy + busy, w.idle + (quantum - busy), w.slept, w.ticks + 1,
                  if 0 < busy then w.segments + 1 else w.segments)
  {
  }

  class WorkerLoop {
    const pool: Shape.Pool
    var phase: Phase
    var busy: int
    var idle: int
    var slept: int
    var ticks: int
    var segments: int

    ghost function View(): Worker
      reads this
    {
      Worker(phase, busy, idle, slept, ticks, segments)
    }

    constructor (pool: Shape.Pool)
      ensures this.pool == pool && View() == NEW_WORKER
    {
      this.pool := pool;
      phase := Waiting;
      busy, idle, slept, ticks, segments := 0, 0, 0, 0, 0;
    }

    /** The loop body for one tick, with the cells read where the source reads them. */
    method Tick()
      requires phase == Waiting
      modifies this
      ensures View() == FullTick(pool.State(), pool.quantum, old(View())) && phase == Waiting
    {
      ticks := ticks + 1;
      if pool.paused {
        slept := slept + pool.quantum;
        return;
      }
      var target := pool.target;
      var busyDuration := (target * pool.quantum as real).Floor;
      if busyDuration > pool.quantum {
        busyDuration := pool.quantum;
      }
      var idleDuration := pool.quantum - busyDuration;
      if busyDuration > 0 {
        segments := segments + 1;
      }
      busy := busy + busyDuration;
      idle := idle + idleDuration;
    }

    /** Any number of ticks books exactly that many quanta. */
    method Ticks(count: nat)
      requires phase == Waiting
      requires Shape.Sound(pool.State())
      requires LedgerOk(View(), pool.quantum, pool.quantum)
      modifies this
      ensures phase == Waiting && ticks == old(ticks) + count
      ensures busy + idle + slept == old(busy + idle + slept) + count * pool.quantum
      ensures pool.paused ==> busy == old(busy) && segments == old(segments)
      ensures !pool.paused ==>
        busy == old(busy) + count * BusyFor(pool.target, pool.quantum) && slept == old(slept)
    {
      var i := 0;
      while i < count
        invariant 0 <= i <= count && phase == Waiting && ticks == old(ticks) + i
        invariant LedgerOk(View(), pool.quantum, pool.quantum)
        invariant busy + idle + slept == old(busy + idle + slept) + i * pool.quantum
        invariant pool.paused ==> busy == old(busy) && segments == old(segments)
        invariant !pool.paused ==>
          busy == old(busy) + i * BusyFor(pool.target, pool.quantum) && slept == old(slept)
      {
        TickBooksQuantum(pool.State(), pool.quantum, View());
        var share := BusyFor(pool.target, pool.quantum);
        assert (i + 1) * pool.quantum == i * pool.quantum + pool.quantum;
        assert (i + 1) * share == i * share + share;
        Tick();
        i := i + 1;
      }
    }
  }

  lemma TickBooksQuantum(p: Shape.PoolState, quantum: nat, w: Worker)
    requires Shape.Sound(p) && w.phase == Waiting && LedgerOk(w, quantum, quantum)
    ensures var t := FullTick(p, quantum, w);
      && t.phase == Waiting && t.ticks == w.ticks + 1 && LedgerOk(t, quantum, quantum)
      && t.busy + t.idle + t.slept == w.busy + w.idle + w.slept + quantum
      && (p.paused ==> t.busy == w.busy && t.segments == w.segments)
      && (!p.paused ==> t.busy == w.busy + BusyFor(p.target, quantum) && t.slept == w.slept)
  {
    DutyWithinANanosecond(p.target, quantum);
    var a := WorkerStep(p, quantum, w);
    StepKeepsLedger(p, quantum, quantum, w);
    if !p.paused {
      var b := WorkerStep(p, quantum, a);
      var c := WorkerStep(p, quantum, b);
      StepKeepsLedger(p, quantum, quantum, a);
      StepKeepsLedger(p, quantum, quantum, b);
      StepKeepsLedger(p, quantum, quantum, c);
    }
  }
}
