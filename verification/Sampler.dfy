/** The fast estimator: jiffy counters in, utilisation observations out (pkg/est/sampler.go). */
module Sampler {
  import opened Numeric
  import Config
  import Control
  import Invariant
  import Loops

  const TWO64 := 0x1_0000_0000_0000_0000

  type Counter = x: nat | x < TWO64 witness 0

  datatype Snapshot = Snapshot(idle: Counter, total: Counter, runnable: Counter)

  datatype Observation = Observation(
    utilisation: real,
    runnable: real,
    busyJiffies: Counter,
    totalJiffies: Counter,
    err: Option<Error>)

  function ErrorObservation(error: Error): Observation {
    Observation(0.0, 0.0, 0, 0, Some(error))
  }

  /** A counter that went backwards counts as not having moved. */
  function DiffCounter(previous: Counter, current: Counter): Counter {
    if current >= previous then current - previous else 0
  }

  function BuildObservation(previous: Snapshot, current: Snapshot, cpus: int): Observation {
    var total := DiffCounter(previous.total, current.total);
    var idle := DiffCounter(previous.idle, current.idle);
    var busy: Counter := if 0 < total && idle <= total then total - idle else 0;
    Observation(
      if 0 < total && idle <= total then Clamp(busy as real / total as real, 0.0, 1.0) else 0.0,
      if 0 < cpus then current.runnable as real / cpus as real else 0.0,
      busy, total, None)
  }

  /** The observations for a script of snapshot attempts: a failed attempt is reported and keeps the
      last good snapshot as the base of the next difference. */
  function Published(last: Snapshot, script: seq<Result<Snapshot, Error>>, cpus: int): seq<Observation>
    decreases script
  {
    if script == [] then []
    else
      match script[0]
      case Err(error) => [ErrorObservation(error)] + Published(last, script[1..], cpus)
      case Ok(snap) => [BuildObservation(last, snap, cpus)] + Published(snap, script[1..], cpus)
  }

  function LastGood(last: Snapshot, script: seq<Result<Snapshot, Error>>): Snapshot
    decreases script
  {
    if script == [] then last
    else LastGood(if script[0].Ok? then script[0].value else last, script[1..])
  }

  /** The observation carries the error, and no measurement. */
  predicate IsFailure(o: Observation, error: Error) {
    o.err == Some(error) && o.utilisation == 0.0 && o.runnable == 0.0
    && o.busyJiffies == 0 && o.totalJiffies == 0
  }

  /** An attempt is reported as what it was. */
  predicate Reports(attempt: Result<Snapshot, Error>, o: Observation) {
    match attempt
    case Err(error) => IsFailure(o, error)
    case Ok(_) => o.err == None
  }

  class SamplerObject {
    const cpus: int
    var started: bool

    constructor (cpus: int)
      ensures this.cpus == cpus && !started
    {
      this.cpus := cpus;
      started := false;
    }

    /** One run until cancellation; `script` holds the snapshot attempts, the first one made before
        the ticker starts. Only the first run of an object samples. */
    method Run(script: seq<Result<Snapshot, Error>>) returns (observations: seq<Observation>)
      modifies this
      ensures started
      ensures old(started) ==>
        |observations| == 1 && IsFailure(observations[0], "sampler already started")
      ensures !old(started) && script != [] && script[0].Err? ==>
        |observations| == 1 && IsFailure(observations[0], script[0].error)
      ensures !old(started) && script != [] && script[0].Ok? ==>
        |observations| == |script| - 1
        && forall i :: 1 <= i < |script| ==> Reports(script[i], observations[i - 1])
      ensures !old(started) && script == [] ==> observations == []
      ensures !old(started) && script != [] ==>
        observations == (match script[0]
                         case Err(error) => [ErrorObservation(error)]
                         case Ok(first) => Published(first, script[1..], cpus))
    {
      if started {
        return [ErrorObservation("sampler already started")];
      }
      started := true;
      if script == [] {
        return [];
      }
      match script[0]
      case Err(error) => observations := [ErrorObservation(error)];
      case Ok(first) =>
        observations := SampleLoop(first, script[1..], cpus);
        assert forall i :: 1 <= i < |script| ==> script[i] == script[1..][i - 1];
    }
  }

  method SampleLoop(first: Snapshot, script: seq<Result<Snapshot, Error>>, cpus: int)
    returns (observations: seq<Observation>)
    ensures observations == Published(first, script, cpus)
    ensures |observations| == |script|
    ensures forall i :: 0 <= i < |script| ==> Reports(script[i], observations[i])
  {
    observations := [];
    var last := first;
    var i := 0;
    assert script[0..] == script;
    while i < |script|
      invariant 0 <= i <= |script| && |observations| == i
      invariant Published(first, script, cpus) == observations + Published(last, script[i..], cpus)
      invariant forall j :: 0 <= j < i ==> Reports(script[j], observations[j])
    {
      assert script[i..][1..] == script[i + 1..];
      match script[i] {
        case Err(error) =>
          observations := observations + [ErrorObservation(error)];
        case Ok(snap) =>
          observations := observations + [BuildObservation(last, snap, cpus)];
          last := snap;
      }
      i := i + 1;
    }
  }

  // ------------------------------------------------------------------- conservation

  function SumTotal(os: seq<Observation>): nat
    decreases os
  {
    if os == [] then 0 else os[0].totalJiffies + SumTotal(os[1..])
  }

  function SumBusy(os: seq<Observation>): nat
    decreases os
  {
    if os == [] then 0 else os[0].busyJiffies + SumBusy(os[1..])
  }

  /** The total counter never went backwards between good snapshots. */
  predicate TotalsMonotone(last: Snapshot, script: seq<Result<Snapshot, Error>>)
    decreases script
  {
    script == []
    || (script[0].Err? && TotalsMonotone(last, script[1..]))
    || (script[0].Ok? && last.total <= script[0].value.total
        && TotalsMonotone(script[0].value, script[1..]))
  }

  /** Nor did the idle counter, which never outran the total one. */
  predicate IdleWithinTotal(last: Snapshot, script: seq<Result<Snapshot, Error>>)
    decreases script
  {
    script == []
    || (script[0].Err? && IdleWithinTotal(last, script[1..]))
    || (script[0].Ok?
        && 0 <= script[0].value.idle - last.idle <= script[0].value.total - last.total
        && IdleWithinTotal(script[0].value, script[1..]))
  }

  /** The observation of a good snapshot, measured from the one before: counters move by their
      difference, or not at all when they went backwards; what is not idle is busy, unless more
      was idle than passed. */
  predicate Measures(o: Observation, before: Snapshot, now: Snapshot, cpus: int) {
    && o.err == None
    && (before.total <= now.total ==> o.totalJiffies == now.total - before.total)
    && (now.total < before.total ==> o.totalJiffies == 0)
    && (before.idle <= now.idle && now.idle - before.idle <= o.totalJiffies ==>
          o.busyJiffies == o.totalJiffies - (now.idle - before.idle))
    && (now.idle < before.idle ==> o.busyJiffies == o.totalJiffies)
    && (before.idle + o.totalJiffies < now.idle ==> o.busyJiffies == 0)
    && o.utilisation * o.totalJiffies as real == o.busyJiffies as real
    && (o.totalJiffies == 0 ==> o.utilisation == 0.0)
    && (if 0 < cpus then o.runnable * cpus as real == now.runnable as real else o.runnable == 0.0)
  }

  /** `k` is the latest good attempt before `i`, or -1. */
  predicate LatestGood(script: seq<Result<Snapshot, Error>>, k: int, i: nat) {
    && -1 <= k < i <= |script|
    && (0 <= k ==> script[k].Ok?)
    && forall j :: k < j < i ==> script[j].Err?
  }

  /** Attempt by attempt: a failure is published as that failure, a good snapshot as its movement since
      the latest good one. */
  lemma {:induction false} AttemptByAttempt(last: Snapshot, script: seq<Result<Snapshot, Error>>,
                                            cpus: int, i: nat, k: int)
    requires i < |script| && LatestGood(script, k, i)
    ensures var os := Published(last, script, cpus);
      && |os| == |script|
      && match script[i]
         case Err(error) => IsFailure(os[i], error) && Delivered(os[i]) == Control.ObsErr(error)
         case Ok(now) => Measures(os[i], if k < 0 then last else script[k].value, now, cpus)
    decreases script
  {
    PublishedHead(last, script, cpus);
    PublishedLength(last, script, cpus);
    if i == 0 {
      if script[0].Ok? {
        BuiltMeasures(last, script[0].value, cpus);
      }
    } else {
      var next := if script[0].Ok? then script[0].value else last;
      AttemptByAttempt(next, script[1..], cpus, i - 1, if k < 0 then -1 else k - 1);
    }
  }

  lemma {:induction false} PublishedLength(last: Snapshot, script: seq<Result<Snapshot, Error>>, cpus: int)
    ensures |Published(last, script, cpus)| == |script|
    decreases script
  {
    if script == [] {
    } else {
      PublishedHead(last, script, cpus);
      PublishedLength(if script[0].Ok? then script[0].value else last, script[1..], cpus);
    }
  }

  lemma BuiltMeasures(before: Snapshot, now: Snapshot, cpus: int)
    ensures Measures(BuildObservation(before, now, cpus), before, now, cpus)
  {
    RatioIsExact(before, now, cpus);
  }

  function Good(script: seq<Result<Snapshot, Error>>): seq<Result<Snapshot, Error>>
    decreases script
  {
    if script == [] then []
    else (if script[0].Ok? then [script[0]] else []) + Good(script[1..])
  }

  /** What the controller receives. */
  function Deliveries(os: seq<Observation>): seq<Control.Event>
    decreases os
  {
    if os == [] then [] else [Delivered(os[0])] + Deliveries(os[1..])
  }

  lemma DeliveriesHead(last: Snapshot, script: seq<Result<Snapshot, Error>>, cpus: int)
    requires script != []
    ensures var next := if script[0].Ok? then script[0].value else last;
      var rest := Deliveries(Published(next, script[1..], cpus));
      Deliveries(Published(last, script, cpus)) ==
        match script[0]
        case Err(error) => [Control.ObsErr(error)] + rest
        case Ok(now) => [Delivered(BuildObservation(last, now, cpus))] + rest
  {
    PublishedHead(last, script, cpus);
  }

  lemma {:induction false} GoodDeliveries(last: Snapshot, script: seq<Result<Snapshot, Error>>, cpus: int)
    ensures Deliveries(Published(last, Good(script), cpus))
      == Loops.WithoutErrors(Deliveries(Published(last, script, cpus)))
    decreases script
  {
    if script == [] {
    } else {
      DeliveriesHead(last, script, cpus);
      match script[0]
      case Err(error) =>
        GoodDeliveries(last, script[1..], cpus);
        var rest := Deliveries(Published(last, script[1..], cpus));
        Loops.WithoutErrorsHead(Control.ObsErr(error), rest);
        assert Good(script) == Good(script[1..]);
      case Ok(now) =>
        GoodDeliveries(now, script[1..], cpus);
        var rest := Deliveries(Published(now, script[1..], cpus));
        Loops.WithoutErrorsHead(Delivered(BuildObservation(last, now, cpus)), rest);
        DeliveriesHead(last, Good(script), cpus);
        assert Good(script)[1..] == Good(script[1..]);
    }
  }

  /** Failed attempts are invisible to the control law: after any history, the record after any script
      is, but for the remembered error, the record after its good attempts alone. */
  lemma FailuresInvisible(cfg: Config.Settings, past: seq<Control.Event>, last: Snapshot,
                          script: seq<Result<Snapshot, Error>>, cpus: int)
    requires Config.WellFormed(cfg)
    ensures var s := Control.History(cfg, past + Deliveries(Published(last, script, cpus)));
      var t := Control.History(cfg, past + Deliveries(Published(last, Good(script), cpus)));
      s == t.(lastEstErr := s.lastEstErr)
  {
    var es := Deliveries(Published(last, script, cpus));
    GoodDeliveries(last, script, cpus);
    Control.RunFromConcat(cfg, Control.Init(cfg), past, es);
    Control.RunFromConcat(cfg, Control.Init(cfg), past, Loops.WithoutErrors(es));
    Invariant.EveryHistory(cfg, past);
    Loops.ErrorsInvisible(cfg, Control.History(cfg, past), es);
  }

  lemma PublishedHead(last: Snapshot, script: seq<Result<Snapshot, Error>>, cpus: int)
    requires script != []
    ensures var os := Published(last, script, cpus);
      var next := if script[0].Ok? then script[0].value else last;
      && |os| == 1 + |Published(next, script[1..], cpus)|
      && os[1..] == Published(next, script[1..], cpus)
      && os[0] == (match script[0]
                   case Err(error) => ErrorObservation(error)
                   case Ok(snap) => BuildObservation(last, snap, cpus))
  {
  }

  /** No mix of failures loses a jiffy: the published totals add up to the counter's movement exactly
      when the counter never went backwards, and never to less. */
  lemma {:induction false} TotalsConservedIff(last: Snapshot, script: seq<Result<Snapshot, Error>>, cpus: int)
    ensures var moved := LastGood(last, script).total - last.total;
      && moved <= SumTotal(Published(last, script, cpus))
      && (SumTotal(Published(last, script, cpus)) == moved <==> TotalsMonotone(last, script))
    decreases script
  {
    if script == [] {
    } else {
      PublishedHead(last, script, cpus);
      TotalsConservedIff(if script[0].Ok? then script[0].value else last, script[1..], cpus);
    }
  }

  lemma {:induction false} BusyConserved(last: Snapshot, script: seq<Result<Snapshot, Error>>, cpus: int)
    requires IdleWithinTotal(last, script)
    ensures var final := LastGood(last, script);
      SumBusy(Published(last, script, cpus)) == (final.total - last.total) - (final.idle - last.idle)
    decreases script
  {
    if script == [] {
    } else {
      PublishedHead(last, script, cpus);
      BusyConserved(if script[0].Ok? then script[0].value else last, script[1..], cpus);
    }
  }

  /** Every observation holds true ratios: utilisation is in the unit interval and equals busy over
      total, so that the clamp never acts, and runnables are per CPU. */
  lemma RatioIsExact(previous: Snapshot, current: Snapshot, cpus: int)
    ensures var o := BuildObservation(previous, current, cpus);
      && 0.0 <= o.utilisation <= 1.0 && 0.0 <= o.runnable
      && (0 < cpus ==> o.runnable * cpus as real == current.runnable as real)
      && o.busyJiffies <= o.totalJiffies
      && o.utilisation * o.totalJiffies as real == o.busyJiffies as real
  {
    var o := BuildObservation(previous, current, cpus);
    if 0 < o.totalJiffies {
      Share(o.busyJiffies as real, o.totalJiffies as real);
    }
    if 0 < cpus {
      NonNegativeShare(current.runnable as real, cpus as real);
    }
  }

  lemma NonNegativeShare(part: real, whole: real)
    requires 0.0 <= part && 0.0 < whole
    ensures 0.0 <= part / whole && part / whole * whole == part
  {
    var q := part / whole;
    assert q * whole == part;
    if q < 0.0 {
      Numeric.ProductPositive(-q, whole);
    }
  }

  lemma Share(part: real, whole: real)
    requires 0.0 <= part <= whole && 0.0 < whole
    ensures 0.0 <= part / whole <= 1.0 && part / whole * whole == part
  {
    NonNegativeShare(part, whole);
    var q := part / whole;
    if 1.0 < q {
      Numeric.ProductGreater(1.0, q, whole);
    }
  }

  /** The controller's own normalisation changes nothing the sampler publishes. */
  function Delivered(o: Observation): Control.Event {
    match o.err
    case Some(error) => Control.ObsErr(error)
    case None => Control.Obs(o.utilisation, Finite(o.runnable))
  }

  lemma {:induction false} NothingClamped(last: Snapshot, script: seq<Result<Snapshot, Error>>, cpus: int,
                                          i: nat)
    requires i < |Published(last, script, cpus)|
    ensures var o := Published(last, script, cpus)[i];
      o.err == None ==>
        Control.Load(Delivered(o)) == o.utilisation && Control.Runnables(Delivered(o)) == o.runnable
    decreases script
  {
    PublishedHead(last, script, cpus);
    if i == 0 {
      if script[0].Ok? {
        RatioIsExact(last, script[0].value, cpus);
      }
    } else {
      NothingClamped(if script[0].Ok? then script[0].value else last, script[1..], cpus, i - 1);
    }
  }

  // ------------------------------------------------------------------- the cpu line

  const IDLE_FIELD := 3
  const IOWAIT_FIELD := 4
  const MINIMUM_FIELDS := 5

  /** The aggregate line: whether it starts with the cpu label, and the fields after it, `None` for
      one that is no 64-bit unsigned number. */
  datatype CpuLine = CpuLine(labelled: bool, fields: seq<Option<Counter>>)

  datatype ParseError = UnexpectedFormat | TooShort | BadField(position: nat)

  datatype Times = Times(idle: Counter, total: Counter)

  /** 64-bit unsigned wrap-around. */
  function Wrapped(n: nat): Counter {
    n % TWO64
  }

  lemma WrapAdd(sum: nat, value: nat)
    ensures Wrapped(Wrapped(sum) + value) == Wrapped(sum + value)
  {
    var q := sum / TWO64;
    assert sum + value == Wrapped(sum) + value + q * TWO64;
  }

  function Jiffies(field: Option<Counter>): nat {
    match field
    case None => 0
    case Some(v) => v
  }

  predicate IsIdle(index: int) {
    index == IDLE_FIELD || index == IOWAIT_FIELD
  }

  /** The sum of the fields for which `IsIdle` is `idle`, without wrap-around. */
  function SumOf(fields: seq<Option<Counter>>, idle: bool): nat
    decreases fields
  {
    if fields == [] then 0
    else
      var n := |fields| - 1;
      SumOf(fields[..n], idle) + (if IsIdle(n) == idle then Jiffies(fields[n]) else 0)
  }

  predicate Parses(line: CpuLine) {
    line.labelled && MINIMUM_FIELDS <= |line.fields| + 1
    && forall i :: 0 <= i < |line.fields| ==> line.fields[i].Some?
  }

  /** The two counters a run of fields adds up to. */
  function Tally(fields: seq<Option<Counter>>): Times {
    Times(Wrapped(SumOf(fields, true)), Wrapped(SumOf(fields, true) + SumOf(fields, false)))
  }

  /** Accumulating one more field, with wrap-around at every addition. */
  lemma FieldAdded(fields: seq<Option<Counter>>, index: nat)
    requires index < |fields| && fields[index].Some?
    ensures var seen, v := Tally(fields[..index]), fields[index].value;
      Tally(fields[..index + 1]) ==
        Times(if IsIdle(index) then Wrapped(seen.idle + v) else seen.idle, Wrapped(seen.total + v))
  {
    var seen := fields[..index];
    assert fields[..index + 1][..index] == seen;
    WrapAdd(SumOf(seen, true) + SumOf(seen, false), fields[index].value);
    WrapAdd(SumOf(seen, true), fields[index].value);
  }

  /** The plain sum of all fields. */
  function Everything(fields: seq<Option<Counter>>): nat
    decreases fields
  {
    if fields == [] then 0
    else Everything(fields[..|fields| - 1]) + Jiffies(fields[|fields| - 1])
  }

  /** The fourth field is the idle time, and the fifth, when there is one, the time waiting for input
      and output. */
  function IdleFields(fields: seq<Option<Counter>>): nat
    requires 4 <= |fields|
  {
    Jiffies(fields[3]) + (if |fields| == 4 then 0 else Jiffies(fields[4]))
  }

  lemma {:induction false} SumsByPosition(fields: seq<Option<Counter>>)
    ensures SumOf(fields, true) + SumOf(fields, false) == Everything(fields)
    ensures SumOf(fields, true) == (if |fields| < 4 then 0 else IdleFields(fields))
    decreases fields
  {
    if fields == [] {
    } else {
      SumsByPosition(fields[..|fields| - 1]);
    }
  }

  method ParseCPULine(line: CpuLine) returns (r: Result<Times, ParseError>)
    ensures r.Ok? <==> line.labelled && 4 <= |line.fields| && None !in line.fields
    ensures r.Ok? ==>
      && r.value.idle == IdleFields(line.fields) % 0x1_0000_0000_0000_0000
      && r.value.total == Everything(line.fields) % 0x1_0000_0000_0000_0000
      && r.value == Tally(line.fields)
    ensures !line.labelled ==> r == Err(UnexpectedFormat)
    ensures line.labelled && |line.fields| < 4 ==> r == Err(TooShort)
    ensures line.labelled && 4 <= |line.fields| && None in line.fields ==>
      r.Err? && r.error.BadField?
    ensures r.Err? && r.error.BadField? ==>
      var k := r.error.position - 1;
      0 <= k < |line.fields| && line.fields[k] == None && forall i :: 0 <= i < k ==> line.fields[i].Some?
  {
    if !line.labelled {
      return Err(UnexpectedFormat);
    }
    if |line.fields| + 1 < MINIMUM_FIELDS {
      return Err(TooShort);
    }
    var total: Counter, idle: Counter := 0, 0;
    var index := 0;
    while index < |line.fields|
      invariant 0 <= index <= |line.fields|
      invariant forall i :: 0 <= i < index ==> line.fields[i].Some?
      invariant Times(idle, total) == Tally(line.fields[..index])
    {
      var field := line.fields[index];
      if field == None {
        return Err(BadField(index + 1));
      }
      FieldAdded(line.fields, index);
      total := Wrapped(total + field.value);
      if index == IDLE_FIELD {
        idle := Wrapped(idle + field.value);
      }
      if index == IOWAIT_FIELD {
        idle := Wrapped(idle + field.value);
      }
      index := index + 1;
    }
    assert line.fields[..|line.fields|] == line.fields;
    SumsByPosition(line.fields);
    r := Ok(Times(idle, total));
  }

  lemma {:induction false} SumMonotone(a: seq<Option<Counter>>, b: seq<Option<Counter>>, idle: bool)
    requires |a| == |b| && forall i :: 0 <= i < |a| ==> Jiffies(a[i]) <= Jiffies(b[i])
    ensures SumOf(a, idle) <= SumOf(b, idle)
    decreases a
  {
    if a == [] {
    } else {
      SumMonotone(a[..|a| - 1], b[..|b| - 1], idle);
    }
  }

  /** End to end: two lines of equal length whose fields do not decrease, without overflow, give an
      observation whose busy time is exactly the movement of the non-idle fields. */
  lemma LinesToBusyTime(a: CpuLine, b: CpuLine, runnable: Counter, cpus: int)
    requires Parses(a) && Parses(b) && |a.fields| == |b.fields|
    requires forall i :: 0 <= i < |a.fields| ==> Jiffies(a.fields[i]) <= Jiffies(b.fields[i])
    requires Everything(b.fields) < TWO64
    ensures var before, after := Tally(a.fields), Tally(b.fields);
      var o := BuildObservation(Snapshot(before.idle, before.total, runnable),
                                Snapshot(after.idle, after.total, runnable), cpus);
      && after.idle - before.idle <= after.total - before.total
      && o.totalJiffies == after.total - before.total
      && o.totalJiffies == Everything(b.fields) - Everything(a.fields)
      && o.busyJiffies == o.totalJiffies - (IdleFields(b.fields) - IdleFields(a.fields))
  {
    SumsByPosition(a.fields);
    SumsByPosition(b.fields);
    SumMonotone(a.fields, b.fields, true);
    SumMonotone(a.fields, b.fields, false);
    NoWrap(SumOf(a.fields, true), SumOf(a.fields, false));
    NoWrap(SumOf(b.fields, true), SumOf(b.fields, false));
  }

  lemma NoWrap(idle: nat, rest: nat)
    requires idle + rest < TWO64
    ensures Wrapped(idle) == idle && Wrapped(idle + rest) == idle + rest
  {
  }
}
