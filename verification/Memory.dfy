/** What the record and the exported gauges remember of a history: of each kind of event the latest
    one, whatever happened around it. */
module Memory {
  import opened Numeric
  import opened Config
  import opened Control
  import opened Invariant
  import Loops

  /** No step (successful step, observation) among the events. */
  predicate NoSteps(es: seq<Event>) {
    forall i :: 0 <= i < |es| ==> es[i].Obs? || es[i].ObsErr?
  }

  predicate NoSuccesses(es: seq<Event>) {
    forall i :: 0 <= i < |es| ==> !es[i].StepOk?
  }

  predicate OnlySteps(es: seq<Event>) {
    forall i :: 0 <= i < |es| ==> es[i].StepOk? || es[i].StepErr?
  }

  predicate NoSamples(es: seq<Event>) {
    forall i :: 0 <= i < |es| ==> !es[i].Obs?
  }

  lemma {:induction false} TailKeeps(cfg: Settings, s: Core, tail: seq<Event>)
    ensures var t := RunFrom(cfg, s, tail);
      && (NoSteps(tail) ==>
            t.slowState == s.slowState && t.lastErr == s.lastErr && t.desired == s.desired)
      && (NoSuccesses(tail) ==> t.lastP95 == s.lastP95)
      && (OnlySteps(tail) ==> t.lastEstErr == s.lastEstErr)
      && (NoSamples(tail) ==>
            && t.suppressed == s.suppressed
            && t.hostLoad == s.hostLoad && t.hostRunnable == s.hostRunnable)
    decreases tail
  {
    if tail == [] {
    } else {
      var before, e := tail[..|tail| - 1], tail[|tail| - 1];
      TailKeeps(cfg, s, before);
      assert forall i :: 0 <= i < |before| ==> before[i] == tail[i];
    }
  }

  lemma SplitRun(cfg: Settings, past: seq<Event>, e: Event, tail: seq<Event>)
    ensures History(cfg, past + [e] + tail) == RunFrom(cfg, Next(cfg, History(cfg, past), e), tail)
  {
    RunFromConcat(cfg, Init(cfg), past + [e], tail);
    RunFromSnoc(cfg, Init(cfg), past, e);
  }

  // --------------------------------------------------------------------- the slow loop

  /** The slow loop's state and error are those of the latest step; the visible state is that, unless
      the fast loop suppresses. */
  lemma LatestStep(cfg: Settings, past: seq<Event>, e: Event, tail: seq<Event>)
    requires WellFormed(cfg) && NoSteps(tail)
    ensures var s := History(cfg, past + [e] + tail);
      && (e.StepOk? ==> s.slowState == State.Normal && s.lastErr == None)
      && (e.StepErr? ==>
            s.slowState == Fallback && s.lastErr == Some(e.error) && s.desired == cfg.fallbackTarget)
      && s.state == (if s.suppressed then Suppressed else s.slowState)
  {
    SplitRun(cfg, past, e, tail);
    EveryHistory(cfg, past);
    EveryHistory(cfg, past + [e] + tail);
    TailKeeps(cfg, Next(cfg, History(cfg, past), e), tail);
  }

  /** The P95 is that of the latest successful step, whatever failed since. */
  lemma LatestP95(cfg: Settings, past: seq<Event>, p95: real, at: int, tail: seq<Event>)
    requires NoSuccesses(tail)
    ensures History(cfg, past + [StepOk(p95, at)] + tail).lastP95 == p95
  {
    SplitRun(cfg, past, StepOk(p95, at), tail);
    TailKeeps(cfg, Next(cfg, History(cfg, past), StepOk(p95, at)), tail);
  }

  /** Until the first step the controller is in fallback at the fallback target, with no error and no
      P95. */
  lemma BeforeAnyStep(cfg: Settings, es: seq<Event>)
    requires WellFormed(cfg) && NoSteps(es)
    ensures var s := History(cfg, es);
      && s.slowState == Fallback && s.lastErr == None && s.lastP95 == 0.0
      && s.desired == cfg.fallbackTarget
      && s.state == (if s.suppressed then Suppressed else Fallback)
  {
    TailKeeps(cfg, Init(cfg), es);
    EveryHistory(cfg, es);
  }

  // --------------------------------------------------------------------- the fast loop

  /** The estimator error is that of the latest observation, good or failed. */
  lemma LatestObservation(cfg: Settings, past: seq<Event>, e: Event, tail: seq<Event>)
    requires OnlySteps(tail)
    ensures var s := History(cfg, past + [e] + tail);
      && (e.ObsErr? ==> s.lastEstErr == Some(e.error))
      && (e.Obs? ==> s.lastEstErr == None)
    ensures History(cfg, tail).lastEstErr == None
  {
    SplitRun(cfg, past, e, tail);
    TailKeeps(cfg, Next(cfg, History(cfg, past), e), tail);
    TailKeeps(cfg, Init(cfg), tail);
  }

  /** Before the first sample nothing is suppressed and no load is known. */
  lemma BeforeAnySample(cfg: Settings, es: seq<Event>)
    requires NoSamples(es)
    ensures var s := History(cfg, es);
      !s.suppressed && s.hostLoad == 0.0 && s.hostRunnable == 0.0
  {
    TailKeeps(cfg, Init(cfg), es);
  }

  /** The load averages after the latest sample, with at least one band on: the runnable count is the
      sample's own, and the load is the sample itself after a load of zero, after an overload and
      without smoothing, and otherwise has moved by one `n`-th of the distance. */
  lemma LatestSample(cfg: Settings, past: seq<Event>, e: Event, tail: seq<Event>, sample: real)
    requires WellFormed(cfg) && (cfg.suppressThreshold != 0.0 || cfg.runnableThreshold != 0.0)
    requires e.Obs? && ClosestInUnit(sample, e.utilisation) && NoSamples(tail)
    ensures var before, s := History(cfg, past), History(cfg, past + [e] + tail);
      && (if e.runnable.Finite? && 0.0 < e.runnable.value then s.hostRunnable == e.runnable.value
          else s.hostRunnable == 0.0)
      && (if before.hostLoad == 0.0 || Loops.Overload(cfg, e) || cfg.smoothingSamples <= 1
          then s.hostLoad == sample
          else
            cfg.smoothingSamples as real * (s.hostLoad - before.hostLoad) == sample - before.hostLoad)
  {
    SampleTaken(cfg, past, e, tail);
    Loops.SamplesAtFaceValue(cfg, e);
    LoadMoves(cfg, History(cfg, past).hostLoad, sample, Guarded(cfg, e));
  }

  lemma SampleTaken(cfg: Settings, past: seq<Event>, e: Event, tail: seq<Event>)
    requires !Disabled(cfg) && e.Obs? && NoSamples(tail)
    ensures var s := History(cfg, past + [e] + tail);
      && s.hostLoad == Smoothed(cfg, History(cfg, past).hostLoad, Load(e), Guarded(cfg, e))
      && s.hostRunnable == Runnables(e)
  {
    SplitRun(cfg, past, e, tail);
    TailKeeps(cfg, Next(cfg, History(cfg, past), e), tail);
  }

  lemma LoadMoves(cfg: Settings, h: real, load: real, guarded: bool)
    ensures var after := Smoothed(cfg, h, load, guarded);
      if h == 0.0 || guarded || cfg.smoothingSamples <= 1 then after == load
      else cfg.smoothingSamples as real * (after - h) == load - h
  {
    if h != 0.0 && !guarded && 1 < cfg.smoothingSamples {
      var step := (load - h) / cfg.smoothingSamples as real;
      assert cfg.smoothingSamples as real * step == load - h;
    }
  }

  // ------------------------------------------------------------------------ the gauges

  /** The system after a history, with gauges that start as `g`. */
  function Shown(cfg: Settings, cycler: Cycler, g: Gauges, es: seq<Event>): System {
    AdvanceAll(cfg, Launch(cfg, cycler, Some(g)), es)
  }

  lemma {:induction false} GaugesKeep(cfg: Settings, sys: System, tail: seq<Event>)
    requires sys.gauges.Some?
    ensures var after := AdvanceAll(cfg, sys, tail).gauges;
      && after.Some?
      && (NoSteps(tail) ==> after.value.interval == sys.gauges.value.interval)
      && (NoSuccesses(tail) ==> after.value.fetchedAt == sys.gauges.value.fetchedAt)
      && (NoSamples(tail) ==> after.value.hostCPU == sys.gauges.value.hostCPU)
    decreases tail
  {
    if tail == [] {
    } else {
      var before := tail[..|tail| - 1];
      GaugesKeep(cfg, sys, before);
      assert forall i :: 0 <= i < |before| ==> before[i] == tail[i];
    }
  }

  lemma {:induction false} AdvanceAllConcat(cfg: Settings, sys: System, a: seq<Event>, b: seq<Event>)
    ensures AdvanceAll(cfg, sys, a + b) == AdvanceAll(cfg, AdvanceAll(cfg, sys, a), b)
    decreases b
  {
    if b == [] {
      assert a + b == a;
    } else {
      AdvanceAllConcat(cfg, sys, a, b[..|b| - 1]);
      assert (a + b)[..|a + b| - 1] == a + b[..|b| - 1];
    }
  }

  lemma {:induction false} CoreOfShown(cfg: Settings, cycler: Cycler, g: Gauges, es: seq<Event>)
    ensures Shown(cfg, cycler, g, es).core == History(cfg, es)
    ensures Shown(cfg, cycler, g, es).gauges.Some?
    decreases es
  {
    if es == [] {
    } else {
      CoreOfShown(cfg, cycler, g, es[..|es| - 1]);
    }
  }

  /** The exported interval, fetch time and host CPU are those of the latest step, successful step and
      sample. */
  lemma LatestExports(cfg: Settings, cycler: Cycler, g: Gauges, past: seq<Event>, e: Event,
                      tail: seq<Event>)
    ensures var shown := Shown(cfg, cycler, g, past + [e] + tail).gauges;
      && shown.Some?
      && (IsStep(e) && NoSteps(tail) ==>
            shown.value.interval == NextInterval(cfg, History(cfg, past), e))
      && (e.StepOk? && NoSuccesses(tail) ==> shown.value.fetchedAt == e.fetchedAt)
      && (e.Obs? && NoSamples(tail) ==> ClosestInUnit(shown.value.hostCPU, e.utilisation))
  {
    var launched := Launch(cfg, cycler, Some(g));
    CoreOfShown(cfg, cycler, g, past);
    AdvanceAllConcat(cfg, launched, past + [e], tail);
    assert (past + [e])[..|past + [e]| - 1] == past;
    GaugesKeep(cfg, AdvanceAll(cfg, launched, past + [e]), tail);
  }

  /** And before the first of each, what the constructor exported, or nothing. */
  lemma FirstExports(cfg: Settings, cycler: Cycler, g: Gauges, es: seq<Event>)
    ensures var shown := Shown(cfg, cycler, g, es).gauges;
      && shown.Some?
      && (NoSteps(es) ==> shown.value.interval == cfg.interval)
      && (NoSuccesses(es) ==> shown.value.fetchedAt == g.fetchedAt)
      && (NoSamples(es) ==> shown.value.hostCPU == g.hostCPU)
  {
    GaugesKeep(cfg, Launch(cfg, cycler, Some(g)), es);
  }
}
