/** The two loops share one record and one lock, and still do not interfere: each loop's view of
    a run is the view it would have had alone. */
module Loops {
  import opened Numeric
  import opened Config
  import opened Control
  import opened Invariant

  datatype SlowView = SlowView(desired: real, slowState: State, lastP95: real, lastErr: Option<Error>)

  datatype FastView =
    FastView(suppressed: bool, hostLoad: real, hostRunnable: real, lastEstErr: Option<Error>)

  function Slow(s: Core): SlowView {
    SlowView(s.desired, s.slowState, s.lastP95, s.lastErr)
  }

  function Fast(s: Core): FastView {
    FastView(s.suppressed, s.hostLoad, s.hostRunnable, s.lastEstErr)
  }

  /** A history with the fast loop's (or the slow loop's) sections erased. */
  function Only(es: seq<Event>, steps: bool): seq<Event>
    decreases es
  {
    if es == [] then []
    else
      var before, e := Only(es[..|es| - 1], steps), es[|es| - 1];
      if IsStep(e) == steps then before + [e] else before
  }

  lemma SlowIgnoresFast(cfg: Settings, s: Core, t: Core, e: Event)
    requires WellFormed(cfg) && Inv(cfg, s) && Inv(cfg, t) && Slow(s) == Slow(t)
    ensures IsStep(e) ==> Slow(Next(cfg, s, e)) == Slow(Next(cfg, t, e))
    ensures !IsStep(e) ==> Slow(Next(cfg, s, e)) == Slow(s)
  {
  }

  lemma FastIgnoresSlow(cfg: Settings, s: Core, t: Core, e: Event)
    requires Fast(s) == Fast(t)
    ensures !IsStep(e) ==> Fast(Next(cfg, s, e)) == Fast(Next(cfg, t, e))
    ensures IsStep(e) ==> Fast(Next(cfg, s, e)) == Fast(s)
  {
  }

  lemma {:induction false} SlowAlone(cfg: Settings, s: Core, es: seq<Event>)
    requires WellFormed(cfg) && Inv(cfg, s)
    ensures Slow(RunFrom(cfg, s, es)) == Slow(RunFrom(cfg, s, Only(es, true)))
    decreases es
  {
    if es == [] {
    } else {
      var before, e := es[..|es| - 1], es[|es| - 1];
      var erased := Only(before, true);
      SlowAlone(cfg, s, before);
      RunKeepsInv(cfg, s, before);
      RunKeepsInv(cfg, s, erased);
      SlowIgnoresFast(cfg, RunFrom(cfg, s, before), RunFrom(cfg, s, erased), e);
      RunFromSnoc(cfg, s, erased, e);
    }
  }

  lemma {:induction false} FastAlone(cfg: Settings, s: Core, es: seq<Event>)
    ensures Fast(RunFrom(cfg, s, es)) == Fast(RunFrom(cfg, s, Only(es, false)))
    decreases es
  {
    if es == [] {
    } else {
      var before, e := es[..|es| - 1], es[|es| - 1];
      var erased := Only(before, false);
      FastAlone(cfg, s, before);
      FastIgnoresSlow(cfg, RunFrom(cfg, s, before), RunFrom(cfg, s, erased), e);
      RunFromSnoc(cfg, s, erased, e);
    }
  }

  /** Two-loop decomposition, for every interleaving. The state and, with zero outside the band,
      the target are then assembled from the two lone runs. */
  lemma TwoLoopsDecompose(cfg: Settings, es: seq<Event>)
    requires WellFormed(cfg)
    ensures var s, slow, fast :=
        History(cfg, es), History(cfg, Only(es, true)), History(cfg, Only(es, false));
      && Slow(s) == Slow(slow)
      && Fast(s) == Fast(fast)
      && s.state == (if fast.suppressed then Suppressed else slow.slowState)
      && (ZeroOutsideBand(cfg) ==> s.target == (if fast.suppressed then 0.0 else slow.desired))
  {
    EveryHistory(cfg, es);
    SlowAlone(cfg, Init(cfg), es);
    FastAlone(cfg, Init(cfg), es);
  }

  /** A history with the failed observations erased. */
  function WithoutErrors(es: seq<Event>): seq<Event>
    decreases es
  {
    if es == [] then []
    else WithoutErrors(es[..|es| - 1]) + (if es[|es| - 1].ObsErr? then [] else [es[|es| - 1]])
  }

  lemma {:induction false} WithoutErrorsConcat(a: seq<Event>, b: seq<Event>)
    ensures WithoutErrors(a + b) == WithoutErrors(a) + WithoutErrors(b)
    decreases b
  {
    if b == [] {
      assert a + b == a;
    } else {
      WithoutErrorsConcat(a, b[..|b| - 1]);
      assert (a + b)[..|a + b| - 1] == a + b[..|b| - 1];
    }
  }

  lemma WithoutErrorsOne(e: Event)
    ensures WithoutErrors([e]) == if e.ObsErr? then [] else [e]
  {
    assert [e][..0] == [];
    assert WithoutErrors([e][..0]) == [];
  }

  lemma WithoutErrorsHead(e: Event, es: seq<Event>)
    ensures WithoutErrors([e] + es) == (if e.ObsErr? then [] else [e]) + WithoutErrors(es)
  {
    WithoutErrorsConcat([e], es);
    WithoutErrorsOne(e);
  }

  /** Failed observations change nothing but the remembered error. */
  lemma {:induction false} ErrorsInvisible(cfg: Settings, s: Core, es: seq<Event>)
    requires WellFormed(cfg) && Inv(cfg, s)
    ensures var t := RunFrom(cfg, s, es);
      t == RunFrom(cfg, s, WithoutErrors(es)).(lastEstErr := t.lastEstErr)
    decreases es
  {
    if es == [] {
    } else {
      var before, e := es[..|es| - 1], es[|es| - 1];
      var kept := WithoutErrors(before);
      ErrorsInvisible(cfg, s, before);
      RunKeepsInv(cfg, s, before);
      RunFromSnoc(cfg, s, kept, e);
      ErrorsDoNotSpread(cfg, RunFrom(cfg, s, before), RunFrom(cfg, s, kept), e);
      if e.ObsErr? {
        assert WithoutErrors(es) == kept + [] == kept;
      }
    }
  }

  lemma ErrorsDoNotSpread(cfg: Settings, s: Core, t: Core, e: Event)
    requires Inv(cfg, s) && s == t.(lastEstErr := s.lastEstErr)
    ensures var after := Next(cfg, s, e);
      && after == Next(cfg, t, e).(lastEstErr := after.lastEstErr)
      && (e.ObsErr? ==> after == t.(lastEstErr := after.lastEstErr))
  {
  }

  // ------------------------------------------------------ what a sample says

  /** The sample as published reaches an enabled threshold. */
  predicate Overload(cfg: Settings, e: Event) {
    && e.Obs?
    && (|| (cfg.suppressThreshold != 0.0 && cfg.suppressThreshold <= e.utilisation)
        || (cfg.runnableThreshold != 0.0 && e.runnable.Finite?
            && cfg.runnableThreshold <= e.runnable.value))
  }

  /** Some value is above the resume level of an enabled band. */
  predicate Warm(cfg: Settings, load: real, runnable: Float) {
    || (cfg.suppressThreshold != 0.0 && cfg.suppressResume < load)
    || (cfg.runnableThreshold != 0.0 && runnable.Finite? && cfg.runnableResume < runnable.value)
  }

  /** Clamping and normalising a sample does not change what it says. */
  lemma SamplesAtFaceValue(cfg: Settings, e: Event)
    requires WellFormed(cfg)
    ensures Guarded(cfg, e) <==> Overload(cfg, e)
    ensures e.Obs? ==>
      (Cooled(cfg, Load(e), Runnables(e)) <==> !Warm(cfg, e.utilisation, e.runnable))
    ensures e.Obs? ==>
      forall load :: Cooled(cfg, load, Runnables(e)) <==> !Warm(cfg, load, e.runnable)
  {
  }

  // ------------------------------------------------------ entering suppression

  /** Below both thresholds a smoothed load stays below them unless the raw sample reaches one, so
      the smoothed entry test never decides anything. */
  lemma SmoothedEntryNeverFires(cfg: Settings, s: Core, e: Event)
    requires Inv(cfg, s) && !s.suppressed && e.Obs? && !Guarded(cfg, e)
    ensures !Reached(cfg, Smoothed(cfg, s.hostLoad, Load(e), false), Runnables(e))
  {
    SmoothedBetween(cfg, s.hostLoad, Load(e), false);
  }

  /** Entry is memoryless: whatever the history, an unsuppressed controller is suppressed by an
      observation exactly when that observation alone reaches a threshold; and a threshold reached
      suppresses in any state. */
  lemma EntryIsMemoryless(cfg: Settings, es: seq<Event>, e: Event)
    requires WellFormed(cfg) && e.Obs?
    ensures !History(cfg, es).suppressed ==>
      (History(cfg, es + [e]).suppressed <==> Overload(cfg, e))
    ensures Overload(cfg, e) ==> History(cfg, es + [e]).suppressed
  {
    SamplesAtFaceValue(cfg, e);
    EveryHistory(cfg, es);
    RunFromSnoc(cfg, Init(cfg), es, e);
    var s := History(cfg, es);
    if !s.suppressed && !Guarded(cfg, e) {
      SmoothedEntryNeverFires(cfg, s, e);
    }
  }

  /** The exit looks at the smoothed load and the raw runnable count: a suppressed controller stays
      suppressed exactly while one of them is above its resume level, or the sample is an overload. */
  lemma ExitExactly(cfg: Settings, es: seq<Event>, e: Event)
    requires WellFormed(cfg) && e.Obs? && History(cfg, es).suppressed
    ensures var after := History(cfg, es + [e]);
      after.suppressed <==> Overload(cfg, e) || Warm(cfg, after.hostLoad, e.runnable)
  {
    EveryHistory(cfg, es);
    EveryHistory(cfg, es + [e]);
    RunFromSnoc(cfg, Init(cfg), es, e);
    SamplesAtFaceValue(cfg, e);
  }

  /** Without smoothing, suppression is a property of the samples: some observation reached a
      threshold and no later one was cool. */
  ghost predicate HotSince(cfg: Settings, es: seq<Event>, k: int) {
    && 0 <= k < |es|
    && Overload(cfg, es[k])
    && forall j :: k < j < |es| && es[j].Obs? ==> Warm(cfg, es[j].utilisation, es[j].runnable)
  }

  lemma {:induction false} UnsmoothedSuppression(cfg: Settings, es: seq<Event>)
    requires WellFormed(cfg) && cfg.smoothingSamples <= 1
    ensures History(cfg, es).suppressed <==> exists k :: HotSince(cfg, es, k)
    decreases es
  {
    if es == [] {
    } else {
      var before, e := es[..|es| - 1], es[|es| - 1];
      var s := History(cfg, before);
      UnsmoothedSuppression(cfg, before);
      EveryHistory(cfg, before);
      assert es == before + [e];
      SamplesAtFaceValue(cfg, e);
      if Overload(cfg, e) {
        assert HotSince(cfg, es, |es| - 1);
      } else {
        if History(cfg, es).suppressed {
          assert s.suppressed;
          var k :| HotSince(cfg, before, k);
          assert HotSince(cfg, es, k);
        }
        forall k | HotSince(cfg, es, k)
          ensures History(cfg, es).suppressed
        {
          assert HotSince(cfg, before, k);
        }
      }
    }
  }

  // -------------------------------------------------------- forgetting the past

  /** What two controllers agree on once they have seen the same overload. */
  predicate Synchronised(s: Core, t: Core) {
    Fast(s) == Fast(t) && s.relaxed == t.relaxed
  }

  lemma NextStaysSynchronised(cfg: Settings, s: Core, t: Core, e: Event)
    requires Synchronised(s, t)
    ensures Synchronised(Next(cfg, s, e), Next(cfg, t, e))
  {
    FastIgnoresSlow(cfg, s, t, e);
  }

  lemma {:induction false} StaySynchronised(cfg: Settings, s: Core, t: Core, es: seq<Event>)
    requires Synchronised(s, t)
    ensures Synchronised(RunFrom(cfg, s, es), RunFrom(cfg, t, es))
    decreases es
  {
    if es == [] {
    } else {
      var before := es[..|es| - 1];
      StaySynchronised(cfg, s, t, before);
      NextStaysSynchronised(cfg, RunFrom(cfg, s, before), RunFrom(cfg, t, before), es[|es| - 1]);
    }
  }

  /** One overload sample makes any two histories indistinguishable to the fast loop and to the
      relaxed counter, for every common continuation. */
  lemma OverloadSynchronises(cfg: Settings, past1: seq<Event>, past2: seq<Event>, e: Event,
                             future: seq<Event>)
    requires WellFormed(cfg) && Overload(cfg, e)
    ensures Synchronised(History(cfg, past1 + [e] + future), History(cfg, past2 + [e] + future))
    ensures History(cfg, past1 + [e]).target == History(cfg, past2 + [e]).target == 0.0
  {
    SamplesAtFaceValue(cfg, e);
    EveryHistory(cfg, past1);
    EveryHistory(cfg, past2);
    EveryHistory(cfg, past1 + [e]);
    EveryHistory(cfg, past2 + [e]);
    RunFromSnoc(cfg, Init(cfg), past1, e);
    RunFromSnoc(cfg, Init(cfg), past2, e);
    RunFromConcat(cfg, Init(cfg), past1 + [e], future);
    RunFromConcat(cfg, Init(cfg), past2 + [e], future);
    StaySynchronised(cfg, History(cfg, past1 + [e]), History(cfg, past2 + [e]), future);
  }

  /** An overload, a failed query and a successful one erase the past entirely: the records are
      equal from then on. */
  lemma ThreeEventsForgetEverything(cfg: Settings, past1: seq<Event>, past2: seq<Event>, e: Event,
                                    error: Error, p95: real, at: int, future: seq<Event>)
    requires WellFormed(cfg) && Overload(cfg, e)
    ensures var reset := [e] + [StepErr(error)] + [StepOk(p95, at)];
      History(cfg, past1 + reset + future) == History(cfg, past2 + reset + future)
  {
    var reset := [e] + [StepErr(error)] + [StepOk(p95, at)];
    AfterReset(cfg, past1, e, error, p95, at);
    AfterReset(cfg, past2, e, error, p95, at);
    OverloadSynchronises(cfg, past1, past2, e, []);
    assert past1 + [e] + [] == past1 + [e] && past2 + [e] + [] == past2 + [e];
    EveryHistory(cfg, past1 + [e]);
    EveryHistory(cfg, past2 + [e]);
    RunFromConcat(cfg, Init(cfg), past1 + reset, future);
    RunFromConcat(cfg, Init(cfg), past2 + reset, future);
  }

  lemma AfterReset(cfg: Settings, past: seq<Event>, e: Event, error: Error, p95: real, at: int)
    ensures var reset := [e] + [StepErr(error)] + [StepOk(p95, at)];
      History(cfg, past + reset)
      == Next(cfg, Next(cfg, History(cfg, past + [e]), StepErr(error)), StepOk(p95, at))
  {
    var reset := [e] + [StepErr(error)] + [StepOk(p95, at)];
    assert past + reset == past + [e] + [StepErr(error)] + [StepOk(p95, at)];
    RunFromSnoc(cfg, Init(cfg), past + [e] + [StepErr(error)], StepOk(p95, at));
    RunFromSnoc(cfg, Init(cfg), past + [e], StepErr(error));
  }
}
