/** When exactly the exported counter, and the target, part from what the loops agreed on: two facts
    about the history alone. */
module Drift {
  import opened Numeric
  import opened Config
  import opened Control
  import opened Invariant

  lemma PrefixRun(cfg: Settings, es: seq<Event>, i: nat)
    requires i < |es|
    ensures History(cfg, es[..i + 1]) == Next(cfg, History(cfg, es[..i]), es[i])
  {
    assert es[..i + 1][..i] == es[..i];
  }

  /** Prefixes of a prefix. */
  lemma Shorter(es: seq<Event>, n: nat, i: nat)
    requires i <= n <= |es|
    ensures es[..n][..i] == es[..i]
  {
  }

  // ----------------------------------------------------------- the exported counter

  /** Event `j` exports the counter: a successful step, or a suppression transition. */
  predicate Exports(cfg: Settings, es: seq<Event>, j: int)
    requires 0 <= j < |es|
  {
    es[j].StepOk? || History(cfg, es[..j]).suppressed != History(cfg, es[..j + 1]).suppressed
  }

  /** Event `k` is a failed query that threw away a positive counter, and nothing has been exported
      since. */
  ghost predicate LostCount(cfg: Settings, es: seq<Event>, k: int) {
    && 0 <= k < |es|
    && es[k].StepErr?
    && 0 < History(cfg, es[..k]).relaxed
    && forall j :: k < j < |es| ==> !Exports(cfg, es, j)
  }

  lemma LostCountGrows(cfg: Settings, es: seq<Event>, k: int)
    requires es != [] && k != |es| - 1
    ensures LostCount(cfg, es, k) <==>
      LostCount(cfg, es[..|es| - 1], k) && !Exports(cfg, es, |es| - 1)
  {
    var n := |es| - 1;
    forall j | 0 <= j < n
      ensures Exports(cfg, es[..n], j) == Exports(cfg, es, j)
      ensures es[..n][..j] == es[..j]
    {
      Shorter(es, n, j);
      Shorter(es, n, j + 1);
    }
  }

  /** After any history the exported counter differs from the true one exactly when a failed query
      threw a positive counter away and nothing has exported it since. */
  lemma {:induction false} CounterLagsIff(cfg: Settings, cycler: Cycler, gauges: Gauges, es: seq<Event>)
    requires WellFormed(cfg) && gauges.relaxed == 0
    ensures var sys := AdvanceAll(cfg, Launch(cfg, cycler, Some(gauges)), es);
      && sys.core == History(cfg, es) && sys.gauges.Some?
      && (sys.gauges.value.relaxed != sys.core.relaxed <==> exists k :: LostCount(cfg, es, k))
      && (sys.gauges.value.relaxed != sys.core.relaxed ==> sys.core.relaxed == 0)
    decreases es
  {
    if es == [] {
    } else {
      var n := |es| - 1;
      CounterLagsIff(cfg, cycler, gauges, es[..n]);
      EveryHistory(cfg, es[..n]);
      PrefixRun(cfg, es, n);
      assert es[..n + 1] == es;
      forall k | k != n
        ensures LostCount(cfg, es, k) <==> LostCount(cfg, es[..n], k) && !Exports(cfg, es, n)
      {
        LostCountGrows(cfg, es, k);
      }
      assert LostCount(cfg, es, n) <==> es[n].StepErr? && 0 < History(cfg, es[..n]).relaxed;
    }
  }

  /** It happens under every configuration: one high sample, then one failed query. */
  lemma CounterLags(cfg: Settings, cycler: Cycler, gauges: Gauges, error: Error)
    requires WellFormed(cfg) && gauges.relaxed == 0
    ensures var sys := AdvanceAll(cfg, Launch(cfg, cycler, Some(gauges)),
                                  [StepOk(cfg.relaxedThreshold, 0), StepErr(error)]);
      sys.core.relaxed == 0 && sys.gauges.Some? && sys.gauges.value.relaxed == 1
  {
    var high := StepOk(cfg.relaxedThreshold, 0);
    var es := [high, StepErr(error)];
    assert es[..1] == [high] && [high][..0] == [];
    var launched := Launch(cfg, cycler, Some(gauges));
    assert AdvanceAll(cfg, launched, es[..1]) == Advance(cfg, launched, high);
  }

  // --------------------------------------------------------------------- the target

  /** Event `k` lifted suppression while the desired target was zero, and no step has followed. */
  ghost predicate LostDesired(cfg: Settings, es: seq<Event>, k: int) {
    && 0 <= k < |es|
    && History(cfg, es[..k]).suppressed && !History(cfg, es[..k + 1]).suppressed
    && History(cfg, es[..k]).desired == 0.0
    && forall j :: k < j < |es| ==> !IsStep(es[j])
  }

  lemma LostDesiredGrows(cfg: Settings, es: seq<Event>, k: int)
    requires es != [] && k != |es| - 1
    ensures LostDesired(cfg, es, k) <==>
      LostDesired(cfg, es[..|es| - 1], k) && !IsStep(es[|es| - 1])
  {
    var n := |es| - 1;
    if 0 <= k < n {
      Shorter(es, n, k);
      Shorter(es, n, k + 1);
    }
  }

  /** The target after any history of any well-formed configuration: zero while suppressed, and
      otherwise the desired one, unless a resume found that at zero and no step has followed. */
  lemma {:induction false} TargetExactly(cfg: Settings, es: seq<Event>)
    requires WellFormed(cfg)
    ensures var s := History(cfg, es);
      s.target == (if s.suppressed then 0.0
                   else if exists k :: LostDesired(cfg, es, k) then cfg.targetStart
                   else s.desired)
    ensures (exists k :: LostDesired(cfg, es, k)) ==> History(cfg, es).desired == 0.0
    decreases es
  {
    if es == [] {
    } else {
      var n := |es| - 1;
      TargetExactly(cfg, es[..n]);
      EveryHistory(cfg, es[..n]);
      PrefixRun(cfg, es, n);
      assert es[..n + 1] == es;
      forall k | k != n
        ensures LostDesired(cfg, es, k) <==> LostDesired(cfg, es[..n], k) && !IsStep(es[n])
      {
        LostDesiredGrows(cfg, es, k);
      }
      var s, after := History(cfg, es[..n]), History(cfg, es);
      assert LostDesired(cfg, es, n) <==> s.suppressed && !after.suppressed && s.desired == 0.0;
    }
  }

  /** So an unsuppressed target is not the desired one exactly then. */
  lemma TargetDriftsIff(cfg: Settings, es: seq<Event>)
    requires WellFormed(cfg) && !History(cfg, es).suppressed
    ensures History(cfg, es).target != History(cfg, es).desired <==> exists k :: LostDesired(cfg, es, k)
  {
    TargetExactly(cfg, es);
  }
}
