/** The relaxed-polling counter is a fact about the history, and decides the polling interval. */
module Streak {
  import opened Config
  import opened Control
  import opened Invariant

  /** Event `i` is a successful step taken while unsuppressed, with a high sample. */
  predicate Counts(cfg: Settings, es: seq<Event>, i: int)
    requires 0 <= i < |es|
  {
    && es[i].StepOk?
    && cfg.relaxedThreshold <= es[i].p95
    && !History(cfg, es[..i]).suppressed
  }

  /** Event `i` ends a streak: a failed, low or suppressed step, or a suppression transition. */
  predicate Cuts(cfg: Settings, es: seq<Event>, i: int)
    requires 0 <= i < |es|
  {
    if IsStep(es[i]) then !Counts(cfg, es, i)
    else History(cfg, es[..i]).suppressed != History(cfg, es[..i + 1]).suppressed
  }

  lemma PrefixAgrees(cfg: Settings, es: seq<Event>, n: nat, i: int)
    requires 0 <= i < n <= |es|
    ensures Counts(cfg, es[..n], i) == Counts(cfg, es, i)
    ensures Cuts(cfg, es[..n], i) == Cuts(cfg, es, i)
  {
    assert es[..n][..i] == es[..i] && es[..n][..i + 1] == es[..i + 1];
  }

  /** The position just after the latest cut. */
  ghost function Since(cfg: Settings, es: seq<Event>): (k: int)
    ensures 0 <= k <= |es|
    ensures 0 < k ==> Cuts(cfg, es, k - 1)
    ensures forall i :: k <= i < |es| ==> !Cuts(cfg, es, i)
    decreases es
  {
    if es == [] then 0
    else if Cuts(cfg, es, |es| - 1) then |es|
    else
      var n := |es| - 1;
      var k := Since(cfg, es[..n]);
      assert 0 < k ==> Cuts(cfg, es, k - 1) by {
        if 0 < k { PrefixAgrees(cfg, es, n, k - 1); }
      }
      assert forall i :: k <= i < |es| ==> !Cuts(cfg, es, i) by {
        forall i | k <= i < n ensures !Cuts(cfg, es, i) { PrefixAgrees(cfg, es, n, i); }
      }
      k
  }

  /** The counted steps since the latest cut. */
  ghost function Current(cfg: Settings, es: seq<Event>): set<int> {
    set i | Since(cfg, es) <= i < |es| && Counts(cfg, es, i)
  }

  lemma CurrentGrows(cfg: Settings, es: seq<Event>, e: Event)
    ensures var all := es + [e];
      Current(cfg, all) ==
        if Cuts(cfg, all, |es|) then {}
        else if Counts(cfg, all, |es|) then Current(cfg, es) + {|es|}
        else Current(cfg, es)
  {
    var all := es + [e];
    assert all[..|es|] == es;
    forall i | 0 <= i < |es|
      ensures Counts(cfg, es, i) == Counts(cfg, all, i) && Cuts(cfg, es, i) == Cuts(cfg, all, i)
    {
      PrefixAgrees(cfg, all, |es|, i);
    }
    if !Cuts(cfg, all, |es|) {
      assert Since(cfg, all) == Since(cfg, es);
    }
  }

  lemma CounterStep(cfg: Settings, s: Core, e: Event)
    requires Inv(cfg, s)
    ensures var after := Next(cfg, s, e);
      after.relaxed ==
        if IsStep(e) then
          (if e.StepOk? && cfg.relaxedThreshold <= e.p95 && !s.suppressed then s.relaxed + 1 else 0)
        else if after.suppressed != s.suppressed then 0
        else s.relaxed
  {
  }

  /** The streak's length moves as the counter does. */
  lemma StreakStep(cfg: Settings, es: seq<Event>, e: Event)
    ensures var s, all := History(cfg, es), es + [e];
      |Current(cfg, all)| ==
        if IsStep(e) then
          (if e.StepOk? && cfg.relaxedThreshold <= e.p95 && !s.suppressed then |Current(cfg, es)| + 1
           else 0)
        else if Next(cfg, s, e).suppressed != s.suppressed then 0
        else |Current(cfg, es)|
  {
    var all := es + [e];
    CurrentGrows(cfg, es, e);
    RunFromSnoc(cfg, Init(cfg), es, e);
    assert all[..|es|] == es && all[..|es| + 1] == all;
    assert |es| !in Current(cfg, es);
  }

  /** The counter equals the length of the current streak, after every history. */
  lemma {:induction false} CounterIsStreak(cfg: Settings, es: seq<Event>)
    requires WellFormed(cfg)
    ensures History(cfg, es).relaxed == |Current(cfg, es)|
    decreases es
  {
    if es == [] {
    } else {
      var before, e := es[..|es| - 1], es[|es| - 1];
      CounterIsStreak(cfg, before);
      EveryHistory(cfg, before);
      assert es == before + [e];
      CounterStep(cfg, History(cfg, before), e);
      StreakStep(cfg, before, e);
    }
  }

  /** A step returns the relaxed interval exactly when the streak it completes has reached the
      required confirmations. */
  lemma IntervalFollowsStreak(cfg: Settings, es: seq<Event>, e: Event)
    requires WellFormed(cfg) && IsStep(e)
    ensures NextInterval(cfg, History(cfg, es), e) ==
      if cfg.relaxedConfirmations <= |Current(cfg, es + [e])| then cfg.relaxedInterval
      else cfg.interval
    ensures 0 < NextInterval(cfg, History(cfg, es), e)
  {
    CounterIsStreak(cfg, es + [e]);
    RunFromSnoc(cfg, Init(cfg), es, e);
  }
}
