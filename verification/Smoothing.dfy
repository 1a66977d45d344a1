/** What smoothing does to the exit from suppression, and whether the pool's own pause flag agrees
    with the controller. */
module Smoothing {
  import opened Numeric
  import opened Config
  import opened Control
  import opened Invariant
  import Shape

  function Unsmoothed(cfg: Settings): Settings {
    cfg.(smoothingSamples := 1)
  }

  /** Smoothing never ends suppression earlier than the raw samples would. */
  ghost predicate OnlyDelaysExit(cfg: Settings) {
    forall es :: History(Unsmoothed(cfg), es).suppressed ==> History(cfg, es).suppressed
  }

  /** Smoothing is off, or one of the two bands is, or resuming needs an idle CPU. */
  predicate ExitSafe(cfg: Settings) {
    || cfg.smoothingSamples <= 1
    || cfg.suppressThreshold == 0.0
    || cfg.runnableThreshold == 0.0
    || cfg.suppressResume == 0.0
  }

  /** How the smoothed controller `s` shadows the unsmoothed one `t`. */
  predicate Shadows(cfg: Settings, s: Core, t: Core) {
    && Inv(cfg, s) && Inv(Unsmoothed(cfg), t)
    && s.hostRunnable == t.hostRunnable
    && (t.suppressed ==> s.suppressed)
    && (t.suppressed && cfg.runnableThreshold == 0.0 ==> cfg.suppressResume < s.hostLoad)
    && (cfg.smoothingSamples <= 1 ==> s.hostLoad == t.hostLoad)
  }

  lemma AboveResumeStays(cfg: Settings, h: real, load: real)
    requires 0.0 <= cfg.suppressResume < h && cfg.suppressResume < load
    ensures cfg.suppressResume < Smoothed(cfg, h, load, false)
  {
    SmoothedBetween(cfg, h, load, false);
  }

  /** A smoothed load of zero needs a sample of zero. */
  lemma ZeroNeedsZero(cfg: Settings, h: real, load: real)
    requires 0.0 <= h && 0.0 <= load
    ensures Smoothed(cfg, h, load, false) <= 0.0 ==> load == 0.0
  {
    if 0.0 < h && 1 < cfg.smoothingSamples {
      SmoothedStaysPositive(cfg, h, load);
    }
  }

  lemma ShadowsStep(cfg: Settings, s: Core, t: Core, e: Event)
    requires WellFormed(cfg) && ExitSafe(cfg) && Shadows(cfg, s, t)
    ensures Shadows(cfg, Next(cfg, s, e), Next(Unsmoothed(cfg), t, e))
  {
    NextKeepsInv(cfg, s, e);
    NextKeepsInv(Unsmoothed(cfg), t, e);
    if e.Obs? && !Disabled(cfg) && !Guarded(cfg, e) && t.suppressed
       && Next(Unsmoothed(cfg), t, e).suppressed {
      var after := Next(cfg, s, e);
      if cfg.smoothingSamples <= 1 || cfg.suppressThreshold == 0.0 {
      } else if cfg.runnableThreshold == 0.0 {
        AboveResumeStays(cfg, s.hostLoad, Load(e));
      } else if !after.suppressed {
        ZeroNeedsZero(cfg, s.hostLoad, Load(e));
      }
    }
  }

  lemma {:induction false} ShadowsAlways(cfg: Settings, es: seq<Event>)
    requires WellFormed(cfg) && ExitSafe(cfg)
    ensures Shadows(cfg, History(cfg, es), History(Unsmoothed(cfg), es))
    decreases es
  {
    if es == [] {
    } else {
      var before := es[..|es| - 1];
      ShadowsAlways(cfg, before);
      ShadowsStep(cfg, History(cfg, before), History(Unsmoothed(cfg), before), es[|es| - 1]);
    }
  }

  /** A load strictly between the resume level and the threshold. */
  function InBand(cfg: Settings): real {
    cfg.suppressResume + Min(cfg.suppressResume, cfg.suppressThreshold - cfg.suppressResume) / 2.0
  }

  /** A runnable overload on a nearly idle CPU, then a load inside the band. */
  function HastyTrace(cfg: Settings): seq<Event> {
    [Obs(cfg.suppressResume / 2.0, Finite(cfg.runnableThreshold))] + [Obs(InBand(cfg), Finite(0.0))]
  }

  lemma HastyFirst(cfg: Settings)
    requires WellFormed(cfg) && 0.0 < cfg.suppressResume && 0.0 < cfg.runnableThreshold
    ensures var t := Next(cfg, Init(cfg), HastyTrace(cfg)[0]);
      t.suppressed && t.hostLoad == cfg.suppressResume / 2.0
  {
    assert HastyTrace(cfg)[0] == Obs(cfg.suppressResume / 2.0, Finite(cfg.runnableThreshold));
  }

  lemma HastyAverage(n: real, r: real, u: real)
    requires 2.0 <= n && 0.0 < r && r < u <= 1.5 * r
    ensures r / 2.0 + (u - r / 2.0) / n <= r
  {
    var step := (u - r / 2.0) / n;
    assert n * step == u - r / 2.0;
    if r / 2.0 < step {
      ProductMonotone(2.0, n, step);
    }
  }

  lemma HastySecond(cfg: Settings, s: Core)
    requires WellFormed(cfg) && s.suppressed && s.hostLoad == cfg.suppressResume / 2.0
    requires 0.0 < cfg.suppressResume && 0.0 < cfg.runnableThreshold
    ensures Next(cfg, s, HastyTrace(cfg)[1]).suppressed <==> cfg.smoothingSamples <= 1
  {
    var e := HastyTrace(cfg)[1];
    assert e == Obs(InBand(cfg), Finite(0.0));
    assert cfg.suppressResume < InBand(cfg) < cfg.suppressThreshold;
    assert Load(e) == InBand(cfg) && !Guarded(cfg, e);
    if 1 < cfg.smoothingSamples {
      HastyAverage(cfg.smoothingSamples as real, cfg.suppressResume, InBand(cfg));
    }
  }

  lemma HastyResume(cfg: Settings)
    requires WellFormed(cfg) && !ExitSafe(cfg)
    ensures var es := HastyTrace(cfg);
      && !History(cfg, es).suppressed
      && History(Unsmoothed(cfg), es).suppressed
  {
    HastyHistory(cfg);
    HastyHistory(Unsmoothed(cfg));
    assert HastyTrace(Unsmoothed(cfg)) == HastyTrace(cfg);
  }

  lemma HastyHistory(cfg: Settings)
    requires WellFormed(cfg) && 0.0 < cfg.suppressResume && 0.0 < cfg.runnableThreshold
    ensures History(cfg, HastyTrace(cfg)).suppressed <==> cfg.smoothingSamples <= 1
  {
    var es := HastyTrace(cfg);
    assert [] + [es[0]] == [es[0]] && es == [es[0]] + [es[1]];
    RunFromSnoc(cfg, Init(cfg), [], es[0]);
    RunFromSnoc(cfg, Init(cfg), [es[0]], es[1]);
    HastyFirst(cfg);
    HastySecond(cfg, History(cfg, [es[0]]));
  }

  /** Smoothing only delays the exit exactly for the exit-safe configurations. */
  lemma OnlyDelaysExitIff(cfg: Settings)
    requires WellFormed(cfg)
    ensures OnlyDelaysExit(cfg) <==> ExitSafe(cfg)
  {
    if ExitSafe(cfg) {
      forall es
        ensures History(Unsmoothed(cfg), es).suppressed ==> History(cfg, es).suppressed
      {
        ShadowsAlways(cfg, es);
      }
    } else {
      HastyResume(cfg);
    }
  }

  // ------------------------------------------------------------- pool agreement

  /** A new pool given the controller's own thresholds. */
  function MatchedPool(cfg: Settings): Shape.PoolState {
    Shape.RunnableGuard(
      Shape.PauseBand(Shape.FRESH, Finite(cfg.suppressThreshold), Finite(cfg.suppressResume)),
      Finite(cfg.runnableThreshold))
  }

  function Joint(cfg: Settings, es: seq<Event>): System {
    AdvanceAll(cfg, Launch(cfg, Driving(MatchedPool(cfg)), None), es)
  }

  /** Whenever the pool has paused its workers the controller is suppressed. */
  ghost predicate Agrees(cfg: Settings) {
    forall es :: Joint(cfg, es).cycler.Driving? && Joint(cfg, es).cycler.pool.paused ==>
      Joint(cfg, es).core.suppressed
  }

  predicate SamePool(cfg: Settings, sys: System, t: Core) {
    && sys.cycler.Driving?
    && var p, m := sys.cycler.pool, MatchedPool(cfg);
      && p.pause == m.pause && p.resume == m.resume && p.guard == m.guard
      && (p.paused ==> t.suppressed)
  }

  /** The pause flag follows raw samples: it is set only when the unsmoothed controller is
      suppressed. */
  lemma {:induction false} PausedOnlyWhenUnsmoothed(cfg: Settings, es: seq<Event>)
    requires WellFormed(cfg)
    ensures Joint(cfg, es).core == History(cfg, es)
    ensures SamePool(cfg, Joint(cfg, es), History(Unsmoothed(cfg), es))
    decreases es
  {
    if es == [] {
    } else {
      var before := es[..|es| - 1];
      PausedOnlyWhenUnsmoothed(cfg, before);
      EveryHistory(Unsmoothed(cfg), before);
      PoolStep(cfg, Joint(cfg, before), History(Unsmoothed(cfg), before), es[|es| - 1]);
    }
  }

  lemma PoolStep(cfg: Settings, sys: System, t: Core, e: Event)
    requires WellFormed(cfg) && SamePool(cfg, sys, t) && Inv(Unsmoothed(cfg), t)
    ensures SamePool(cfg, Advance(cfg, sys, e), Next(Unsmoothed(cfg), t, e))
  {
    var retarget := Shape.SetTarget(Finite(Next(cfg, sys.core, e).target));
    var first := if e.Obs? then Shape.ObserveLoad(Finite(Load(e)), Finite(Runnables(e))) else retarget;
    CyclerApplyShort(sys.cycler, first, retarget);
  }

  /** Pool and controller agree on every run exactly for the exit-safe configurations. */
  lemma AgreesIff(cfg: Settings)
    requires WellFormed(cfg)
    ensures Agrees(cfg) <==> ExitSafe(cfg)
  {
    if ExitSafe(cfg) {
      forall es | Joint(cfg, es).cycler.Driving? && Joint(cfg, es).cycler.pool.paused
        ensures Joint(cfg, es).core.suppressed
      {
        PausedOnlyWhenUnsmoothed(cfg, es);
        ShadowsAlways(cfg, es);
      }
    } else {
      HastyResume(cfg);
      HastyPause(cfg);
      PausedOnlyWhenUnsmoothed(cfg, HastyTrace(cfg));
    }
  }

  lemma HastyPause(cfg: Settings)
    requires WellFormed(cfg) && !ExitSafe(cfg)
    ensures var sys := Joint(cfg, HastyTrace(cfg)); sys.cycler.Driving? && sys.cycler.pool.paused
  {
    var es := HastyTrace(cfg);
    PausedOnlyWhenUnsmoothed(cfg, es[..1]);
    PausedOnlyWhenUnsmoothed(cfg, es);
    assert es[..1][..0] == [] && es[..|es| - 1] == es[..1];
    FlagAfter(cfg, Joint(cfg, []), es[0]);
    FlagAfter(cfg, Joint(cfg, es[..1]), es[1]);
  }

  /** One observation's effect on the pause flag. */
  lemma FlagAfter(cfg: Settings, sys: System, e: Event)
    requires sys.cycler.Driving? && e.Obs?
    ensures var c := Advance(cfg, sys, e).cycler;
      && c.Driving?
      && c.pool.paused ==
         Shape.Apply(sys.cycler.pool, Shape.ObserveLoad(Finite(Load(e)), Finite(Runnables(e)))).paused
  {
    var retarget := Shape.SetTarget(Finite(Next(cfg, sys.core, e).target));
    CyclerApplyShort(sys.cycler, Shape.ObserveLoad(Finite(Load(e)), Finite(Runnables(e))), retarget);
  }

  /** The pool's flag is the unsmoothed suppression flag itself. */
  ghost predicate SameFlag(cfg: Settings) {
    forall es :: Joint(cfg, es).cycler.Driving? &&
      (Joint(cfg, es).cycler.pool.paused <==> History(Unsmoothed(cfg), es).suppressed)
  }

  lemma FlagStep(cfg: Settings, sys: System, t: Core, e: Event)
    requires WellFormed(cfg) && SamePool(cfg, sys, t) && Inv(Unsmoothed(cfg), t)
    requires cfg.runnableThreshold == 0.0 && sys.cycler.pool.paused == t.suppressed
    ensures var c := Advance(cfg, sys, e).cycler;
      c.Driving? && c.pool.paused == Next(Unsmoothed(cfg), t, e).suppressed
  {
    var retarget := Shape.SetTarget(Finite(Next(cfg, sys.core, e).target));
    var first := if e.Obs? then Shape.ObserveLoad(Finite(Load(e)), Finite(Runnables(e))) else retarget;
    CyclerApplyShort(sys.cycler, first, retarget);
  }

  lemma {:induction false} FlagFollows(cfg: Settings, es: seq<Event>)
    requires WellFormed(cfg) && cfg.runnableThreshold == 0.0
    ensures var c := Joint(cfg, es).cycler;
      c.Driving? && c.pool.paused == History(Unsmoothed(cfg), es).suppressed
    decreases es
  {
    if es == [] {
    } else {
      var before := es[..|es| - 1];
      FlagFollows(cfg, before);
      PausedOnlyWhenUnsmoothed(cfg, before);
      EveryHistory(Unsmoothed(cfg), before);
      FlagStep(cfg, Joint(cfg, before), History(Unsmoothed(cfg), before), es[|es| - 1]);
    }
  }

  /** A runnable overload, then a runnable count between the resume level and the threshold: the
      pool resumes on its utilisation alone, the controller waits. */
  function LingeringTrace(cfg: Settings): seq<Event> {
    [Obs(0.0, Finite(cfg.runnableThreshold))]
    + [Obs(0.0, Finite((cfg.runnableThreshold + cfg.runnableResume) / 2.0))]
  }

  lemma Lingers(cfg: Settings)
    requires WellFormed(cfg) && 0.0 < cfg.runnableThreshold
    ensures History(Unsmoothed(cfg), LingeringTrace(cfg)).suppressed
    ensures var c := Joint(cfg, LingeringTrace(cfg)).cycler; c.Driving? && !c.pool.paused
  {
    var es := LingeringTrace(cfg);
    assert [] + [es[0]] == [es[0]] && es == [es[0]] + [es[1]] && es[..|es| - 1] == [es[0]];
    RunFromSnoc(Unsmoothed(cfg), Init(cfg), [], es[0]);
    RunFromSnoc(Unsmoothed(cfg), Init(cfg), [es[0]], es[1]);
    PausedOnlyWhenUnsmoothed(cfg, [es[0]]);
    FlagAfter(cfg, Joint(cfg, [es[0]]), es[1]);
  }

  /** The two flags coincide on every run exactly when the runnable band is off. */
  lemma SameFlagIff(cfg: Settings)
    requires WellFormed(cfg)
    ensures SameFlag(cfg) <==> cfg.runnableThreshold == 0.0
  {
    if cfg.runnableThreshold == 0.0 {
      forall es
        ensures Joint(cfg, es).cycler.Driving? &&
          (Joint(cfg, es).cycler.pool.paused <==> History(Unsmoothed(cfg), es).suppressed)
      {
        FlagFollows(cfg, es);
      }
    } else {
      Lingers(cfg);
    }
  }
}
