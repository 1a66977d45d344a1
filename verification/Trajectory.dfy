/** Where the slow loop takes the desired target over many steps, whatever the fast loop does in
    between. Both directions are climbs of one ladder; the falling one is upside down. */
module Trajectory {
  import opened Numeric
  import opened Config
  import opened Control
  import opened Invariant
  import opened Ladder

  function StepCount(es: seq<Event>): nat
    decreases es
  {
    if es == [] then 0 else StepCount(es[..|es| - 1]) + (if IsStep(es[|es| - 1]) then 1 else 0)
  }

  /** Every step succeeds below (above) the goal band; observations are arbitrary. */
  predicate LowSteps(cfg: Settings, es: seq<Event>) {
    forall i :: 0 <= i < |es| && IsStep(es[i]) ==> es[i].StepOk? && es[i].p95 < cfg.goalLow
  }

  predicate HighSteps(cfg: Settings, es: seq<Event>) {
    forall i :: 0 <= i < |es| && IsStep(es[i]) ==> es[i].StepOk? && cfg.goalHigh < es[i].p95
  }

  predicate CalmSteps(cfg: Settings, es: seq<Event>) {
    forall i :: 0 <= i < |es| && IsStep(es[i]) ==>
      es[i].StepOk? && cfg.goalLow <= es[i].p95 <= cfg.goalHigh
  }

  function Rising(cfg: Settings): Ladder {
    Ladder(cfg.targetStart, cfg.stepUp, cfg.targetMax)
  }

  function Falling(cfg: Settings): Ladder {
    Ladder(-cfg.targetStart, cfg.stepDown, -cfg.targetMin)
  }

  /** `k` steps up from `d`, capped. */
  function Risen(cfg: Settings, d: real, k: nat): real {
    Min(cfg.targetMax, d + Times(k, cfg.stepUp))
  }

  /** `k` steps down from `d`, floored. */
  function Fallen(cfg: Settings, d: real, k: nat): real {
    Max(cfg.targetMin, d - Times(k, cfg.stepDown))
  }

  /** The next desired target depends on the current one and the sample only. */
  lemma DesiredStep(cfg: Settings, s: Core, e: Event)
    requires WellFormed(cfg) && Inv(cfg, s)
    ensures Next(cfg, s, e).desired ==
      match e
      case StepOk(p95, _) => Stepped(cfg, s.desired, p95)
      case StepErr(_) => cfg.fallbackTarget
      case _ => s.desired
  {
  }

  /** A run of low steps climbs the rising ladder, one rung a step. */
  lemma {:induction false} LowStepsClimb(cfg: Settings, s: Core, es: seq<Event>)
    requires WellFormed(cfg) && Inv(cfg, s) && LowSteps(cfg, es)
    ensures RunFrom(cfg, s, es).desired == Climb(Rising(cfg), s.desired, StepCount(es))
    decreases es
  {
    if es == [] {
    } else {
      var before, e := es[..|es| - 1], es[|es| - 1];
      assert forall i :: 0 <= i < |before| ==> before[i] == es[i];
      LowStepsClimb(cfg, s, before);
      RunKeepsInv(cfg, s, before);
      DesiredStep(cfg, RunFrom(cfg, s, before), e);
    }
  }

  /** A run of high steps climbs the falling ladder. */
  lemma {:induction false} HighStepsClimb(cfg: Settings, s: Core, es: seq<Event>)
    requires WellFormed(cfg) && Inv(cfg, s) && HighSteps(cfg, es)
    ensures RunFrom(cfg, s, es).desired == -Climb(Falling(cfg), -s.desired, StepCount(es))
    decreases es
  {
    if es == [] {
    } else {
      var before, e := es[..|es| - 1], es[|es| - 1];
      assert forall i :: 0 <= i < |before| ==> before[i] == es[i];
      HighStepsClimb(cfg, s, before);
      RunKeepsInv(cfg, s, before);
      DesiredStep(cfg, RunFrom(cfg, s, before), e);
    }
  }

  /** Some run of low (high) steps has any given length. */
  lemma {:induction false} StepsOfLength(p95: real, n: nat) returns (es: seq<Event>)
    ensures StepCount(es) == n && |es| == n
    ensures forall i :: 0 <= i < n ==> es[i] == StepOk(p95, 0)
  {
    if n == 0 {
      es := [];
    } else {
      var before := StepsOfLength(p95, n - 1);
      es := before + [StepOk(p95, 0)];
      assert es[..|es| - 1] == before;
    }
  }

  // ---------------------------------------------------------------- the straight laws

  /** From state `s` every run of low steps raises the desired target by exactly one step each. */
  ghost predicate RisesStraight(cfg: Settings, s: Core) {
    forall es :: LowSteps(cfg, es) ==>
      RunFrom(cfg, s, es).desired == Risen(cfg, s.desired, StepCount(es))
  }

  ghost predicate FallsStraight(cfg: Settings, s: Core) {
    forall es :: HighSteps(cfg, es) ==>
      RunFrom(cfg, s, es).desired == Fallen(cfg, s.desired, StepCount(es))
  }

  /** `k` low steps raise the desired target by `k * stepUp`, capped, unless one of them starts from
      zero where a restart shows. */
  lemma Rises(cfg: Settings, s: Core, es: seq<Event>)
    requires WellFormed(cfg) && Inv(cfg, s) && LowSteps(cfg, es)
    requires RestartInvisible(Rising(cfg))
      || Clear(cfg.stepUp, s.desired, StepCount(es))
    ensures RunFrom(cfg, s, es).desired == Risen(cfg, s.desired, StepCount(es))
  {
    LowStepsClimb(cfg, s, es);
    ClimbIsStraight(Rising(cfg), s.desired, StepCount(es));
  }

  lemma Falls(cfg: Settings, s: Core, es: seq<Event>)
    requires WellFormed(cfg) && Inv(cfg, s) && HighSteps(cfg, es)
    requires RestartInvisible(Falling(cfg))
      || Clear(cfg.stepDown, -s.desired, StepCount(es))
    ensures RunFrom(cfg, s, es).desired == Fallen(cfg, s.desired, StepCount(es))
  {
    HighStepsClimb(cfg, s, es);
    ClimbIsStraight(Falling(cfg), -s.desired, StepCount(es));
  }

  /** The rising law holds from a state exactly when whole steps from its desired target never hit
      zero, or a restart cannot be told from a step. */
  lemma RisesStraightIff(cfg: Settings, s: Core)
    requires WellFormed(cfg) && Inv(cfg, s)
    ensures RisesStraight(cfg, s) <==>
      RestartInvisible(Rising(cfg)) || !MeetsZero(cfg.stepUp, s.desired)
  {
    var l, d := Rising(cfg), s.desired;
    StraightIff(l, d);
    if forall n: nat :: Climb(l, d, n) == Straight(l, d, n) {
      forall es | LowSteps(cfg, es)
        ensures RunFrom(cfg, s, es).desired == Risen(cfg, d, StepCount(es))
      {
        LowStepsClimb(cfg, s, es);
      }
    } else {
      var n: nat :| Climb(l, d, n) != Straight(l, d, n);
      var es := StepsOfLength(cfg.goalLow - 1.0, n);
      LowStepsClimb(cfg, s, es);
      assert RunFrom(cfg, s, es).desired != Risen(cfg, d, StepCount(es));
    }
  }

  lemma FallsStraightIff(cfg: Settings, s: Core)
    requires WellFormed(cfg) && Inv(cfg, s)
    ensures FallsStraight(cfg, s) <==>
      RestartInvisible(Falling(cfg)) || !MeetsZero(cfg.stepDown, -s.desired)
  {
    var l, d := Falling(cfg), -s.desired;
    StraightIff(l, d);
    if forall n: nat :: Climb(l, d, n) == Straight(l, d, n) {
      forall es | HighSteps(cfg, es)
        ensures RunFrom(cfg, s, es).desired == Fallen(cfg, s.desired, StepCount(es))
      {
        HighStepsClimb(cfg, s, es);
        assert Climb(l, d, StepCount(es)) == Straight(l, d, StepCount(es));
      }
    } else {
      var n: nat :| Climb(l, d, n) != Straight(l, d, n);
      var es := StepsOfLength(cfg.goalHigh + 1.0, n);
      HighStepsClimb(cfg, s, es);
      assert RunFrom(cfg, s, es).desired != Fallen(cfg, s.desired, StepCount(es));
    }
  }

  /** Both laws fail at reachable states: one high step takes the accepted configuration to zero; a
      low step from there, and a second high step, restart instead. */
  lemma StraightLawsFail()
    ensures WellFormed(ZERO_IN_BAND) && ValidateConfig(ZERO_IN_BAND) == None
    ensures !RisesStraight(ZERO_IN_BAND, History(ZERO_IN_BAND, [StepOk(1.0, 0)]))
    ensures !FallsStraight(ZERO_IN_BAND, History(ZERO_IN_BAND, []))
  {
    var cfg, high := ZERO_IN_BAND, StepOk(1.0, 0);
    ZeroInBandLosesDesired();
    EveryHistory(cfg, [high]);
    EveryHistory(cfg, []);
    RunFromSnoc(cfg, Init(cfg), [], high);
    assert [] + [high] == [high];
    var s := History(cfg, [high]);
    assert s.desired == 0.0;
    assert Hits(s.desired, 0, cfg.stepUp);
    RisesStraightIff(cfg, s);
    assert Hits(-Init(cfg).desired, 1, cfg.stepDown) by {
      assert Times(1, cfg.stepDown) == cfg.stepDown;
    }
    FallsStraightIff(cfg, Init(cfg));
  }

  // ------------------------------------------------------------------ reaching the bounds

  /** From `n` steps on, low steps leave the desired target at its upper bound. */
  ghost predicate AtMaxAfter(cfg: Settings, s: Core, n: nat) {
    forall es :: LowSteps(cfg, es) && n <= StepCount(es) ==> RunFrom(cfg, s, es).desired == cfg.targetMax
  }

  ghost predicate AtMinAfter(cfg: Settings, s: Core, n: nat) {
    forall es :: HighSteps(cfg, es) && n <= StepCount(es) ==> RunFrom(cfg, s, es).desired == cfg.targetMin
  }

  /** Whole steps from the desired target hit zero, and so do whole steps from the start: every
      restart leads to the next one. */
  ghost predicate RestartsUp(cfg: Settings, d: real) {
    0.0 < cfg.targetMax && MeetsZero(cfg.stepUp, d) && MeetsZero(cfg.stepUp, cfg.targetStart)
  }

  ghost predicate RestartsDown(cfg: Settings, d: real) {
    cfg.targetMin < 0.0 && MeetsZero(cfg.stepDown, -d) && MeetsZero(cfg.stepDown, -cfg.targetStart)
  }

  /** Low steps bring every state to the upper bound for good, unless they restart for ever. */
  lemma ReachesMaxIff(cfg: Settings, s: Core)
    requires WellFormed(cfg) && Inv(cfg, s)
    ensures (exists n: nat :: AtMaxAfter(cfg, s, n)) <==> !RestartsUp(cfg, s.desired)
  {
    var l, d := Rising(cfg), s.desired;
    SettlesIff(l, d);
    forall n: nat
      ensures AtMaxAfter(cfg, s, n) <==> SettlesBy(l, d, n)
    {
      forall es | LowSteps(cfg, es)
        ensures RunFrom(cfg, s, es).desired == Climb(l, d, StepCount(es))
      {
        LowStepsClimb(cfg, s, es);
      }
      forall m: nat | n <= m && AtMaxAfter(cfg, s, n)
        ensures Climb(l, d, m) == l.top
      {
        var es := StepsOfLength(cfg.goalLow - 1.0, m);
        assert LowSteps(cfg, es);
      }
    }
  }

  lemma ReachesMinIff(cfg: Settings, s: Core)
    requires WellFormed(cfg) && Inv(cfg, s)
    ensures (exists n: nat :: AtMinAfter(cfg, s, n)) <==> !RestartsDown(cfg, s.desired)
  {
    var l, d := Falling(cfg), -s.desired;
    SettlesIff(l, d);
    forall n: nat
      ensures AtMinAfter(cfg, s, n) <==> SettlesBy(l, d, n)
    {
      forall es | HighSteps(cfg, es)
        ensures RunFrom(cfg, s, es).desired == -Climb(l, d, StepCount(es))
      {
        HighStepsClimb(cfg, s, es);
      }
      forall m: nat | n <= m && AtMinAfter(cfg, s, n)
        ensures Climb(l, d, m) == l.top
      {
        var es := StepsOfLength(cfg.goalHigh + 1.0, m);
        assert HighSteps(cfg, es);
      }
    }
  }

  /** How soon: within one width of the band when no restart shows, and within two otherwise. */
  lemma ReachesMax(cfg: Settings, s: Core, es: seq<Event>)
    requires WellFormed(cfg) && Inv(cfg, s) && LowSteps(cfg, es) && !RestartsUp(cfg, s.desired)
    requires var width, n := cfg.targetMax - cfg.targetMin, StepCount(es);
      (if RestartInvisible(Rising(cfg)) || Clear(cfg.stepUp, s.desired, n) then width else 2.0 * width)
      <= Times(n, cfg.stepUp)
    ensures RunFrom(cfg, s, es).desired == cfg.targetMax
  {
    LowStepsClimb(cfg, s, es);
    ReachesTop(Rising(cfg), s.desired, StepCount(es), cfg.targetMax - cfg.targetMin);
  }

  lemma ReachesMin(cfg: Settings, s: Core, es: seq<Event>)
    requires WellFormed(cfg) && Inv(cfg, s) && HighSteps(cfg, es) && !RestartsDown(cfg, s.desired)
    requires var width, n := cfg.targetMax - cfg.targetMin, StepCount(es);
      (if RestartInvisible(Falling(cfg)) || Clear(cfg.stepDown, -s.desired, n) then width else 2.0 * width)
      <= Times(n, cfg.stepDown)
    ensures RunFrom(cfg, s, es).desired == cfg.targetMin
  {
    HighStepsClimb(cfg, s, es);
    ReachesTop(Falling(cfg), -s.desired, StepCount(es), cfg.targetMax - cfg.targetMin);
  }

  /** A restarting run of low steps never gets above zero; one of high steps never below. */
  lemma RestartsForEver(cfg: Settings, s: Core, es: seq<Event>)
    requires WellFormed(cfg) && Inv(cfg, s)
    ensures LowSteps(cfg, es) && RestartsUp(cfg, s.desired) ==> RunFrom(cfg, s, es).desired <= 0.0
    ensures HighSteps(cfg, es) && RestartsDown(cfg, s.desired) ==> 0.0 <= RunFrom(cfg, s, es).desired
  {
    if LowSteps(cfg, es) && RestartsUp(cfg, s.desired) {
      LowStepsClimb(cfg, s, es);
      CycleTraps(Rising(cfg), s.desired, StepCount(es));
    }
    if HighSteps(cfg, es) && RestartsDown(cfg, s.desired) {
      HighStepsClimb(cfg, s, es);
      CycleTraps(Falling(cfg), -s.desired, StepCount(es));
    }
  }

  const STUCK_LOW := DEFAULTS.(targetMin := -0.02, targetStart := -0.01, fallbackTarget := -0.01)
  const STUCK_HIGH := DEFAULTS.(targetMin := -0.01, targetStart := 0.01, fallbackTarget := 0.01,
                                stepDown := 0.01)

  /** Two accepted configurations that restart for ever from their very first state. */
  lemma RestartingConfigurations(es: seq<Event>)
    ensures ValidateConfig(STUCK_LOW) == None && WellFormed(STUCK_LOW)
    ensures ValidateConfig(STUCK_HIGH) == None && WellFormed(STUCK_HIGH)
    ensures LowSteps(STUCK_LOW, es) ==> History(STUCK_LOW, es).desired <= 0.0
    ensures HighSteps(STUCK_HIGH, es) ==> 0.0 <= History(STUCK_HIGH, es).desired
  {
    TargetTable(STUCK_LOW);
    SuppressionTable(STUCK_LOW);
    TargetTable(STUCK_HIGH);
    SuppressionTable(STUCK_HIGH);
    EveryHistory(STUCK_LOW, []);
    EveryHistory(STUCK_HIGH, []);
    assert Hits(STUCK_LOW.targetStart, 1, STUCK_LOW.stepUp);
    assert Hits(-STUCK_HIGH.targetStart, 1, STUCK_HIGH.stepDown);
    RestartsForEver(STUCK_LOW, Init(STUCK_LOW), es);
    RestartsForEver(STUCK_HIGH, Init(STUCK_HIGH), es);
  }

  // --------------------------------------------------------------- staying and resetting

  /** Samples inside the goal band leave the target alone, however many there are; the first of them
      turns an unset one into the start. */
  lemma {:induction false} CalmHolds(cfg: Settings, s: Core, es: seq<Event>)
    requires WellFormed(cfg) && Inv(cfg, s) && CalmSteps(cfg, es)
    ensures RunFrom(cfg, s, es).desired ==
      if s.desired == 0.0 && 0 < StepCount(es) then cfg.targetStart else s.desired
    decreases es
  {
    if es == [] {
    } else {
      var before, e := es[..|es| - 1], es[|es| - 1];
      assert forall i :: 0 <= i < |before| ==> before[i] == es[i];
      CalmHolds(cfg, s, before);
      RunKeepsInv(cfg, s, before);
      DesiredStep(cfg, RunFrom(cfg, s, before), e);
    }
  }

  /** A failed query forgets the trajectory: whatever went before, and whatever observations
      follow, the desired target is exactly the fallback. */
  lemma {:induction false} FailureResets(cfg: Settings, es: seq<Event>, error: Error, tail: seq<Event>)
    requires WellFormed(cfg) && StepCount(tail) == 0
    ensures History(cfg, es + [StepErr(error)] + tail).desired == cfg.fallbackTarget
    decreases tail
  {
    EveryHistory(cfg, es);
    if tail == [] {
      assert es + [StepErr(error)] + tail == es + [StepErr(error)];
      RunFromSnoc(cfg, Init(cfg), es, StepErr(error));
    } else {
      var before, e := tail[..|tail| - 1], tail[|tail| - 1];
      FailureResets(cfg, es, error, before);
      assert es + [StepErr(error)] + tail == es + [StepErr(error)] + before + [e];
      RunFromSnoc(cfg, Init(cfg), es + [StepErr(error)] + before, e);
    }
  }
}
