/** Controller configuration: defaulting, coercion and validation
    (pkg/adapt/config_defaults.go, config_normalize.go, config_validate.go). */
module Config {
  import opened Numeric

  /** The mode string after trimming and lower-casing. */
  datatype Mode = Blank | Normal | Enforce | DryRun | Noop | Other(name: string)

  datatype Settings = Settings(
    resourceID: string,
    mode: Mode,
    targetStart: real,
    targetMin: real,
    targetMax: real,
    stepUp: real,
    stepDown: real,
    fallbackTarget: real,
    goalLow: real,
    goalHigh: real,
    interval: int,
    relaxedInterval: int,
    relaxedThreshold: real,
    relaxedConfirmations: int,
    suppressThreshold: real,
    suppressResume: real,
    runnableThreshold: real,
    runnableResume: real,
    smoothingSamples: int)

  /** The fields whose values the checks compare. */
  datatype Field =
    TargetStart | TargetMin | TargetMax | FallbackTarget | GoalLow | GoalHigh | StepUp | StepDown

  /** The check that rejects a configuration, and the field it names. */
  datatype Violation =
    | TargetBoundsCrossed
    | OutsideTargetBounds(field: Field)
    | StepNotPositive(field: Field)
    | ConfirmationsNotPositive
    | ConfirmationsTooMany
    | SmoothingNegative
    | SmoothingTooLong
    | GoalBoundsCrossed
    | ThresholdNotAbove(field: Field)
    | ResumeNotAbove(field: Field)
    | RunnableThresholdNegative
    | RunnableResumeNegative
    | RunnableBandCrossed

  const HOUR := 3_600_000_000_000
  const RESUME_SCALE := 0.8
  const MAX_CONFIRMATIONS := 100
  const MAX_SMOOTHING := 100

  const DEFAULTS := Settings(
    "", Enforce, 0.22, 0.20, 0.32, 0.01, 0.005, 0.22, 0.21, 0.27,
    HOUR, 4 * HOUR, 0.26, 2, 0.80, 0.68, 1.20, 0.96, 5)

  function NormaliseMode(mode: Mode): Mode {
    if mode == Blank || mode == Normal then Enforce else mode
  }

  predicate EnforcesTargets(mode: Mode) {
    var normal := NormaliseMode(mode);
    normal != DryRun && normal != Noop
  }

  // ---------------------------------------------------------------- coercion

  function EnsureDuration(value: int, fallback: int): int {
    if value <= 0 then fallback else value
  }

  function EnsureReal(value: real, fallback: real): real {
    if value == 0.0 then fallback else value
  }

  function EnsureRealAllowZero(value: real, fallback: real): real {
    if value == 0.0 then 0.0 else EnsureReal(value, fallback)
  }

  function EnsureInt(value: int, fallback: int): int {
    if value == 0 then fallback else value
  }

  function EnsureIntAllowZero(value: int, fallback: int): int {
    if value == 0 then 0 else EnsureInt(value, fallback)
  }

  /** The resume level a hysteresis band ends up with, given its entry level. */
  function BandResume(threshold: real, resume: real): real {
    if threshold <= 0.0 then 0.0
    else if resume >= threshold then threshold * RESUME_SCALE
    else resume
  }

  /** What coercion makes of each field, all at once. */
  function Coerced(raw: Settings): Settings {
    var threshold := Clamp(raw.suppressThreshold, 0.0, 1.0);
    var runnable := Max(raw.runnableThreshold, 0.0);
    Settings(
      raw.resourceID,
      NormaliseMode(raw.mode),
      EnsureReal(raw.targetStart, DEFAULTS.targetStart),
      EnsureReal(raw.targetMin, DEFAULTS.targetMin),
      EnsureReal(raw.targetMax, DEFAULTS.targetMax),
      EnsureReal(raw.stepUp, DEFAULTS.stepUp),
      EnsureReal(raw.stepDown, DEFAULTS.stepDown),
      EnsureReal(raw.fallbackTarget, DEFAULTS.fallbackTarget),
      EnsureReal(raw.goalLow, DEFAULTS.goalLow),
      EnsureReal(raw.goalHigh, DEFAULTS.goalHigh),
      EnsureDuration(raw.interval, DEFAULTS.interval),
      EnsureDuration(raw.relaxedInterval, DEFAULTS.relaxedInterval),
      EnsureReal(raw.relaxedThreshold, DEFAULTS.relaxedThreshold),
      EnsureInt(raw.relaxedConfirmations, DEFAULTS.relaxedConfirmations),
      threshold,
      BandResume(threshold, Clamp(raw.suppressResume, 0.0, 1.0)),
      runnable,
      BandResume(runnable, Max(raw.runnableResume, 0.0)),
      raw.smoothingSamples)
  }

  /** Rewrites the fields of its by-value argument one after another. */
  method CoerceConfig(raw: Settings) returns (cfg: Settings, mode: Mode)
    ensures cfg == Coerced(raw)
    ensures mode == cfg.mode
  {
    cfg := raw;
    cfg := cfg.(interval := EnsureDuration(cfg.interval, DEFAULTS.interval));
    cfg := cfg.(relaxedInterval := EnsureDuration(cfg.relaxedInterval, DEFAULTS.relaxedInterval));
    cfg := cfg.(targetStart := EnsureReal(cfg.targetStart, DEFAULTS.targetStart));
    cfg := cfg.(targetMin := EnsureReal(cfg.targetMin, DEFAULTS.targetMin));
    cfg := cfg.(targetMax := EnsureReal(cfg.targetMax, DEFAULTS.targetMax));
    cfg := cfg.(stepUp := EnsureReal(cfg.stepUp, DEFAULTS.stepUp));
    cfg := cfg.(stepDown := EnsureReal(cfg.stepDown, DEFAULTS.stepDown));
    cfg := cfg.(fallbackTarget := EnsureReal(cfg.fallbackTarget, DEFAULTS.fallbackTarget));
    cfg := cfg.(goalLow := EnsureReal(cfg.goalLow, DEFAULTS.goalLow));
    cfg := cfg.(goalHigh := EnsureReal(cfg.goalHigh, DEFAULTS.goalHigh));
    cfg := cfg.(relaxedThreshold := EnsureReal(cfg.relaxedThreshold, DEFAULTS.relaxedThreshold));
    cfg := cfg.(relaxedConfirmations :=
      EnsureInt(cfg.relaxedConfirmations, DEFAULTS.relaxedConfirmations));
    cfg := cfg.(suppressThreshold :=
      EnsureRealAllowZero(cfg.suppressThreshold, DEFAULTS.suppressThreshold));
    cfg := cfg.(suppressResume := EnsureRealAllowZero(cfg.suppressResume, DEFAULTS.suppressResume));
    cfg := cfg.(runnableThreshold :=
      EnsureRealAllowZero(cfg.runnableThreshold, DEFAULTS.runnableThreshold));
    cfg := cfg.(runnableResume := EnsureRealAllowZero(cfg.runnableResume, DEFAULTS.runnableResume));
    cfg := cfg.(smoothingSamples :=
      EnsureIntAllowZero(cfg.smoothingSamples, DEFAULTS.smoothingSamples));

    cfg := cfg.(suppressThreshold := Clamp(cfg.suppressThreshold, 0.0, 1.0));
    cfg := cfg.(suppressResume := Clamp(cfg.suppressResume, 0.0, 1.0));
    if cfg.runnableThreshold < 0.0 {
      cfg := cfg.(runnableThreshold := 0.0);
    }
    if cfg.runnableResume < 0.0 {
      cfg := cfg.(runnableResume := 0.0);
    }

    if cfg.suppressThreshold <= 0.0 {
      cfg := cfg.(suppressResume := 0.0);
    } else if cfg.suppressResume >= cfg.suppressThreshold {
      cfg := cfg.(suppressResume := Max(cfg.suppressThreshold * RESUME_SCALE, 0.0));
    }
    if cfg.runnableThreshold <= 0.0 {
      cfg := cfg.(runnableResume := 0.0);
    } else if cfg.runnableResume >= cfg.runnableThreshold {
      cfg := cfg.(runnableResume := cfg.runnableThreshold * RESUME_SCALE);
    }

    mode := NormaliseMode(cfg.mode);
    cfg := cfg.(mode := mode);
  }

  // -------------------------------------------------------------- validation

  datatype Named = Named(field: Field, value: real)

  function FirstOutside(table: seq<Named>, lower: real, upper: real): Option<Violation> {
    if table == [] then None
    else if table[0].value < lower || table[0].value > upper then
      Some(OutsideTargetBounds(table[0].field))
    else FirstOutside(table[1..], lower, upper)
  }

  function CheckTargetBounds(cfg: Settings): Option<Violation> {
    if cfg.targetMin >= cfg.targetMax then Some(TargetBoundsCrossed)
    else
      FirstOutside(
        [Named(TargetStart, cfg.targetStart), Named(FallbackTarget, cfg.fallbackTarget),
         Named(GoalLow, cfg.goalLow), Named(GoalHigh, cfg.goalHigh)],
        cfg.targetMin, cfg.targetMax)
  }

  function CheckStepSizes(cfg: Settings): Option<Violation> {
    if cfg.stepUp <= 0.0 then Some(StepNotPositive(StepUp))
    else if cfg.stepDown <= 0.0 then Some(StepNotPositive(StepDown))
    else None
  }

  function CheckConfirmations(cfg: Settings): Option<Violation> {
    if cfg.relaxedConfirmations <= 0 then Some(ConfirmationsNotPositive)
    else if cfg.relaxedConfirmations > MAX_CONFIRMATIONS then Some(ConfirmationsTooMany)
    else None
  }

  function CheckSmoothing(cfg: Settings): Option<Violation> {
    if cfg.smoothingSamples < 0 then Some(SmoothingNegative)
    else if cfg.smoothingSamples > MAX_SMOOTHING then Some(SmoothingTooLong)
    else None
  }

  function CheckGoalBounds(cfg: Settings): Option<Violation> {
    if cfg.goalLow >= cfg.goalHigh then Some(GoalBoundsCrossed) else None
  }

  function CheckRunnable(cfg: Settings): Option<Violation> {
    if cfg.runnableThreshold < 0.0 then Some(RunnableThresholdNegative)
    else if cfg.runnableResume < 0.0 then Some(RunnableResumeNegative)
    else if cfg.runnableThreshold > 0.0 && cfg.runnableResume >= cfg.runnableThreshold then
      Some(RunnableBandCrossed)
    else None
  }

  function FirstNotBelow(table: seq<Named>, threshold: real, resume: real): Option<Violation> {
    if table == [] then None
    else if threshold > 0.0 && threshold <= table[0].value then Some(ThresholdNotAbove(table[0].field))
    else if resume > 0.0 && resume <= table[0].value then Some(ResumeNotAbove(table[0].field))
    else FirstNotBelow(table[1..], threshold, resume)
  }

  function CheckSuppression(cfg: Settings): Option<Violation> {
    var crossed := FirstNotBelow(
      [Named(TargetStart, cfg.targetStart), Named(TargetMin, cfg.targetMin),
       Named(TargetMax, cfg.targetMax), Named(FallbackTarget, cfg.fallbackTarget),
       Named(GoalLow, cfg.goalLow), Named(GoalHigh, cfg.goalHigh)],
      cfg.suppressThreshold, cfg.suppressResume);
    if crossed.Some? then crossed else CheckRunnable(cfg)
  }

  function CheckController(cfg: Settings): Option<Violation> {
    if CheckTargetBounds(cfg).Some? then CheckTargetBounds(cfg)
    else if CheckStepSizes(cfg).Some? then CheckStepSizes(cfg)
    else if CheckConfirmations(cfg).Some? then CheckConfirmations(cfg)
    else if CheckSmoothing(cfg).Some? then CheckSmoothing(cfg)
    else if CheckGoalBounds(cfg).Some? then CheckGoalBounds(cfg)
    else CheckSuppression(cfg)
  }

  /** The configuration-file check: the raw runnable band is looked at before coercion. */
  function ValidateConfig(raw: Settings): Option<Violation> {
    if CheckRunnable(raw).Some? then CheckRunnable(raw) else CheckController(Coerced(raw))
  }

  /** The constructor's check. */
  function NormalizeConfig(raw: Settings): Result<Settings, Violation> {
    var cfg := Coerced(raw);
    match CheckController(cfg)
    case Some(violation) => Err(violation)
    case None => Ok(cfg)
  }

  // ---------------------------------------------------- what a controller gets

  predicate BandOrdered(threshold: real, resume: real) {
    && 0.0 <= resume
    && 0.0 <= threshold
    && (if threshold == 0.0 then resume == 0.0 else resume < threshold)
  }

  predicate InTargetBand(cfg: Settings, value: real) {
    cfg.targetMin <= value <= cfg.targetMax
  }

  /** Everything the controller may rely on in its configuration. */
  predicate WellFormed(cfg: Settings) {
    && (cfg.mode != Blank && cfg.mode != Normal)
    && cfg.targetMin < cfg.targetMax
    && InTargetBand(cfg, cfg.targetStart)
    && InTargetBand(cfg, cfg.fallbackTarget)
    && InTargetBand(cfg, cfg.goalLow)
    && InTargetBand(cfg, cfg.goalHigh)
    && cfg.goalLow < cfg.goalHigh
    && 0.0 < cfg.stepUp && 0.0 < cfg.stepDown
    && 1 <= cfg.relaxedConfirmations <= 100
    && 0 <= cfg.smoothingSamples <= 100
    && 0 < cfg.interval && 0 < cfg.relaxedInterval
    && BandOrdered(cfg.suppressThreshold, cfg.suppressResume)
    && BandOrdered(cfg.runnableThreshold, cfg.runnableResume)
    && cfg.suppressThreshold <= 1.0
    && (0.0 < cfg.suppressThreshold ==> cfg.targetMax < cfg.suppressThreshold)
    && (0.0 < cfg.suppressResume ==> cfg.targetMax < cfg.suppressResume)
    && NonZeroFields(cfg)
  }

  /** Zero means "unset" for these fields, so no coerced configuration holds it. */
  predicate NonZeroFields(cfg: Settings) {
    && cfg.targetStart != 0.0 && cfg.targetMin != 0.0 && cfg.targetMax != 0.0
    && cfg.fallbackTarget != 0.0 && cfg.goalLow != 0.0 && cfg.goalHigh != 0.0
    && cfg.relaxedThreshold != 0.0
  }

  lemma CoercedFixesExactlyWellFormed(cfg: Settings)
    ensures WellFormed(cfg) <==> Coerced(cfg) == cfg && CheckController(cfg) == None
  {
    TargetTable(cfg);
    if CheckTargetBounds(cfg) == None {
      SuppressionTable(cfg);
    }
  }

  /** A field where zero means unset. */
  predicate Filled(raw: real, coerced: real, fallback: real) {
    coerced == if raw == 0.0 then fallback else raw
  }

  /** An interval given in nanoseconds, or that many hours. */
  predicate Timed(raw: int, coerced: int, hours: int) {
    coerced == if raw <= 0 then hours * 60 * 60 * 1_000_000_000 else raw
  }

  /** The resume level of a band: zero with the band off, otherwise as given, but not negative, when
      below the threshold, and four fifths of the threshold when not. */
  predicate Resumes(threshold: real, raw: real, coerced: real) {
    if threshold == 0.0 then coerced == 0.0
    else if threshold <= raw then 5.0 * coerced == 4.0 * threshold
    else coerced == if raw < 0.0 then 0.0 else raw
  }

  /** What coercion makes of any input, in plain numbers. */
  lemma CoercionRepairs(raw: Settings)
    ensures var cfg := Coerced(raw);
      && cfg.resourceID == raw.resourceID
      && cfg.mode == (if raw.mode.Blank? || raw.mode.Normal? then Enforce else raw.mode)
      && Filled(raw.targetStart, cfg.targetStart, 0.22)
      && Filled(raw.targetMin, cfg.targetMin, 0.20) && Filled(raw.targetMax, cfg.targetMax, 0.32)
      && Filled(raw.stepUp, cfg.stepUp, 0.01) && Filled(raw.stepDown, cfg.stepDown, 0.005)
      && Filled(raw.fallbackTarget, cfg.fallbackTarget, 0.22)
      && Filled(raw.goalLow, cfg.goalLow, 0.21) && Filled(raw.goalHigh, cfg.goalHigh, 0.27)
      && Filled(raw.relaxedThreshold, cfg.relaxedThreshold, 0.26)
      && Timed(raw.interval, cfg.interval, 1) && Timed(raw.relaxedInterval, cfg.relaxedInterval, 4)
      && cfg.relaxedConfirmations == (if raw.relaxedConfirmations == 0 then 2 else raw.relaxedConfirmations)
      && cfg.smoothingSamples == raw.smoothingSamples
      && ClosestInUnit(cfg.suppressThreshold, raw.suppressThreshold)
      && Resumes(cfg.suppressThreshold, raw.suppressResume, cfg.suppressResume)
      && cfg.runnableThreshold == (if raw.runnableThreshold < 0.0 then 0.0 else raw.runnableThreshold)
      && Resumes(cfg.runnableThreshold, raw.runnableResume, cfg.runnableResume)
  {
  }

  /** Nothing set: every field gets its default, except that suppression is off. */
  lemma UnsetMeansDefault()
    ensures
      Coerced(Settings("", Blank, 0.0, 0.0, 0.0, 0.0, 0.0, 0.0, 0.0, 0.0, 0, 0, 0.0, 0, 0.0, 0.0, 0.0, 0.0, 0))
      == DEFAULTS.(suppressThreshold := 0.0, suppressResume := 0.0,
                   runnableThreshold := 0.0, runnableResume := 0.0, smoothingSamples := 0)
  {
  }

  /** What coercion leaves alone: exactly the configurations with everything set, positive intervals
      and ordered bands. */
  lemma CoercionFixes(cfg: Settings)
    ensures Coerced(cfg) == cfg <==>
      && cfg.mode != Blank && cfg.mode != Normal
      && NonZeroFields(cfg)
      && cfg.stepUp != 0.0 && cfg.stepDown != 0.0 && cfg.relaxedConfirmations != 0
      && 0 < cfg.interval && 0 < cfg.relaxedInterval
      && BandOrdered(cfg.suppressThreshold, cfg.suppressResume) && cfg.suppressThreshold <= 1.0
      && BandOrdered(cfg.runnableThreshold, cfg.runnableResume)
  {
  }

  lemma CoercionIdempotent(raw: Settings)
    ensures Coerced(Coerced(raw)) == Coerced(raw)
  {
    var cfg := Coerced(raw);
    assert BandOrdered(cfg.suppressThreshold, cfg.suppressResume);
    assert BandOrdered(cfg.runnableThreshold, cfg.runnableResume);
  }

  /** The configurations a controller can be built with are exactly the well-formed ones. */
  lemma BuildableIffWellFormed(cfg: Settings)
    ensures (exists raw :: NormalizeConfig(raw) == Ok(cfg)) <==> WellFormed(cfg)
  {
    CoercedFixesExactlyWellFormed(cfg);
    if WellFormed(cfg) {
      assert NormalizeConfig(cfg) == Ok(cfg);
    }
    forall raw | NormalizeConfig(raw) == Ok(cfg)
      ensures WellFormed(cfg)
    {
      CoercionIdempotent(raw);
    }
  }

  /** What the file check accepts the constructor accepts, whatever mode and resource are set
      afterwards; what it rejects beyond the constructor is exactly a bad raw runnable band. */
  lemma ValidatedIsBuildable(raw: Settings, mode: Mode, resourceID: string)
    ensures ValidateConfig(raw) == None <==>
      && CheckRunnable(raw) == None
      && NormalizeConfig(raw.(mode := mode, resourceID := resourceID)).Ok?
  {
    var cfg := Coerced(raw);
    var other := Coerced(raw.(mode := mode, resourceID := resourceID));
    assert CheckTargetBounds(cfg) == CheckTargetBounds(other);
    assert CheckSuppression(cfg) == CheckSuppression(other);
  }

  /** The difference is real: coercion repairs a negative runnable threshold. */
  lemma FileCheckIsStricter()
    ensures var raw := DEFAULTS.(runnableThreshold := -1.0);
      NormalizeConfig(raw).Ok? && ValidateConfig(raw) == Some(RunnableThresholdNegative)
  {
    var cfg := Coerced(DEFAULTS.(runnableThreshold := -1.0));
    TargetTable(cfg);
    SuppressionTable(cfg);
  }

  lemma TargetTable(cfg: Settings)
    ensures CheckTargetBounds(cfg) == None <==>
      && cfg.targetMin < cfg.targetMax
      && InTargetBand(cfg, cfg.targetStart) && InTargetBand(cfg, cfg.fallbackTarget)
      && InTargetBand(cfg, cfg.goalLow) && InTargetBand(cfg, cfg.goalHigh)
  {
    var table :=
      [Named(TargetStart, cfg.targetStart), Named(FallbackTarget, cfg.fallbackTarget),
       Named(GoalLow, cfg.goalLow), Named(GoalHigh, cfg.goalHigh)];
    FirstOutsideExact(table, cfg.targetMin, cfg.targetMax);
    assert table[0].value == cfg.targetStart && table[1].value == cfg.fallbackTarget;
    assert table[2].value == cfg.goalLow && table[3].value == cfg.goalHigh;
  }

  lemma {:induction false} FirstOutsideExact(table: seq<Named>, lower: real, upper: real)
    ensures FirstOutside(table, lower, upper) == None <==>
      forall i :: 0 <= i < |table| ==> lower <= table[i].value <= upper
  {
    if table == [] {
    } else {
      FirstOutsideExact(table[1..], lower, upper);
      assert forall i :: 1 <= i < |table| ==> table[i] == table[1..][i - 1];
    }
  }

  lemma {:induction false} FirstNotBelowExact(table: seq<Named>, threshold: real, resume: real)
    ensures FirstNotBelow(table, threshold, resume) == None <==>
      forall i :: 0 <= i < |table| ==>
        && (0.0 < threshold ==> table[i].value < threshold)
        && (0.0 < resume ==> table[i].value < resume)
  {
    if table == [] {
    } else {
      FirstNotBelowExact(table[1..], threshold, resume);
      assert forall i :: 1 <= i < |table| ==> table[i] == table[1..][i - 1];
    }
  }

  lemma SuppressionTable(cfg: Settings)
    requires CheckTargetBounds(cfg) == None
    ensures CheckSuppression(cfg) == None <==>
      && (0.0 < cfg.suppressThreshold ==> cfg.targetMax < cfg.suppressThreshold)
      && (0.0 < cfg.suppressResume ==> cfg.targetMax < cfg.suppressResume)
      && CheckRunnable(cfg) == None
  {
    TargetTable(cfg);
    var table :=
      [Named(TargetStart, cfg.targetStart), Named(TargetMin, cfg.targetMin),
       Named(TargetMax, cfg.targetMax), Named(FallbackTarget, cfg.fallbackTarget),
       Named(GoalLow, cfg.goalLow), Named(GoalHigh, cfg.goalHigh)];
    FirstNotBelowExact(table, cfg.suppressThreshold, cfg.suppressResume);
    assert table[2].value == cfg.targetMax;
    assert forall i :: 0 <= i < |table| ==> table[i].value <= cfg.targetMax;
  }

  // ------------------------------------------------------------- which violation is named

  function FieldValue(cfg: Settings, field: Field): real {
    match field
    case TargetStart => cfg.targetStart
    case TargetMin => cfg.targetMin
    case TargetMax => cfg.targetMax
    case FallbackTarget => cfg.fallbackTarget
    case GoalLow => cfg.goalLow
    case GoalHigh => cfg.goalHigh
    case StepUp => cfg.stepUp
    case StepDown => cfg.stepDown
  }

  /** The configuration is at fault in the way the violation says. */
  predicate AtFault(cfg: Settings, v: Violation) {
    match v
    case TargetBoundsCrossed => cfg.targetMax <= cfg.targetMin
    case OutsideTargetBounds(field) => !InTargetBand(cfg, FieldValue(cfg, field))
    case StepNotPositive(field) => FieldValue(cfg, field) <= 0.0
    case ConfirmationsNotPositive => cfg.relaxedConfirmations <= 0
    case ConfirmationsTooMany => 100 < cfg.relaxedConfirmations
    case SmoothingNegative => cfg.smoothingSamples < 0
    case SmoothingTooLong => 100 < cfg.smoothingSamples
    case GoalBoundsCrossed => cfg.goalHigh <= cfg.goalLow
    case ThresholdNotAbove(field) => 0.0 < cfg.suppressThreshold <= FieldValue(cfg, field)
    case ResumeNotAbove(field) => 0.0 < cfg.suppressResume <= FieldValue(cfg, field)
    case RunnableThresholdNegative => cfg.runnableThreshold < 0.0
    case RunnableResumeNegative => cfg.runnableResume < 0.0
    case RunnableBandCrossed => 0.0 < cfg.runnableThreshold <= cfg.runnableResume
  }

  const BOUNDED := [TargetStart, FallbackTarget, GoalLow, GoalHigh]
  const LEVELLED := [TargetStart, TargetMin, TargetMax, FallbackTarget, GoalLow, GoalHigh]

  function OutsideOf(fields: seq<Field>): seq<Violation> {
    if fields == [] then [] else [OutsideTargetBounds(fields[0])] + OutsideOf(fields[1..])
  }

  function LevelsOf(fields: seq<Field>): seq<Violation> {
    if fields == [] then []
    else [ThresholdNotAbove(fields[0])] + ([ResumeNotAbove(fields[0])] + LevelsOf(fields[1..]))
  }

  /** All violations, in the order in which they are looked for. */
  function Order(): seq<Violation> {
    BoundFaults() + (STEP_FAULTS + CountFaults())
  }

  function BoundFaults(): seq<Violation> {
    [TargetBoundsCrossed] + OutsideOf(BOUNDED)
  }

  const STEP_FAULTS := [StepNotPositive(StepUp), StepNotPositive(StepDown)]
  const CONFIRMATION_FAULTS := [ConfirmationsNotPositive, ConfirmationsTooMany]
  const SMOOTHING_FAULTS := [SmoothingNegative, SmoothingTooLong]
  const GOAL_FAULTS := [GoalBoundsCrossed]
  const RUNNABLE_FAULTS := [RunnableThresholdNegative, RunnableResumeNegative, RunnableBandCrossed]

  /** The first violation of a list the configuration is at fault for. */
  function FirstFault(cfg: Settings, vs: seq<Violation>): Option<Violation> {
    if vs == [] then None
    else if AtFault(cfg, vs[0]) then Some(vs[0])
    else FirstFault(cfg, vs[1..])
  }

  /** The configuration is at fault for the violation in place `i`, and for none before it. */
  predicate FaultAt(cfg: Settings, vs: seq<Violation>, i: int) {
    && 0 <= i < |vs|
    && AtFault(cfg, vs[i])
    && forall j :: 0 <= j < i ==> !AtFault(cfg, vs[j])
  }

  lemma {:induction false} FirstFaultExact(cfg: Settings, vs: seq<Violation>) returns (i: nat)
    ensures i <= |vs| && forall j :: 0 <= j < i ==> !AtFault(cfg, vs[j])
    ensures FirstFault(cfg, vs) == if i == |vs| then None else Some(vs[i])
    ensures i < |vs| ==> FaultAt(cfg, vs, i)
    decreases vs
  {
    if vs == [] || AtFault(cfg, vs[0]) {
      i := 0;
    } else {
      var k := FirstFaultExact(cfg, vs[1..]);
      i := k + 1;
      assert forall j :: 1 <= j < i ==> vs[j] == vs[1..][j - 1];
    }
  }

  lemma {:induction false} FaultConcat(cfg: Settings, a: seq<Violation>, b: seq<Violation>)
    ensures FirstFault(cfg, a + b) ==
      if FirstFault(cfg, a).Some? then FirstFault(cfg, a) else FirstFault(cfg, b)
    decreases a
  {
    if a == [] {
      assert a + b == b;
    } else {
      FaultConcat(cfg, a[1..], b);
      assert (a + b)[1..] == a[1..] + b;
    }
  }

  function TableOf(cfg: Settings, fields: seq<Field>): seq<Named> {
    seq(|fields|, i requires 0 <= i < |fields| => Named(fields[i], FieldValue(cfg, fields[i])))
  }

  lemma {:induction false} OutsideFirst(cfg: Settings, fields: seq<Field>)
    ensures FirstOutside(TableOf(cfg, fields), cfg.targetMin, cfg.targetMax)
      == FirstFault(cfg, OutsideOf(fields))
    decreases fields
  {
    if fields == [] {
    } else {
      OutsideFirst(cfg, fields[1..]);
      assert TableOf(cfg, fields)[1..] == TableOf(cfg, fields[1..]);
    }
  }

  lemma {:induction false} LevelsFirst(cfg: Settings, fields: seq<Field>)
    ensures FirstNotBelow(TableOf(cfg, fields), cfg.suppressThreshold, cfg.suppressResume)
      == FirstFault(cfg, LevelsOf(fields))
    decreases fields
  {
    if fields == [] {
    } else {
      var f, rest := fields[0], LevelsOf(fields[1..]);
      LevelsFirst(cfg, fields[1..]);
      assert TableOf(cfg, fields)[1..] == TableOf(cfg, fields[1..]);
      FaultConcat(cfg, [ResumeNotAbove(f)], rest);
      FaultConcat(cfg, [ThresholdNotAbove(f)], [ResumeNotAbove(f)] + rest);
    }
  }

  lemma TwoFaults(cfg: Settings, v: Violation, w: Violation)
    ensures FirstFault(cfg, [v, w]) ==
      if AtFault(cfg, v) then Some(v) else if AtFault(cfg, w) then Some(w) else None
  {
    assert [v, w][1..] == [w] && [w][1..] == [];
    assert FirstFault(cfg, [w]) == if AtFault(cfg, w) then Some(w) else None;
  }

  lemma BoundsFirst(cfg: Settings)
    ensures CheckTargetBounds(cfg) == FirstFault(cfg, BoundFaults())
  {
    FaultConcat(cfg, [TargetBoundsCrossed], OutsideOf(BOUNDED));
    OutsideFirst(cfg, BOUNDED);
    assert TableOf(cfg, BOUNDED) ==
      [Named(TargetStart, cfg.targetStart), Named(FallbackTarget, cfg.fallbackTarget),
       Named(GoalLow, cfg.goalLow), Named(GoalHigh, cfg.goalHigh)];
  }

  lemma RunnableFirst(cfg: Settings)
    ensures CheckRunnable(cfg) == FirstFault(cfg, RUNNABLE_FAULTS)
  {
    assert RUNNABLE_FAULTS[1..] == [RunnableResumeNegative, RunnableBandCrossed];
    TwoFaults(cfg, RunnableResumeNegative, RunnableBandCrossed);
  }

  lemma SuppressionFirst(cfg: Settings)
    ensures CheckSuppression(cfg) == FirstFault(cfg, LevelsOf(LEVELLED) + RUNNABLE_FAULTS)
  {
    FaultConcat(cfg, LevelsOf(LEVELLED), RUNNABLE_FAULTS);
    RunnableFirst(cfg);
    LevelsFirst(cfg, LEVELLED);
    assert TableOf(cfg, LEVELLED) ==
      [Named(TargetStart, cfg.targetStart), Named(TargetMin, cfg.targetMin),
       Named(TargetMax, cfg.targetMax), Named(FallbackTarget, cfg.fallbackTarget),
       Named(GoalLow, cfg.goalLow), Named(GoalHigh, cfg.goalHigh)];
  }

  function LateFaults(): seq<Violation> {
    GOAL_FAULTS + (LevelsOf(LEVELLED) + RUNNABLE_FAULTS)
  }

  function CountFaults(): seq<Violation> {
    CONFIRMATION_FAULTS + (SMOOTHING_FAULTS + LateFaults())
  }

  lemma LateFirst(cfg: Settings)
    ensures FirstFault(cfg, LateFaults()) ==
      if CheckGoalBounds(cfg).Some? then CheckGoalBounds(cfg) else CheckSuppression(cfg)
  {
    FaultConcat(cfg, GOAL_FAULTS, LevelsOf(LEVELLED) + RUNNABLE_FAULTS);
    SuppressionFirst(cfg);
    assert GOAL_FAULTS[1..] == [];
  }

  lemma CountsFirst(cfg: Settings)
    ensures FirstFault(cfg, CountFaults()) ==
      if CheckConfirmations(cfg).Some? then CheckConfirmations(cfg)
      else if CheckSmoothing(cfg).Some? then CheckSmoothing(cfg)
      else FirstFault(cfg, LateFaults())
  {
    FaultConcat(cfg, SMOOTHING_FAULTS, LateFaults());
    FaultConcat(cfg, CONFIRMATION_FAULTS, SMOOTHING_FAULTS + LateFaults());
    TwoFaults(cfg, ConfirmationsNotPositive, ConfirmationsTooMany);
    TwoFaults(cfg, SmoothingNegative, SmoothingTooLong);
  }

  lemma OrderedFaults(cfg: Settings)
    ensures CheckController(cfg) == FirstFault(cfg, Order())
  {
    FaultConcat(cfg, STEP_FAULTS, CountFaults());
    FaultConcat(cfg, BoundFaults(), STEP_FAULTS + CountFaults());
    TwoFaults(cfg, StepNotPositive(StepUp), StepNotPositive(StepDown));
    BoundsFirst(cfg);
    CountsFirst(cfg);
    LateFirst(cfg);
  }

  /** The check names the first fault in the order, and passes exactly when there is none. */
  lemma FirstFaultIsNamed(cfg: Settings)
    ensures CheckController(cfg) == None <==> forall v :: v in Order() ==> !AtFault(cfg, v)
    ensures forall v :: CheckController(cfg) == Some(v) ==>
      exists i :: FaultAt(cfg, Order(), i) && Order()[i] == v
  {
    OrderedFaults(cfg);
    var i := FirstFaultExact(cfg, Order());
    if i < |Order()| {
      assert Order()[i] in Order();
    }
  }

  /** The file check looks for the runnable faults of the raw configuration first. */
  lemma FileCheckNamesFirst(raw: Settings)
    ensures ValidateConfig(raw) ==
      if FirstFault(raw, RUNNABLE_FAULTS).Some? then FirstFault(raw, RUNNABLE_FAULTS)
      else FirstFault(Coerced(raw), Order())
  {
    RunnableFirst(raw);
    OrderedFaults(Coerced(raw));
  }
}
