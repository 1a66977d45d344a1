# OCI CPU Shaper: a verified model of the adaptive controller

The shaper keeps a VM's CPU use inside a band. A slow loop asks the monitoring service for the
trailing P95 and moves a duty target up or down; a fast loop watches host load and suppresses the
shaper while the host is busy. Both loops write one record under one lock, and drive a pool of
workers that read the pool's cells without that lock. This project models the controller, the pool
and its workers, the configuration pipeline, the jiffy sampler, the percentile query and the
coverage-profile merge, and proves properties of every run.

`dafny verify dfyconfig.toml` verifies everything.

| file | what it holds |
|---|---|
| `Numeric.dfy` | clamping, non-finite numbers, options and results |
| `Config.dfy` | coercion and validation of the controller's configuration |
| `Pool.dfy` | the pool object and its cells on values |
| `Control.dfy` | the controller as a transition system: `Next`, `Writes`, `History`, gauges |
| `Controller.dfy` | the controller, recorder and duty-cycler objects, method by method |
| `Ladder.dfy` | equal steps towards a cap, with a restart at zero: the mathematics of the slow loop's target |
| `Invariant.dfy`, `Memory.dfy`, `Loops.dfy`, `Drift.dfy`, `Streak.dfy`, `Resume.dfy`, `Smoothing.dfy`, `Trajectory.dfy` | theorems about all runs of the controller |
| `Workers.dfy`, `Machine.dfy` | workers, and every interleaving of workers, stores and locked sections |
| `Wiring.dfy` | building pool and controller together, and running them |
| `Sampler.dfy`, `Percentile.dfy`, `Coverage.dfy` | the three smaller algorithms |

The objects are proved against `Control.Advance`: each method's contract gives the whole new record,
the pool (or dry-run cell) and the gauges. The theorems then speak of `Control.History`, the record
after any sequence of the four events (query succeeded or failed, observation good or failed).
A configuration is `Config.WellFormed` exactly when a controller can be built with it, so
`WellFormed` is the only standing hypothesis of the run theorems.

The definitions those objects and theorems share are in turn tied to plain statements about inputs:
modes by their constructors, samples by their published values, stores by the raw number stored,
replies and snapshot attempts one by one, blocks by the source positions they cover, percentiles and
cpu fields by whole numbers and places.

## Facts about the code worth knowing

* The two loops never interfere in `desired`, `slowState`, the P95, the errors, the suppression flag
  and the load averages, with no hypothesis on the target band. The target itself differs from
  `desired` in exactly one case: suppression was lifted while `desired` was zero, which reads zero as
  "unset" (`pkg/adapt/suppression.go:62`), and no step has followed. Validation accepts bands around
  zero.
* The same reading makes the slow loop restart (`pkg/adapt/controller_step.go:69-71`), and it can do
  so for ever: when both the desired target and `targetStart` are whole steps short of zero, low
  samples climb to zero, restart, and never reach the upper bound. `Trajectory.STUCK_LOW` and
  `STUCK_HIGH` are accepted configurations that do this from their first state. In every other case
  the bound is reached, after at most two widths of the band in steps.
* Smoothing cannot delay entry. It can hasten the exit: after a runnable overload on a nearly idle
  CPU the smoothed load starts low. It only ever delays the exit exactly when smoothing is off, a
  band is off, or the resume level is zero. The same condition decides whether the pool's own pause
  flag always implies suppression.
* With a zero resume level, smoothing on and the runnable band off, a suppressed controller never
  resumes. Validation accepts this.
* The constructor's comment lists two causes that reset the relaxed counter; the code also resets it
  on every suppression transition and on steps taken while suppressed. The model follows the code.
* The failure path zeroes the counter without exporting it. The exported counter is wrong exactly
  from a failed query that discarded a positive count until the next successful one or suppression
  transition.

## Model

| member | source | states |
|---|---|---|
| Config.CoerceConfig | pkg/adapt/config_normalize.go:20-77 | the in-sequence rewriting of the fields equals one simultaneous definition of every field |
| Config.CoercionRepairs | pkg/adapt/config_normalize.go:20-87 | every coerced field in plain numbers: the mode by constructor, each default by value, the threshold brought into the unit interval, and a resume level at or above its threshold replaced by four fifths of it |
| Config.FirstFaultIsNamed | pkg/adapt/config_validate.go:17-44 | the check names the first fault in one fixed order of all twenty-seven, each defined directly on the fields, and passes exactly when there is none |
| Config.FileCheckNamesFirst | pkg/adapt/config_validate.go:6-15 | the file check names a runnable fault of the raw input first, and then the first fault of the coerced one |
| Config.CoercionFixes | pkg/adapt/config_normalize.go:20-77 | coercion leaves a configuration alone if and only if every field where zero means unset is set, the mode is a coerced one, the intervals are positive and both bands are ordered and in range |
| Config.CoercionIdempotent | pkg/adapt/config_normalize.go:20-77 | coercing twice is coercing once |
| Config.CoercedFixesExactlyWellFormed | pkg/adapt/config_validate.go:17-44 | a configuration is unchanged by coercion and passes every check if and only if it is well formed |
| Config.BuildableIffWellFormed | pkg/adapt/config_normalize.go:9-18 | the configurations some raw input normalises to are exactly the well-formed ones: ordered bands, resume below threshold, targetMax below the threshold, positive intervals |
| Config.ValidatedIsBuildable | pkg/adapt/config_validate.go:6-15 | the file check accepts exactly when the raw runnable band is fine and the constructor accepts, for any mode and resource |
| Config.FileCheckIsStricter | pkg/adapt/config_validate.go:6-10 | a negative runnable threshold that the constructor repairs and the file check rejects |
| Config.TargetTable | pkg/adapt/config_validate.go:46-78 | the table of bounds passes exactly when start, fallback and both goals lie in the target band |
| Config.FirstOutsideExact | pkg/adapt/config_validate.go:56-75 | the loop over a table finds nothing exactly when every value is in range |
| Config.FirstNotBelowExact | pkg/adapt/config_validate.go:173-193 | the loop finds nothing exactly when every value is below both enabled levels |
| Config.SuppressionTable | pkg/adapt/config_validate.go:160-196 | given the target bounds, the six-field table amounts to targetMax being below the enabled levels |
| Shape.Pool.constructor | pkg/shape/pool.go:65-107 | a new pool has target zero, no band, is not paused, and its quantum is the nearest one between one and five milliseconds |
| Shape.NewPool | pkg/shape/pool.go:65-68 | fails exactly when the worker count is not positive |
| Shape.Pool.SetTarget | pkg/shape/pool.go:127-139 | stores the target clamped to the unit interval, NaN as zero, and nothing else |
| Shape.Pool.SetPauseThresholds | pkg/shape/pause.go:5-36 | stores a band inside the unit interval with resume at most pause; a zero pause level clears the flag |
| Shape.Pool.SetRunnableGuard | pkg/shape/pause.go:38-44 | stores the guard; NaN, infinite and negative values disable it |
| Shape.Pool.ObserveHostLoad | pkg/shape/pause.go:46-79 | sets the flag to the observation's verdict, or leaves it when there is none |
| Shape.PausedByLatestVerdict | pkg/shape/pause.go:46-79 | the flag is the verdict of the latest observation that had one |
| Shape.PausedIff | pkg/shape/pause.go:46-79 | in terms of raw values, after any stores the pool is paused exactly when a finite observation reached the guard or the pause level, or it was paused, and no later finite one fell to the resume level |
| Shape.TargetIsLatest | pkg/shape/pool.go:127-139 | after any stores the target is the latest one given, brought into the unit interval, with NaN as zero and infinities at the ends |
| Shape.UndecidedKeeps | pkg/shape/pause.go:75-78 | observations inside the band never move the flag |
| Shape.ApplyAllFrame | pkg/shape/pool.go:28-32 | every sequence of stores keeps all cells in range and each kind of store its own cell |
| Adapt.NewModeAwareDutyCycler | pkg/adapt/dutycycler_wrapper.go:11-26 | exactly the modes dry-run and noop get a fresh cell holding the pool's target; blank, normal, enforce and every other label get the pool itself |
| Adapt.RecordingDutyCycler.SetTarget | pkg/adapt/dutycycler_wrapper.go:28-36 | the dry-run cell remembers the target |
| Adapt.DutyCycler.ObserveHostLoad | pkg/adapt/dutycycler_wrapper.go:49-55 | the pool decides its flag; the dry-run cell ignores host load |
| Adapt.NewAdaptiveController | pkg/adapt/controller_ctor.go:60-106 | the errors in their order, leaving pool and recorder alone; on success a well-formed configuration, the initial record and gauges, and for dry-run and noop an untouched pool, for every other mode the pool driven |
| Adapt.AdaptiveController.constructor | pkg/adapt/controller_ctor.go:82-103 | the initial record and what is pushed to the cycler and the recorder |
| Adapt.AdaptiveController.Step | pkg/adapt/controller_step.go:8-19 | a step is one transition of the whole system, returns its interval, and leaves state normal without error, or fallback with the error, unless suppressed |
| Adapt.AdaptiveController.HandleStepErrorLocked | pkg/adapt/controller_step.go:21-46 | the failure path's whole new state, counter gauge included: fallback with the error, the old P95 kept |
| Adapt.AdaptiveController.HandleStepSuccessLocked | pkg/adapt/controller_step.go:48-95 | the success path's whole new state and returned interval: normal, no error, the new P95 |
| Adapt.AdaptiveController.NextIntervalLocked | pkg/adapt/controller_step.go:97-122 | the counter, its gauge and the interval |
| Adapt.AdaptiveController.HandleObservation | pkg/adapt/controller_observation.go:9-46 | an observation is one transition of the whole system, on the error, disabled and normal paths |
| Adapt.AdaptiveController.HandleGuardedSuppressionLocked | pkg/adapt/controller_observation.go:69-77 | suppresses at target zero when guarded, and does nothing otherwise |
| Adapt.AdaptiveController.HandleSuppressionTransitionLocked | pkg/adapt/controller_observation.go:79-88 | flag, counter reset, target and state of a transition |
| Adapt.AdaptiveController.UpdateHostLoadLocked | pkg/adapt/suppression.go:3-11 | the smoothed load, with its three bypasses |
| Adapt.AdaptiveController.TransitionSuppressionLocked | pkg/adapt/suppression.go:13-26 | the new flag and the returned previous one |
| Adapt.AdaptiveController.ApplySuppressionTargetsLocked | pkg/adapt/suppression.go:56-69 | zero while suppressed, the restored target on resume, nothing otherwise |
| Adapt.AdaptiveController.ApplyTargetLocked | pkg/adapt/controller_state.go:69-76 | record, cycler and gauge get the same target |
| Adapt.AdaptiveController.UpdateEffectiveStateLocked | pkg/adapt/controller_state.go:78-92 | state and its gauge follow the flag and the slow state |
| Adapt.AdaptiveController.ResetRelaxedSuccessesLocked | pkg/adapt/controller_state.go:61-67 | counter and its gauge become zero |
| Adapt.AdaptiveController.RunLoop | pkg/adapt/controller_loop.go:15-76 | over any interleaved script the system is the run of all its events, and the ticker's period equals the recorded interval and is positive, so the non-positive fallback is never taken |
| Adapt.LatestInterval | pkg/adapt/controller_loop.go:15-76 | the period is that of the latest step, whatever was observed since |
| Adapt.CoreOfAdvanceAll | pkg/adapt/controller_ctor.go:34-55 | the record's run does not depend on the cycler or the recorder |
| Wiring.BuildAdaptiveController | cmd/shaper/controller_helpers.go:86-112 | the pool's error before the controller's, each with its exact condition; on success the pool holds the given workers, band and guard, the controller answers for the given instance and mode, and drives the pool unless the mode is dry-run or noop |
| Wiring.BuildAndRun | cmd/shaper/bootstrap_controller.go:31-52 | after any script the record is the enforcing one in every mode; in dry-run and noop the pool object is exactly as configured, at target zero, and in every other mode it is the run's own |
| Wiring.HistoryIgnoresMode | pkg/adapt/dutycycler_wrapper.go:11-26 | the record after any history does not depend on the mode |
| Invariant.SmoothedBetween | pkg/adapt/suppression.go:3-11 | the smoothed load lies between the old load and the sample |
| Invariant.NextKeepsInv | pkg/adapt/controller_step.go:21-95 | every locked section keeps the master invariant |
| Invariant.RunKeepsInv | pkg/adapt/controller_step.go:21-95 | every run from any state satisfying the invariant keeps it |
| Invariant.EveryHistory | pkg/adapt/controller_ctor.go:82-103 | every history: desired in the band, suppressed means target and counter zero and not cool, unsuppressed means below the thresholds, state agrees with flag; with zero outside the band, suppressed exactly when the target is zero and otherwise target equals desired |
| Invariant.ResumeRestoresDesiredIff | pkg/adapt/suppression.go:60-67 | on resume the target equals desired exactly when desired is not zero |
| Invariant.ZeroInBandLosesDesired | pkg/adapt/suppression.go:61-64 | an accepted configuration and a history after which an unsuppressed target is not the desired one |
| Invariant.EverySystemMirrors | pkg/adapt/controller_state.go:69-92 | in every run the cycler's target is the (clamped) record target, and state, target, error and P95 gauges are exact |
| Invariant.AdvanceMirrors | pkg/adapt/controller_state.go:69-92 | every locked section keeps that agreement |
| Invariant.FailureLeavesGauge | pkg/adapt/controller_step.go:31-36 | after a failed query the counter gauge is right exactly when it showed zero |
| Drift.CounterLagsIff | pkg/adapt/controller_step.go:21-46 | after any history the exported counter differs from the true one if and only if some failed query found a positive counter and neither a successful step nor a suppression transition has followed; it then differs from zero |
| Drift.CounterLags | pkg/adapt/controller_step.go:31-36 | under every configuration one high sample and one failed query leave the counter at zero and its gauge at one |
| Drift.TargetExactly | pkg/adapt/suppression.go:56-69 | the target after every history of every configuration: zero while suppressed, targetStart if some resume found desired zero and no step has followed, desired otherwise |
| Drift.TargetDriftsIff | pkg/adapt/suppression.go:60-67 | an unsuppressed target differs from desired if and only if some resume found desired zero and no step has followed |
| Memory.LatestStep | pkg/adapt/controller_step.go:21-62 | whatever came before and whatever was observed since, slow state and error are those of the latest step: normal without error, or fallback with that error and the fallback target; the visible state is suppressed exactly when the flag is set, and the slow state otherwise |
| Memory.LatestP95 | pkg/adapt/controller_step.go:58-62 | the P95 is that of the latest successful step, whatever failed or was observed since |
| Memory.BeforeAnyStep | pkg/adapt/controller_ctor.go:82-95 | until the first step: fallback at the fallback target, no error, no P95 |
| Memory.LatestObservation | pkg/adapt/controller_observation.go:13-20 | the estimator error is that of the latest observation, none after a good one, whatever steps since |
| Memory.BeforeAnySample | pkg/adapt/controller_ctor.go:82-95 | until the first sample nothing is suppressed and both averages are zero |
| Memory.LatestSample | pkg/adapt/suppression.go:3-11 | after any history the load is the clamped sample itself when the old load was zero, on an overload or without smoothing, and otherwise n times its movement is the old distance; the runnable count is the sample's own when finite and positive, and zero otherwise |
| Memory.LatestExports | pkg/adapt/controller_step.go:86-95 | the exported interval, fetch time and host CPU are those of the latest step, successful step and sample |
| Memory.FirstExports | pkg/adapt/controller_ctor.go:97-103 | before those, what the constructor exported or was there already |
| Loops.SamplesAtFaceValue | pkg/adapt/controller_observation.go:22-23 | clamping and normalising never change whether a sample is an overload or cool |
| Loops.ErrorsInvisible | pkg/adapt/controller_observation.go:13-18 | erasing all failed observations leaves the record of any run unchanged but for the remembered error |
| Loops.SlowAlone | pkg/adapt/controller_step.go:64-84 | erasing all observations leaves the slow loop's view of any run unchanged |
| Loops.FastAlone | pkg/adapt/suppression.go:3-26 | erasing all steps leaves the fast loop's view of any run unchanged |
| Loops.TwoLoopsDecompose | pkg/adapt/controller_observation.go:9-46 | any interleaving is the pair of its two lone runs, from which state and target are assembled |
| Loops.SmoothedEntryNeverFires | pkg/adapt/suppression.go:19-20 | in a reachable unsuppressed state an unguarded sample never brings the smoothed load to a threshold |
| Loops.EntryIsMemoryless | pkg/adapt/controller_observation.go:25-51 | after any history an unsuppressed controller is suppressed by an observation exactly when its published utilisation or finite runnable count reaches an enabled threshold, and such a sample suppresses in any state |
| Loops.ExitExactly | pkg/adapt/suppression.go:28-54 | after any history a suppressed controller stays so exactly on an overload or while the smoothed load or the published runnable count is above its resume level |
| Loops.UnsmoothedSuppression | pkg/adapt/suppression.go:13-54 | without smoothing, suppressed exactly when some sample reached a threshold and none since was cool |
| Loops.StaySynchronised | pkg/adapt/controller_observation.go:79-88 | records that agree on the fast view and the counter agree after any common continuation |
| Loops.OverloadSynchronises | pkg/adapt/controller_observation.go:43-45 | one overload sample makes any two pasts agree on the fast view and the counter for ever |
| Loops.ThreeEventsForgetEverything | pkg/adapt/controller_step.go:21-95 | an overload, a failure and a success make the records of any two pasts equal for ever |
| Streak.Since | pkg/adapt/controller_observation.go:82-84 | the position just after the latest event that ends a streak |
| Streak.CurrentGrows | pkg/adapt/controller_step.go:97-122 | one more event empties, extends or keeps the current streak |
| Streak.CounterIsStreak | pkg/adapt/controller_step.go:97-122 | the counter is the number of counted steps since the latest cut, after every history |
| Streak.IntervalFollowsStreak | pkg/adapt/controller_step.go:104-111 | a step returns the relaxed interval exactly when the streak it completes reaches the confirmations |
| Resume.CoolSample | pkg/adapt/suppression.go:36-46 | a cool sample that does not resume brings the smoothed load closer by the margin |
| Resume.StillSuppressed | pkg/adapt/suppression.go:3-11 | while suppressed, the distance has shrunk by the margin times the samples seen |
| Resume.ResumesWithinBound | pkg/adapt/suppression.go:36-54 | samples cool by d resume the controller once there are n*(h0-resume)/d of them, with steps and failures interleaved |
| Resume.CourseInClosedForm | pkg/adapt/suppression.go:10 | under a constant sample the load is u + (1-1/n)^k * (h0-u) |
| Resume.CourseKeepsSide | pkg/adapt/suppression.go:3-11 | a load on the constant sample's side of the resume level stays on it |
| Resume.ConstantLoad | pkg/adapt/suppression.go:3-11 | from any state, under equal unguarded samples the load follows the recurrence |
| Resume.ConstantSample | pkg/adapt/suppression.go:13-54 | from any invariant state the flag survives k equal unguarded samples exactly when it was set and the runnables are hot or the load is above the resume level after the first and after the last |
| Resume.ConstantSampleInClosedForm | pkg/adapt/suppression.go:3-54 | with cool runnables the load after k samples u is u + (1-1/n)^k * (h0-u), and suppression lasts exactly while that exceeds the resume level |
| Resume.RecoverableIff | pkg/adapt/suppression.go:36-54 | every history can be continued to a resume exactly when the configuration is not a zero-resume smoothed one without a runnable band |
| Resume.Trapped | pkg/adapt/suppression.go:10 | under such a configuration no sequence of events ever resumes |
| Resume.TrapAccepted | pkg/adapt/config_validate.go:160-196 | validation accepts such a configuration |
| Smoothing.ShadowsAlways | pkg/adapt/suppression.go:3-26 | for exit-safe configurations the smoothed run is suppressed whenever the unsmoothed one is |
| Smoothing.HastyResume | pkg/adapt/suppression.go:3-11 | for every other configuration a two-sample history resumes the smoothed controller early |
| Smoothing.OnlyDelaysExitIff | pkg/adapt/suppression.go:3-54 | smoothing only delays the exit if and only if the configuration is exit-safe |
| Smoothing.PausedOnlyWhenUnsmoothed | pkg/shape/pause.go:46-79 | a pool with the controller's thresholds is paused only when the unsmoothed controller is suppressed |
| Smoothing.AgreesIff | pkg/adapt/controller_observation.go:31-45 | the pool being paused implies suppression in every run if and only if the configuration is exit-safe |
| Smoothing.FlagFollows | pkg/shape/pause.go:46-79 | without a runnable band the pool's flag is the unsmoothed suppression flag after every history |
| Smoothing.SameFlagIff | pkg/shape/pause.go:56-78 | the two flags coincide on every run if and only if the runnable band is off |
| Ladder.StraightIff | pkg/adapt/controller_step.go:69-81 | a climb is the capped straight line for ever if and only if a restart cannot be told from a step or whole steps from its start never hit zero |
| Ladder.SettlesIff | pkg/adapt/controller_step.go:69-81 | a climb comes to its cap and stays if and only if it does not run from restart to restart |
| Trajectory.LowStepsClimb | pkg/adapt/controller_step.go:64-84 | any run of low steps, whatever is interleaved, moves desired one rung a step up the ladder |
| Trajectory.HighStepsClimb | pkg/adapt/controller_step.go:64-84 | any run of high steps moves desired one rung a step down |
| Trajectory.Rises | pkg/adapt/controller_step.go:69-81 | k low steps raise desired by k*stepUp, capped, unless one of them starts from zero where a restart shows |
| Trajectory.Falls | pkg/adapt/controller_step.go:69-81 | k high steps lower it by k*stepDown, floored, with the same exception |
| Trajectory.RisesStraightIff | pkg/adapt/controller_step.go:69-81 | from each invariant state, the rising law holds for all runs if and only if a restart is invisible or whole steps from desired never hit zero |
| Trajectory.FallsStraightIff | pkg/adapt/controller_step.go:69-81 | the same for the falling law |
| Trajectory.StraightLawsFail | pkg/adapt/controller_step.go:69-71 | an accepted configuration for which each law fails from a reachable state |
| Trajectory.ReachesMaxIff | pkg/adapt/controller_step.go:69-81 | from each invariant state, enough low steps bring desired to targetMax for good if and only if restarts do not lead to restarts |
| Trajectory.ReachesMinIff | pkg/adapt/controller_step.go:69-81 | the same for high steps and targetMin |
| Trajectory.ReachesMax | pkg/adapt/controller_step.go:69-81 | how soon: after one width of the band in steps when no restart shows, after two otherwise |
| Trajectory.ReachesMin | pkg/adapt/controller_step.go:69-81 | the same for the lower bound |
| Trajectory.RestartsForEver | pkg/adapt/controller_step.go:69-71 | in the excluded case low steps never get above zero, and high steps never below |
| Trajectory.RestartingConfigurations | pkg/adapt/config_validate.go:46-78 | two accepted configurations stuck in this way from their first state |
| Trajectory.CalmHolds | pkg/adapt/controller_step.go:69-81 | samples inside the goal band leave desired alone, except that the first turns zero into targetStart |
| Trajectory.FailureResets | pkg/adapt/controller_step.go:29-36 | after any past, a failed query sets desired to the fallback, and observations do not change it |
| Workers.DutyWithinANanosecond | pkg/shape/worker.go:38-42 | the busy time is within the quantum and less than a nanosecond short of the target's share |
| Workers.StepKeepsLedger | pkg/shape/worker.go:30-54 | each atomic step keeps busy, idle and paused time adding up to whole quanta |
| Workers.TickReadsTwice | pkg/shape/worker.go:30-54 | while other goroutines store between its steps, a tick is decided by the pause flag at its start and the target read after it, and by nothing stored later |
| Workers.WorkerLoop.Tick | pkg/shape/worker.go:30-56 | the loop body is the composition of the atomic steps |
| Workers.WorkerLoop.Ticks | pkg/shape/worker.go:26-58 | n undisturbed ticks book n quanta, all of it sleep when paused and n times the busy share otherwise |
| Machine.ScheduleKeepsOk | pkg/shape/worker.go:26-58 | every interleaving keeps the joint invariant of record, stores under way, cells and ledgers |
| Machine.EveryScheduleAccounts | pkg/shape/worker.go:30-54 | under every schedule each ledger balances, no segment exceeds the ceiling min(1, targetMax) of the quantum, and a quiescent pool shows the record's target |
| Machine.ScheduleRefinesRun | pkg/adapt/controller_state.go:69-76 | every schedule's record, and pool once pending stores land, are those of the atomic run; workers are invisible |
| Machine.QuenchedStep | pkg/shape/worker.go:38-46 | once the zero target is stored, no step of a suppressed machine creates new busy time |
| Machine.StaleReads | pkg/shape/worker.go:38-46 | while suppression lasts a worker begins exactly the busy segment it had already loaded |
| Machine.SuppressionIsPrompt | pkg/adapt/suppression.go:58-59 | from a completed suppression to the resume each worker begins at most one segment and all begin at most workers times quantum of busy time |
| Machine.StaleSegmentHappens | pkg/shape/worker.go:38-46 | the bound is attained: for every configuration with a threshold, a schedule after whose completed suppression a worker still begins the segment it had loaded |
| Machine.DryRunIsFaithful | pkg/adapt/dutycycler_wrapper.go:11-55 | in the modes dry-run and noop no schedule touches the pool or makes a worker busy, and the record is the enforcing one |
| Sampler.SamplerObject.Run | pkg/est/sampler.go:121-155 | a second start and a failed first snapshot each publish exactly one observation carrying that error and no measurement; otherwise every later attempt is reported as what it was |
| Sampler.SampleLoop | pkg/est/sampler.go:157-199 | one observation per attempt: a failure carries its error and no measurement, a good snapshot no error, measured against the last good one |
| Sampler.AttemptByAttempt | pkg/est/sampler.go:166-270 | each failure reaches the controller as that failed observation; each good snapshot is measured from the latest good one: counters that went backwards count as not moved, the rest of the movement is busy |
| Sampler.FailuresInvisible | pkg/est/sampler.go:171-176 | after any history, a script and its good attempts alone leave the same record, flag, load and target included, but for the remembered error |
| Sampler.TotalsConservedIff | pkg/est/sampler.go:166-184 | with any mix of failures the totals sum to the counter's movement exactly when it never went backwards, and never to less |
| Sampler.BusyConserved | pkg/est/sampler.go:253-268 | the busy jiffies sum to that movement minus the idle movement |
| Sampler.RatioIsExact | pkg/est/sampler.go:264-268 | utilisation is in [0,1] and equals busy over total; runnables are per CPU |
| Sampler.NothingClamped | pkg/adapt/controller_observation.go:22-23 | the controller's normalisation changes nothing the sampler publishes |
| Sampler.ParseCPULine | pkg/est/sampler.go:328-360 | succeeds exactly for labelled lines of at least four numeric fields, with the idle sum of the fourth and fifth and the total of all, modulo 2^64; each error otherwise, naming the first bad field |
| Sampler.FieldAdded | pkg/est/sampler.go:349-356 | one more field under 64-bit wrap-around |
| Sampler.LinesToBusyTime | pkg/est/sampler.go:338-359 | non-decreasing lines without overflow give busy time equal to the movement of all fields less that of the fourth and fifth |
| Percentile.SortedOrders | pkg/oci/query.go:148 | the sort orders and permutes |
| Percentile.PercentileOf | pkg/oci/query.go:147-158 | sorts in place and returns the nearest-rank value |
| Percentile.NearestRankExact | pkg/oci/query.go:147-158 | a value is the result exactly when it is a sample, 95 in 100 of all samples are at or below it, and fewer than 95 in 100 are below it, in whole numbers |
| Percentile.AppendMetricValues | pkg/oci/query.go:124-145 | appends exactly the datapoints with both parts, in order, and the latest time |
| Percentile.CollectLatestDatapoint | pkg/oci/query.go:93-122 | the outcome of the conversation: the answer of all samples up to the first terminal page, or the first error |
| Percentile.QueryP95CPU | pkg/oci/query.go:30-55 | the errors in their order, a failed reply's among them, and the answer |
| Percentile.FailureIsReturned | pkg/oci/query.go:101-105 | if the first reply that is not a page with a token is a failure, the outcome is that error, whatever the pages before it held |
| Percentile.LastPageAnswers | pkg/oci/query.go:101-121 | if it is a page with an absent or blank token, the outcome is the answer over the usable datapoints of the pages up to it |
| Percentile.UsableExactly | pkg/oci/query.go:129-135 | the samples are the datapoints with both parts, each as often as it was served |
| Percentile.AnswerExactly | pkg/oci/query.go:115-121 | no answer for no samples, and otherwise the 95th percentile of the values and the latest time |
| Percentile.LatestIsMaximum | pkg/oci/query.go:137-140 | the time is the maximum of the zero time and the samples' |
| Percentile.AnswerOfBag | pkg/oci/query.go:93-158 | the answer depends only on the bag of usable samples |
| Percentile.PagingIsInvisible | pkg/oci/query.go:101-113 | how streams are split over pages does not matter |
| Percentile.SplitsAreInvisible | pkg/oci/query.go:93-158 | two conversations with the same bag of usable datapoints, however split over pages and streams and ordered, get the same answer |
| Coverage.FirstMet | hack/tools/mergecov/main.go:73-90 | the first block that is the same or overlaps |
| Coverage.AppendBlocks | hack/tools/mergecov/main.go:69-98 | the nested loops compute the block-by-block merge; blocks that share no position are all kept, unchanged and in order |
| Coverage.OverlapIffShared | hack/tools/mergecov/main.go:105-121 | non-empty blocks overlap exactly when some line and column lies in both half-open spans |
| Coverage.MergeByPositions | hack/tools/mergecov/main.go:69-98 | a block sharing no position with the profile is appended unchanged; otherwise only the count of the first block it shares one with changes, to the sum for equal coordinates and to the larger count for others |
| Coverage.MergeConcatenates | hack/tools/mergecov/main.go:92-94 | profiles that share no position are put one after the other |
| Coverage.MergeKeeps | hack/tools/mergecov/main.go:69-98 | disjointness is kept, no count falls, no block moves, and every source block is met by a block counting at least as much |
| Coverage.OverlapsTakeMaximum | hack/tools/mergecov/main.go:81-89 | overlapping blocks that do not coincide leave the larger count, exactly the maximum of all |
| Coverage.MergeAddsPointwise | hack/tools/mergecov/main.go:74-79 | a profile over the same layout adds place by place |
| Coverage.MergeIsPointwiseSum | hack/tools/mergecov/main.go:69-119 | over one disjoint layout the merge is the pointwise sum of all profiles |
| Coverage.ProfileOrderIrrelevant | hack/tools/mergecov/main.go:69-98 | and so independent of the profiles' order |

## Left out

- IEEE rounding: floats are reals; non-finite values occur only where the code asks for them (pool inputs and runnable counts), and a NaN utilisation reaching the controller is not modelled.
- Workers.WorkerLoop.Tick: one tick with no store in between; interleaved stores are the subject of `Machine`.
- Workers: the ticker, yields, the start hook, SCHED_IDLE and the accuracy of busy waiting; a schedule gives no fairness or timing.
- Coverage.AppendBlocks: counts are natural numbers without overflow, and blocks live in a value sequence rather than a shared slice.
- Coverage: grouping by file name, the mode check, reading and printing profiles.
- Percentile.CollectLatestDatapoint: requires the scripted replies to contain a terminal one; the service could page for ever.
- Percentile.SortInPlace: stands for the standard library's sort.
- Sampler: reading and splitting the kernel's text, the runnable-count line, timestamps and channel back-pressure.
- Error values: kept as opaque strings without wrapping; validation errors name the check and field but not the formatted numbers.
- Adapt.AdaptiveController.RunLoop: contexts, goroutines and channels are replaced by one interleaved script of locked sections.
- Wiring.BuildAdaptiveController: instance, compartment and region lookup and the metrics client, whose errors come first in the source, are given; the client is never missing.
- The mode label is an enumeration of its trimmed, lower-cased form.
- HTTP, the SDK, metadata, YAML, environment and command-line handling, worker auto-sizing, logging and the metrics exporter.
