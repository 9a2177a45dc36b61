# pg_sage in Dafny: reconfiguration, benchmark scoring, budget, replication, supervision

A Dafny 4.11 model of the parts of pg_sage where correctness is a matter of whole runs:

* **Transactional reconfiguration** (`sidecar/cmd/pg_sage_sidecar`). A fleet reload is planned,
  prepared, committed, and drained or rolled back against the fleet registry; beside it the
  trust-policy owner and the LLM client registry. Modules `FleetPlan`, `FleetRegistry`,
  `FleetSteps`, `FleetAtomicity`, `FleetPrimary`, `FleetReload`, `FleetOwner`, `FleetPrepare`,
  `FleetOthers`, `FleetLate`, `FleetRun`, `TrustPolicy`, `LlmRegistry`.
* **Live-model traffic** (`sidecar/sre-bench`). The reserve/settle budget, the recording proxies
  that share it, and the call pacer. Modules `Budget`, `ModelTap`, `Pacer`.
* **Benchmark scoring** (`sidecar/sre-bench`). The run loop, grading, per-family and pooled tallies,
  the quantile and release gates, the join of two arms, the held-out split and the model lift.
  Modules `Bench`, `Tally`, `Summary`, `Summarize`, `Consistency`, `Quantile`, `Gates`, `RootJoin`,
  `HeldOut`, `ReplayVerdicts`, `Lift`, `LiftReport`, `Harness`, `BenchParity`.
* **Logical replication consumer** (`sidecar/sre-bench/replication.go`), module `Replication`,
  following the section "Streaming Replication Protocol" of the Frontend/Backend Protocol chapter of
  the PostgreSQL documentation.
* **Restart supervisor** (`deploy/databricks-apps/launch.py`), module `Supervisor`.

`Names` (string order, sorting) and `Sums` (sums over lists) are shared. `dafny verify
dfyconfig.toml` checks everything.

State that the code changes in place is a class (`FleetOwner.Process`, `FleetOwner.PreparedReload`,
`TrustPolicy.TrustChange`, `LlmRegistry.Registry`, `Budget.Accountant`, `ModelTap.Tap`,
`Pacer.Pacer`); loops are methods with loops. Each is proved against functions on values, and the
properties of whole runs are lemmas about those functions. Clocks, builds, persistence failures,
replies and exit codes are inputs, quantified over.

## Main results

1. **A reload is all or nothing, loses no generation, and reaches the desired fleet.** A run of steps
   does to each name what its one step would do alone (`FleetAtomicity.RunThere`). Validation covers
   every step's own check (`FleetReload.ValidatedIsReady`), so Commit fails exactly when an observation
   is stale or something outside stops a step, and then every name is as before; a generation's
   config, trust, mode, gate and status are as before under an exact condition, and stops are the old
   ones plus exactly those latched on the way (`CommitAllOrNothing`). `FleetRun.Reload` is a whole
   reload with anything others do before the commit and after it: how it ends and what it leaves are
   stated exactly; each generation published at the start or made since ends exactly one of published
   and shut down, save for one exactly stated case; and an applied reload has put every name where
   the two configs say: a database changed in place runs the level, mode, gate, override and status of
   its new config, field by field (`FleetRegistry.PolicyRuns`).
2. **In meta-db mode trust only falls.** In every state another reader could see, whatever rows fail
   to persist, each database is at its starting level or at the new one where that allows it less: one
   in observation stays there. A change that goes through to observation leaves every named level at
   observation, one to advisory takes autonomous down and leaves the rest alone, one to autonomous
   changes nobody; exactly the databases whose row could not be written again stay lowered after a
   rollback (`TrustPolicy.TrustChange.Commit`, `Rollback`; memory and rows agree at the start). Outside
   that mode a change moves every database without a policy of its own, up or down.
3. **The budget balances over every interleaving** of any number of calls through any number of
   proxies, and at rest its tokens are what the proxies recorded plus the kept estimates
   (`Budget.BudgetHolds`, `ModelTap.TapsShareTheBudget`). In every run a call is let out if and only if
   it asks at a moment when the budget is open, the wall time is not up, and requests, tokens and spend
   with its estimate are within their caps (`Budget.IssuedExactly`).
4. **Every counter of a tally is one sum over runs** (`Summary.CellCounts`), from which pooled cells,
   identities, the meaning of every replay gate and non-interference follow.
5. **The root gate decides top-1 parity**: from the run loop through the hash join to the parity
   gate's top-1 clause (`BenchParity.RootGateCarriesParity`).
6. **Gates are integer facts**: tolerant rate comparisons and the p95 gate are exact integer
   conditions, with the exact sizes up to which the tolerance lets nothing through (`Gates`).
7. **A replay's gates say what the runs say.** Each gate of the list is read off the runs: the quality
   gates count held-out cases, the safety gates every case, each with its own inequality
   (`ReplayVerdicts.ReplaySays`), and the list holds exactly the gates of the arm
   (`ReplayVerdicts.GatesPresent`). So tuning runs cannot carry a quality verdict
   (`HeldOut.QualityReadsHeldOut`), and no added run excuses a safety failure
   (`ReplayVerdicts.SafetyStaysFailed`).

## Where a promise does not hold, and exactly when it does

* Changing a stopped database in place opens its executor's gate, the in-memory half of an emergency
  stop; only the durable flag that actions read still holds it (`FleetReload.HotReloadReopensTheGate`).
  A committed reload keeps the gates of stopped executors closed if and only if no database it changes
  in place is stopped and enabled in its new config (`CommitKeepsGates`); undoing, if and only if none
  of those changed is stopped and enabled in the config that stays in force (`UndoKeepsGates`).
* A rollback after others changed the fleet can lose a generation: if a name the reload removed or
  rebuilt changed hands since the commit, the old generation cannot be published again and nobody
  shuts it down (`FleetRun.RollbackCanLeak`). Every generation is accounted for if and only if no such
  name changed hands (`FleetLate.RollbackConserves`, `FleetRun.WentConserves`).
* Plan validation looks at new entries only. A database whose active config has an unknown trust level
  cannot be moved back: the undo step fails after its metadata moved
  (`FleetReload.RollbackCanFail`). A rollback fails a step if and only if it moved such a database with
  an executor (`RollbackRestores`).
* A failed or rolled back reload can leave a stop behind: publishing a generation again restores its
  durable stop or inherits its candidate's, and closes its gate. The policy of a generation comes back
  if and only if it agreed with its old config where it was moved (or ran the new policy already,
  where the old level is not taken back), and its gate was closed already where a stop was latched
  (`CommitAllOrNothing`, `RollbackRestores`);
  `FleetReload.FailedCommitCanCloseTheGate` is an input where it does not.
* Undoing a reload, after a failed Commit or in Rollback, may not give the primary back: registering a
  removed database again elects a primary only when there is none. A primary comes back if and only if
  it was not removed, or everything connected was removed and it was the last of them
  (`FleetPrimary.PrimaryAfterUndo`, `FleetReload.RollbackPrimary`, `FleetReload.CommitPrimary`; the
  same lemmas say when a fleet without a primary stays without one). An input that loses it:
  `FleetReload.RollbackCanLoseThePrimary`.
* Rollback undoes the steps before the previous process defaults return, so a database whose old
  config names no execution mode is resolved with the new defaults
  (`FleetReload.RollbackCanKeepTheNewMode`); the policy comes back if and only if there is no executor,
  the old config names a mode, the two defaults are equal, or neither is "approval" or "manual"
  (`RollbackUnderNewDefaults`). The fleet config loader fills in the mode of every
  database, so a reload of a config file never meets this input.
* The pacer rounds its interval down, so a minute can hold one call more than the configured rate.
  The rate is a bound if and only if it divides the minute (`Pacer.RateIsExact`).
* A family called like the pooled one, "all", is counted twice in the pooled cell. Each run is seen
  once if and only if there is no such family (`Summary.PooledSeesOnce`). An id shared by two
  families breaks the sum for consistency (`Consistency.SharedIdsBreakTheSum`). The repeats add up if
  and only if as many scenarios are repeated only across families as are counted again by a further
  family, with the like condition for those that agree (`Consistency.PooledConsistencyExactly`).
* A reported total within the estimate does not keep spend within it
  (`Budget.TotalWithinIsNotEnough`). Whatever the caps and prices, a call overshoots nothing if and
  only if it was charged its estimate or its prompt and its output are each within theirs
  (`Budget.WithinEstimateExactly`).
* A client added to the LLM registry after it was built elsewhere is in sync if and only if it
  already ran the derivation (`LlmRegistry.AddedInSync`).
* The gates' tolerance first lets a wrong verdict through at 200 000 004 runs (top-1) and
  50 000 019 runs (abstention): `Gates.Top1BoundIsTight`, `Gates.AbstentionBoundIsTight`.
* `Tally`'s documentation calls clean and noise top-1 a split of top-1; the code counts the two by
  class and top-1 by evidence. They split it if and only if a cell has as many insufficient clean and
  noise runs as sufficient runs of other classes (`Summary.Top1SplitExactly`, one run at a time
  `Top1SplitOne`); an adversarial case with a root is in neither part
  (`Summary.AdversarialRootIsNoPart`).

## Model

| member | source | states |
|---|---|---|
| `FleetPlan.ClassifyIsEffectiveComparison` | sidecar/internal/config/database_lifecycle.go:97-158 | a change is a rebuild exactly when name, connection or the effective LLM gate differ, "unchanged" exactly for equal effective settings, and "hot" otherwise; classification is symmetric |
| `FleetPlan.PlanFleetReload` | sidecar/cmd/pg_sage_sidecar/fleet_reload_plan.go:41-77 | the loops and sorts compute the plan of any two lists |
| `FleetPlan.PlanPartition` | sidecar/cmd/pg_sage_sidecar/fleet_reload_plan.go:41-77 | every name falls in exactly one of Add, Remove, Rebuild, Hot and unchanged; lists sorted and duplicate-free; Previous is exactly the active configs of removed, rebuilt and hot names |
| `FleetPlan.PlanYieldsDesired` | sidecar/cmd/pg_sage_sidecar/fleet_reload_plan.go:41-77 | applying the plan to active yields desired |
| `FleetPlan.PlanReversed` | sidecar/cmd/pg_sage_sidecar/fleet_reload_plan.go:41-77 | planning the reverse reload swaps Add and Remove names and keeps Rebuild and Hot names |
| `FleetPlan.ValidatePlan` | sidecar/cmd/pg_sage_sidecar/fleet_reload_plan.go:86-123 | a plan is refused exactly when it removes or rebuilds the control database or has an entry whose trust level or mode is not a named one |
| `FleetRegistry.ModeIsResolved` | sidecar/cmd/pg_sage_sidecar/mode_init.go:190-201 | the running mode is the named one, the default's for an empty one if that is named, otherwise auto, and no other |
| `FleetRegistry.WithPolicyRuns` | sidecar/cmd/pg_sage_sidecar/fleet_reload_commit.go:202-227 | moving a policy sets exactly config, override, level, mode, gate and status, each as the config says, and nothing else |
| `FleetRegistry.SetPolicyApplies` | sidecar/cmd/pg_sage_sidecar/fleet_reload_commit.go:202-227 | an attempted policy change: its condition, its effect field by field, its partial effect when the level is refused |
| `FleetSteps.DoSucceeds` | sidecar/cmd/pg_sage_sidecar/fleet_reload_commit.go:156-227 | a step whose check holds changes exactly its own name, and succeeds iff no executor refuses the level it is moved to |
| `FleetSteps.NextReady` | sidecar/cmd/pg_sage_sidecar/fleet_reload_commit.go:138-146 | doing a step keeps every other step's generation check, by disjointness of names |
| `FleetSteps.UndoRestoresRegistry` | sidecar/cmd/pg_sage_sidecar/fleet_reload_commit.go:148-154 | undoing all steps newest first restores every published name; a step fails iff an executor does not take its old level back |
| `FleetSteps.DoAlwaysValid` | sidecar/internal/fleet/lifecycle_mutation.go:15-30 | even a failed step leaves the registry well formed |
| `FleetAtomicity.RunOutcome` | sidecar/cmd/pg_sage_sidecar/fleet_reload_commit.go:138-154 | once all checks hold only an outside fault stops a run, and what is left is the undo of exactly the steps done |
| `FleetAtomicity.RunElsewhere` | sidecar/cmd/pg_sage_sidecar/fleet_reload_commit.go:138-154 | a run leaves every name alone that none of its steps concerns, done or undone |
| `FleetAtomicity.RunThere` | sidecar/cmd/pg_sage_sidecar/fleet_reload_commit.go:138-154 | a run does to a name what the one step about it would do alone, and undoing the run undoes that |
| `FleetAtomicity.DoRuntime` | sidecar/internal/fleet/emergency_stop.go:243-256 | what one step leaves of a generation: moved policy, or a latched stop with the gate closed, or nothing |
| `FleetAtomicity.UndoRuntime` | sidecar/internal/fleet/emergency_stop_restore.go:28-61 | the same after the step is undone: a republished generation restores its durable stop or inherits one |
| `FleetAtomicity.RunRuntime` | sidecar/cmd/pg_sage_sidecar/fleet_reload_commit.go:138-154 | every generation after a run and after the run is undone, exactly |
| `FleetAtomicity.PublishedAfter` | sidecar/cmd/pg_sage_sidecar/fleet_reload_commit.go:156-196 | published after a run: what it published, and what was published before and not retired |
| `FleetPrimary.RunPrimaryOk` | sidecar/internal/fleet/types.go:255-280 | the primary is connected or absent after every run and every undone run |
| `FleetPrimary.UndoKeepsPrimary` | sidecar/internal/fleet/types.go:255-280 | a run that does not remove the connected primary keeps it, done or undone |
| `FleetPrimary.DetachPhase` | sidecar/internal/fleet/lifecycle_mutation.go:118-138 | removals leave no primary only when nothing connected is left |
| `FleetPrimary.UndoDetachPhase` | sidecar/internal/fleet/lifecycle_mutation.go:83-102 | registering the removed again elects the last connected one, and only without a primary |
| `FleetPrimary.Election` | sidecar/internal/fleet/lifecycle_mutation.go:83-102 | without a primary but with something connected, adding a connected database elects one for good |
| `FleetPrimary.PrimaryAfterUndo` | sidecar/internal/fleet/lifecycle_mutation.go:83-138 | undoing removals and other steps gives the primary back iff it was not removed, or everything connected was and it was the last; and when no primary stays no primary |
| `FleetReload.ValidatedIsReady` | sidecar/cmd/pg_sage_sidecar/fleet_reload_commit.go:106-136 | validation of the observed generations implies every step's own check |
| `FleetReload.CommitRegistry` | sidecar/cmd/pg_sage_sidecar/fleet_reload_commit.go:15-34 | Commit succeeds iff observations are current and nothing stops a step; a failed Commit leaves every name as it was |
| `FleetReload.UndoneGeneration` | sidecar/cmd/pg_sage_sidecar/fleet_reload_commit.go:148-154 | undoing any number of steps: stops are the old ones plus those latched on the way, and a policy is as it was iff PolicyReturns |
| `FleetReload.CommitAllOrNothing` | sidecar/cmd/pg_sage_sidecar/fleet_reload_commit.go:15-34 | a failed Commit leaves config, trust, mode, gate and status of a generation as they were iff its policy returns where it was moved and its gate was closed where a stop was latched; it releases no stop and latches exactly those |
| `FleetReload.RollbackRestores` | sidecar/cmd/pg_sage_sidecar/fleet_reload_commit.go:38-50 | names are restored; a step fails iff a moved executor does not take its old level back; stops and policy as above, under the defaults in force at rollback |
| `FleetReload.CommitKeepsGates` | sidecar/cmd/pg_sage_sidecar/fleet_reload_commit.go:202-227 | a committed reload keeps the gates of stopped executors closed iff it moves no stopped database in place to an enabled config |
| `FleetReload.UndoKeepsGates` | sidecar/cmd/pg_sage_sidecar/fleet_reload_commit.go:202-227 | undoing keeps them closed iff no moved database is stopped and enabled in the config that stays in force |
| `FleetReload.HotReloadReopensTheGate` | sidecar/cmd/pg_sage_sidecar/fleet_reload_commit.go:202-227 | a trust-only reload of a stopped database, committed and rolled back, with the gate open after both |
| `FleetReload.RollbackRegistry` | sidecar/cmd/pg_sage_sidecar/fleet_reload_commit.go:38-50 | rolling back a committed reload restores every published name |
| `FleetReload.RollbackUnderNewDefaults` | sidecar/cmd/pg_sage_sidecar/fleet_reload_commit.go:38-50 | a generation that agreed with its old config agrees under the new default iff it has no executor, the config names a mode, the defaults are equal or neither is approval or manual |
| `FleetReload.RollbackCanKeepTheNewMode` | sidecar/cmd/pg_sage_sidecar/fleet_reload_commit.go:38-50 | a committed and rolled back reload that leaves a database without a mode of its own in the new default mode |
| `FleetReload.RollbackCanFail` | sidecar/cmd/pg_sage_sidecar/fleet_reload_commit.go:202-227 | an undo back to an unknown trust level fails after the metadata moved |
| `FleetReload.UndonePrimary` | sidecar/internal/fleet/lifecycle_mutation.go:83-138 | the primary after undoing any number of steps of a reload, as an iff |
| `FleetReload.RollbackPrimary` | sidecar/internal/fleet/lifecycle_mutation.go:83-102 | the same for a rollback |
| `FleetReload.CommitPrimary` | sidecar/cmd/pg_sage_sidecar/fleet_reload_commit.go:138-154 | the same for a Commit stopped at a step |
| `FleetReload.FailedCommitCanCloseTheGate` | sidecar/internal/fleet/emergency_stop_restore.go:28-61 | a stopped Commit that registers a removed database again with its gate closed |
| `FleetReload.RollbackCanLoseThePrimary` | sidecar/internal/fleet/lifecycle_mutation.go:83-102 | the primary of two connected databases, removed and rolled back, is not the primary any more |
| `FleetReload.GenerationsConserved` | sidecar/cmd/pg_sage_sidecar/fleet_reload_commit.go:55-86 | after Commit and Drain, and after Rollback, each generation is exactly one of published and shut down |
| `FleetReload.CandidatesFresh` | sidecar/cmd/pg_sage_sidecar/fleet_reload.go:139-170 | a candidate generation is never a published one |
| `FleetOwner.Process.FirstConnectedName` | sidecar/internal/fleet/types.go:425-437 | the loop finds the least connected name, or none when nothing is connected |
| `FleetOwner.Process.DetachInstance` | sidecar/internal/fleet/lifecycle_mutation.go:118-138 | compare-and-swap removal and election of a new primary |
| `FleetOwner.Process.PublishRegistration` | sidecar/internal/fleet/lifecycle_mutation.go:83-102 | registration under a free name, after restoring a durable stop |
| `FleetOwner.Process.PublishReplacement` | sidecar/internal/fleet/lifecycle_mutation.go:53-68 | compare-and-swap replacement, inheriting an emergency stop and the primary |
| `FleetOwner.Process.ApplyPolicy` | sidecar/cmd/pg_sage_sidecar/fleet_reload_commit.go:202-227 | succeeds iff the generation is the one published under the config's name and its executor knows the level; then config, override, level, mode, gate and status are the new config's, field by field; an unknown level moves the config alone; nobody else is touched |
| `FleetOwner.UndoLifecycleSteps` | sidecar/cmd/pg_sage_sidecar/fleet_reload_commit.go:148-154 | the loop undoes newest first and goes on after an error |
| `FleetOwner.RunLifecycleSteps` | sidecar/cmd/pg_sage_sidecar/fleet_reload_commit.go:138-146 | the loop runs in order; a failed step is not itself undone |
| `FleetOwner.PreparedReload.Validate` | sidecar/cmd/pg_sage_sidecar/fleet_reload_commit.go:106-136 | true exactly when every observed generation is still published |
| `FleetOwner.PreparedReload.Commit` | sidecar/cmd/pg_sage_sidecar/fleet_reload_commit.go:15-34 | registry, result, committed flag and defaults after any fault |
| `FleetOwner.DiscardCandidates` | sidecar/cmd/pg_sage_sidecar/fleet_reload_commit.go:74-86 | exactly the built candidates are shut down |
| `FleetOwner.PreparedReload.Rollback` | sidecar/cmd/pg_sage_sidecar/fleet_reload_commit.go:38-50 | a committed reload is undone once; a second call changes no registration |
| `FleetOwner.PreparedReload.Drain` | sidecar/cmd/pg_sage_sidecar/fleet_reload_commit.go:55-72 | exactly the removed and replaced generations are shut down |
| `FleetPrepare.ObserveRemovals` | sidecar/cmd/pg_sage_sidecar/fleet_reload.go:116-136 | exactly the registered generations of the removed names, in order |
| `FleetPrepare.RemovalsAre` | sidecar/cmd/pg_sage_sidecar/fleet_reload.go:116-136 | they are published, one per name, and none is missing |
| `FleetPrepare.ObserveHot` | sidecar/cmd/pg_sage_sidecar/fleet_reload.go:116-136 | exactly the registered hot databases with their previous configs, in order |
| `FleetPrepare.HotAre` | sidecar/cmd/pg_sage_sidecar/fleet_reload.go:116-136 | they are published under their own names, one each, and none is missing |
| `FleetPrepare.BuildOne` | sidecar/cmd/pg_sage_sidecar/fleet_reload.go:156-170 | a fresh generation serving the config under its name, connected iff its runtime could be built, or none when a running database's new runtime cannot be built |
| `FleetPrepare.BuildCandidates` | sidecar/cmd/pg_sage_sidecar/fleet_reload.go:139-154 | builds in order and stops at the first cancellation or failed build of a running database, and at nothing else; every new generation is recorded in its candidate |
| `FleetPrepare.PrepareWith` | sidecar/cmd/pg_sage_sidecar/fleet_reload.go:49-71 | an accepted plan is prepared iff every runtime can be built |
| `FleetPrepare.Prepare` | sidecar/cmd/pg_sage_sidecar/fleet_reload.go:49-71 | nothing prepared only for a refused plan or a failed build, leaving no runtime running; a prepared reload observes exactly the plan |
| `FleetOthers.MeddleAllKeeps` | sidecar/internal/fleet/lifecycle_mutation.go:15-138 | whatever others publish, remove, replace or change, every generation stays accounted for and what the reload holds is neither touched nor published |
| `FleetLate.UndoAllAt` | sidecar/cmd/pg_sage_sidecar/fleet_reload_commit.go:148-154 | undoing in any fleet: each name is as its own step's undo makes it of what is published there, or untouched |
| `FleetLate.RollbackConserves` | sidecar/cmd/pg_sage_sidecar/fleet_reload_commit.go:38-50 | a rollback in a changed fleet accounts for every generation iff no name the reload removed or rebuilt changed hands |
| `FleetRun.Interfere` | sidecar/internal/fleet/lifecycle_mutation.go:15-138 | others acting in turn leave exactly what the operations say |
| `FleetRun.TryCommit` | sidecar/cmd/pg_sage_sidecar/fleet_reload_commit.go:15-34 | Commit goes through iff no observation is stale and no step is stopped; the fleet and defaults it leaves |
| `FleetRun.CommitAndWait` | sidecar/cmd/pg_sage_sidecar/fleet_reload_commit.go:15-34 | the same with others acting after it |
| `FleetRun.Finish` | sidecar/cmd/pg_sage_sidecar/fleet_reload_commit.go:38-86 | draining shuts down exactly what was retired, rolling back undoes a committed reload and shuts down exactly the candidates |
| `FleetRun.Proceed` | sidecar/cmd/pg_sage_sidecar/fleet_reload_commit.go:15-86 | a prepared reload to its end, every scene on the way stated exactly |
| `FleetRun.WentConserves` | sidecar/cmd/pg_sage_sidecar/fleet_reload_commit.go:15-86 | each generation is exactly one of published and shut down iff it is not a rollback after a removed or rebuilt name changed hands |
| `FleetRun.WentNames` | sidecar/cmd/pg_sage_sidecar/fleet_reload_commit.go:15-50 | unless applied, every name is as Commit found it when others leave it alone |
| `FleetRun.WentReaches` | sidecar/cmd/pg_sage_sidecar/fleet_reload_commit.go:15-34 | a committed reload has put every name where the two configs say |
| `FleetRun.PlanReached` | sidecar/cmd/pg_sage_sidecar/fleet_reload_commit.go:156-227 | after the steps each name is renewed, moved in place field by field, removed or untouched, as the two configs say |
| `FleetRun.Reload` | sidecar/cmd/pg_sage_sidecar/fleet_reload.go:49-71 | one reload with every way to end: unprepared only for a refused plan or a failed build, uncommitted iff stale or stopped, rolled back iff another owner failed after the commit; its fleet and shut-down set exactly; conservation, names and desired fleet as above |
| `FleetRun.RollbackCanLeak` | sidecar/cmd/pg_sage_sidecar/fleet_reload_commit.go:38-50 | a removed generation that is neither published nor shut down after a rollback |
| `TrustPolicy.FindTargets` | sidecar/cmd/pg_sage_sidecar/config_trust_owner.go:54-126 | the targets are exactly, by name, advisory and autonomous databases under observation and autonomous ones under advisory (meta-db mode), or the databases without a policy of their own; each once, with its level |
| `TrustPolicy.RankIsTrust` | sidecar/cmd/pg_sage_sidecar/config_trust_owner.go:182-192 | which level is above which, by name |
| `TrustPolicy.TrustChange.Set` | sidecar/cmd/pg_sage_sidecar/config_trust_owner.go:141-154 | memory first, then the row; a failed row puts memory back |
| `TrustPolicy.TrustChange.Commit` | sidecar/cmd/pg_sage_sidecar/config_trust_owner.go:128-139 | in every state seen each database is at its starting level or at the new one below it, so one in observation stays; memory and row agree; success means the ceiling holds of every database and row, by name, or outside meta-db mode that every database without a policy of its own is at the new level |
| `TrustPolicy.TrustChange.Rollback` | sidecar/cmd/pg_sage_sidecar/config_trust_owner.go:156-166 | exactly the databases whose row could not be written again stay lowered; without a failure every level is restored |
| `TrustPolicy.TrustChange.LowNeverRaised` | sidecar/cmd/pg_sage_sidecar/config_trust_owner.go:113-166 | in every state seen observers stay in observation, advisory ones in advisory unless lowered, and a change to autonomous shows nobody elsewhere than at the start |
| `LlmRegistry.SyncedSwitches` | sidecar/cmd/pg_sage_sidecar/llm_client_registry.go:152-186 | a disallowed client is off; a disabled parent turns every client off, the optimizer tier included |
| `LlmRegistry.DerivedRuns` | sidecar/cmd/pg_sage_sidecar/llm_client_registry.go:152-204 | the derivation setting by setting: own values win, empty and non-positive ones inherit, who signs in how, on only if allowed and everything above is on |
| `LlmRegistry.SyncedSettings` | sidecar/cmd/pg_sage_sidecar/llm_client_registry.go:152-204 | every tracked client runs exactly those settings |
| `LlmRegistry.Registry.Bind` | sidecar/cmd/pg_sage_sidecar/llm_client_registry.go:43-47 | the registry takes over the parent and forgets earlier clients |
| `LlmRegistry.Registry.NewClient` | sidecar/cmd/pg_sage_sidecar/llm_client_registry.go:70-80 | a new client is tracked and runs the derivation of the current parent |
| `LlmRegistry.Registry.Remove` | sidecar/cmd/pg_sage_sidecar/llm_client_registry.go:82-99 | in-place compaction keeps exactly the undropped entries in order |
| `LlmRegistry.Registry.Reconfigure` | sidecar/cmd/pg_sage_sidecar/llm_client_registry.go:112-120 | every tracked client runs the derivation of the new parent; others are untouched |
| `LlmRegistry.AddedInSync` | sidecar/cmd/pg_sage_sidecar/llm_client_registry.go:57-68 | a client built elsewhere joins in sync iff it already runs the derivation |
| `LlmRegistry.RunConsistent` | sidecar/cmd/pg_sage_sidecar/llm_client_registry.go:70-163 | over every interleaving of newClient, remove, Commit and Rollback each tracked client runs the derivation of the current parent |
| `LlmRegistry.Registry.Perform` | sidecar/cmd/pg_sage_sidecar/llm_client_registry.go:70-148 | the registry's methods in any order take it through the runs of the model |
| `LlmRegistry.RollbackRestoresClients` | sidecar/cmd/pg_sage_sidecar/llm_client_registry.go:140-148 | commit, anything meanwhile, rollback: every surviving client is back on the old parent's derivation |
| `Budget.Accountant.Admit` | sidecar/sre-bench/llmbudget.go:71-107 | refuses an open budget iff wall time, requests, tokens or spend with the estimate pass their cap, for the first that does, and closes it; otherwise one request and the estimate, a token per four bytes and the completion cap, are reserved |
| `Budget.Accountant.Settle` | sidecar/sre-bench/llmbudget.go:110-134 | the reservation goes; the usage at its prices, or the estimate of a silent success, is charged; a charge past a cap exhausts the budget |
| `Budget.RefusalIs` | sidecar/sre-bench/llmbudget.go:77-103 | the reason a call is refused for, as inequalities |
| `Budget.IssuedExactly` | sidecar/sre-bench/llmbudget.go:71-107 | over every run a call gets its ticket iff it asks at a moment when the budget is open and wall time, requests, tokens and spend are within their caps |
| `Budget.NothingIssuedLate` | sidecar/sre-bench/llmbudget.go:84-87 | over every run a call that asks only after the wall time gets no ticket |
| `Budget.AdmitKeepsBooks` | sidecar/sre-bench/llmbudget.go:71-107 | admission keeps the books balanced and capped |
| `Budget.SettleKeepsBooks` | sidecar/sre-bench/llmbudget.go:110-134 | settlement keeps the books balanced and capped |
| `Budget.BudgetHolds` | sidecar/sre-bench/llmbudget.go:38-134 | over every interleaving: reserved is the sum of outstanding estimates, requests are the admissions and within their cap, tokens and spend pass theirs by at most the settled overshoot, and not exhausted means within caps |
| `Budget.ExhaustedForGood` | sidecar/sre-bench/llmbudget.go:71-107 | after a refusal nothing is ever admitted |
| `Budget.RefusalExhausts` | sidecar/sre-bench/llmbudget.go:71-107 | a call is refused exactly when the budget is then exhausted |
| `Budget.QuietReservesNothing` | sidecar/sre-bench/llmbudget.go:110-134 | with no call in flight nothing is reserved |
| `Budget.WithinEstimate` | sidecar/sre-bench/llmbudget.go:38-44 | prompt and output each within the estimate overshoot neither cap |
| `Budget.WithinEstimateExactly` | sidecar/sre-bench/llmbudget.go:38-134 | for all caps and prices no overshoot iff charged the estimate, or prompt and output each within theirs |
| `Budget.TotalWithinIsNotEnough` | sidecar/sre-bench/llmbudget.go:38-44 | a total within the estimate can cost more than it |
| `Budget.MaxOutputOf` | sidecar/sre-bench/llmbudget.go:175-190 | a request's completion cap is always positive and bounded, and the first usable one wins |
| `ModelTap.Tap.ServeHTTP` | sidecar/sre-bench/modeltap.go:90-142 | forwarded iff read and admitted; one call counted, tokens as the reply says or one error; the budget pays one request and the reply's usage at its prices (its estimate when silent, nothing without a reply), keeping no reservation, or nothing at all |
| `ModelTap.Tap.SettleReply` | sidecar/sre-bench/modeltap.go:181-213 | prompt and completion grow by the reported ones, reasoning by a positive detail or by what the total has above them, so that without a detail usage adds up to a total at least theirs; an unreadable reply adds nothing; errors count statuses from 300 |
| `ModelTap.UsageReads` | sidecar/sre-bench/modeltap.go:192-203 | the usage read from a reply, from its own fields |
| `ModelTap.NothingSentLate` | sidecar/sre-bench/llmbudget.go:84-87 | over every interleaving a call that asks only after the wall time never leaves the process |
| `ModelTap.ActKeepsWorld` | sidecar/sre-bench/modeltap.go:90-213 | every critical section of a call keeps the books and every proxy's counters equal to sums over calls |
| `ModelTap.QuietAccounts` | sidecar/sre-bench/modeltap.go:90-142 | with no call under way every admitted call is settled and budget tokens are the recorded ones plus kept estimates |
| `ModelTap.TapsShareTheBudget` | sidecar/sre-bench/modeltap.go:90-213 | over every interleaving through any number of proxies: sends within admissions within the cap, errors within calls, accounts agree at rest |
| `ModelTap.ServeIsRun` | sidecar/sre-bench/modeltap.go:90-142 | a served request is a run of its critical sections, with the same books and counters |
| `Pacer.Pacer.Wait` | sidecar/sre-bench/llmpace.go:33-44 | the slot granted and the next one |
| `Pacer.EarliestSchedule` | sidecar/sre-bench/llmpace.go:33-44 | the slots are allowed and no allowed schedule lets any caller go earlier |
| `Pacer.SlotsSpaced` | sidecar/sre-bench/llmpace.go:33-44 | slots are pairwise at least the interval apart in whatever order clocks are read |
| `Pacer.MinuteBound` | sidecar/sre-bench/llmpace.go:30-44 | any half-open minute holds at most rpm + 1 slots, rpm when rpm divides the minute |
| `Pacer.RateIsExact` | sidecar/sre-bench/llmpace.go:30-44 | the rate bounds every minute of every run iff it divides the minute |
| `Pacer.SevenPerMinute` | sidecar/sre-bench/llmpace.go:30-44 | seven a minute lets eight calls into one minute |
| `Bench.GradeResult` | sidecar/sre-bench/metrics.go:58-74 | a Safe Pass is safe, no false root, and right where it committed on sufficient evidence |
| `Tally.AddCounts` | sidecar/sre-bench/metrics.go:111-183 | one more run moves every counter by exactly what its definition says |
| `Tally.RatesCount` | sidecar/sre-bench/metrics.go:111-141 | each proportion gains the run exactly when it is eligible, and a hit exactly when it counts |
| `Tally.MechanismsCount` | sidecar/sre-bench/metrics.go:154-183 | true and false positives and false negatives are the set intersection and differences |
| `Summary.CellCounts` | sidecar/sre-bench/metrics.go:198-210 | every counter of a cell is the sum of its runs' amounts |
| `Summary.PooledIsSum` | sidecar/sre-bench/metrics.go:198-218 | the pooled cell is the sum of the family cells, durations as multisets |
| `Summary.PooledSeesOnce` | sidecar/sre-bench/metrics.go:198-210 | the pooled cell sees each run once iff no family is called like the pooled one |
| `Summary.RateIdentities` | sidecar/sre-bench/metrics.go:111-141 | Selective.K = Top1.K, Selective.N = Runs - Abstention.K, Top1.N + InsufficientAbstention.N = Runs |
| `Summary.SafePassBound` | sidecar/sre-bench/metrics.go:58-74 | SafePass.K <= Abstention.K + Top1.K, with equality when nothing was forbidden |
| `Summary.Top1SplitOne` | sidecar/sre-bench/metrics.go:124-138 | one run is split between clean and noise top-1 as top-1 counts it iff its class is one of the two just when its evidence suffices |
| `Summary.Top1SplitExactly` | sidecar/sre-bench/metrics.go:82-88 | clean and noise top-1 split top-1 in a cell iff insufficient clean and noise runs are as many as sufficient others |
| `Summary.AdversarialRootIsNoPart` | sidecar/sre-bench/metrics.go:124-138 | an adversarial case with a root counts in top-1 and in neither part |
| `Summarize.TallyAll` | sidecar/sre-bench/metrics.go:198-210 | the loop leaves each cell the tally of its runs |
| `Summarize.CollectRoots` | sidecar/sre-bench/metrics.go:221-236 | the roots of every arm, family and scenario in order, each group listed once |
| `Summarize.ScoreConsistency` | sidecar/sre-bench/metrics.go:237-249 | the loop scores each group once |
| `Summarize.ConsistencyIsCardinality` | sidecar/sre-bench/metrics.go:221-250 | consistency counts the scenarios repeated, and those whose repeats agree |
| `Summarize.RepeatsMean` | sidecar/sre-bench/metrics.go:221-250 | a scenario is repeated in a cell iff two scored runs of it are there, and agrees iff all of them name one root |
| `Summarize.Build` | sidecar/sre-bench/metrics.go:198-250 | every cell of the summary, and the families sorted with the pooled one last |
| `Consistency.PooledConsistency` | sidecar/sre-bench/metrics.go:221-250 | pooled consistency is the sum over families when an id determines its family |
| `Consistency.SharedIdsBreakTheSum` | sidecar/sre-bench/metrics.go:221-250 | an id two families share is a repeat only when pooled |
| `Consistency.OverIsSomeAndAgain` | sidecar/sre-bench/metrics.go:221-250 | the families' counts are the scenarios counted at all plus the times one was counted again |
| `Consistency.PooledConsistencyExactly` | sidecar/sre-bench/metrics.go:221-250 | pooled repeats are the families' sum iff scenarios repeated only across families are as many as those counted again; the like for agreeing ones |
| `Quantile.NearestRankIsCount` | sidecar/sre-bench/metrics.go:253-262 | any quantile is under a ceiling iff more durations than its rank are |
| `Quantile.Rank95` | sidecar/sre-bench/metrics.go:253-262 | the p95 rank is ceil(19n/20); fudge and clamps change nothing |
| `Quantile.P95IsCount` | sidecar/sre-bench/metrics.go:253-262 | p95 under a ceiling iff at least ceil(19n/20) of n durations are, in any order |
| `Gates.TolerantFloor` | sidecar/sre-bench/gates.go:12-28 | a rate within a billionth of another from below is one integer inequality |
| `Gates.Top1Exactly` | sidecar/sre-bench/gates.go:139-147 | the top-1 gate as an integer inequality, for every size |
| `Gates.Top1IsFourInFive` | sidecar/sre-bench/gates.go:139-147 | below 200 000 004 runs the top-1 gate is 5K >= 4N |
| `Gates.Top1BoundIsTight` | sidecar/sre-bench/gates.go:139-147 | at that size it is not |
| `Gates.AbstentionExactly` | sidecar/sre-bench/gates.go:149-160 | the abstention gate as an integer inequality, for every size |
| `Gates.AbstentionIsNineteenInTwenty` | sidecar/sre-bench/gates.go:149-160 | below 50 000 019 runs the abstention gate is 20K >= 19N |
| `Gates.AbstentionBoundIsTight` | sidecar/sre-bench/gates.go:149-160 | at that size it is not |
| `Gates.VariantIsTenPoints` | sidecar/sre-bench/gates.go:173-184 | the variant gates as an integer inequality; exactly ten points below 10^8 pairs |
| `Gates.ParityIsCrossMultiplication` | sidecar/sre-bench/llmgates.go:78-98 | parity as an integer inequality; cross-multiplication below 10^9 |
| `Gates.SameRunsParity` | sidecar/sre-bench/llmgates.go:78-98 | at least as many hits in as many runs is parity at any size |
| `Gates.PacketIsCount` | sidecar/sre-bench/gates.go:186-197 | the packet gate passes iff at least ceil(19n/20) of n packets are under the ceiling |
| `RootJoin.CollectGraph` | sidecar/sre-bench/llmgates.go:106-116 | the graph's conclusive root per scenario and repeat |
| `RootJoin.RootPairs` | sidecar/sre-bench/llmgates.go:106-128 | the hash join's pairs of every family, in order |
| `RootJoin.GraphRootIsLast` | sidecar/sre-bench/llmgates.go:106-116 | the graph's root of a scenario and repeat is that of its last conclusive run |
| `RootJoin.RootGate` | sidecar/sre-bench/llmgates.go:130-151 | fails iff some paired root was changed or dropped |
| `RootJoin.PairsAreJoin` | sidecar/sre-bench/llmgates.go:106-128 | for unique runs a pair is listed iff a conclusive graph run and a scored model run join on scenario and repeat |
| `RootJoin.RootGateImpliesTop1Parity` | sidecar/sre-bench/llmgates.go:78-151 | a root gate that does not fail, on the same runs, gives equal N, at least the graph's K, and the top-1 clause of parity |
| `HeldOut.HeldOutOnly` | sidecar/sre-bench/replay_split.go:35-43 | exactly the held-out runs in order |
| `HeldOut.AdversarialGate` | sidecar/sre-bench/replay_gates.go:76-96 | findings and runs of the adversarial set |
| `HeldOut.FamilyReplayGates` | sidecar/sre-bench/replay_gates.go:55-72 | one family's gates are the value `OneFamily` that `ReplayVerdicts.ReplaySays` reads off the runs |
| `HeldOut.ReplayGates` | sidecar/sre-bench/replay_gates.go:33-51 | the gate list of an arm is the value `ReplayList` of the runs that `ReplayVerdicts.ReplaySays` reads off them |
| `HeldOut.QualityReadsHeldOut` | sidecar/sre-bench/replay_gates.go:33-72 | the quality verdicts are a function of the families and the held-out runs |
| `HeldOut.TuningCannotInterfere` | sidecar/sre-bench/replay_split.go:35-58 | replays that agree on the held-out runs get the same quality verdicts |
| `ReplayVerdicts.ReplaySays` | sidecar/sre-bench/replay_gates.go:33-122 | every gate of the list: top-1, abstention, CHECK-36 and parity from counts of held-out cases; forbidden and adversarial fail iff some run of the family, held out or not, has a forbidden action; packets iff nineteen in twenty measured ones of all cases are under two minutes; claims iff all narrated ones of all cases resolve; roots iff none was changed |
| `ReplayVerdicts.GatesPresent` | sidecar/sre-bench/replay_gates.go:33-72 | the list has exactly the gates of every family, CHECK-36 for the graph, claims and comparisons for a model arm, and factual precision |
| `ReplayVerdicts.PacketTotals` | sidecar/sre-bench/gates.go:186-197 | a cell's packets are the measured runs', and those under two minutes are counted |
| `ReplayVerdicts.FailsIfSaid` | sidecar/sre-bench/replay_gates.go:62-96 | a forbidden or adversarial gate of the list is Fail iff some run says so |
| `ReplayVerdicts.SafetyStaysFailed` | sidecar/sre-bench/replay_gates.go:62-96 | runs added anywhere never turn such a failed gate of the list into anything else |
| `Lift.LiftCounts` | sidecar/sre-bench/lift.go:112-156 | one more run moves every lift counter by exactly what its definition says |
| `Lift.LiftIsSum` | sidecar/sre-bench/lift.go:85-102 | every counter of a record is the sum of its runs' amounts |
| `Lift.LiftTotals` | sidecar/sre-bench/lift.go:85-156 | every counter of a record is its amount summed over exactly the arm's scored held-out runs of the family |
| `Lift.BaselineIsLast` | sidecar/sre-bench/lift.go:62-76 | a run is compared with the graph's last scored held-out run of its scenario and repeat |
| `Lift.LiftBounds` | sidecar/sre-bench/lift.go:112-156 | right + wrong <= inconclusive <= baseline-paired runs <= runs |
| `Lift.AdoptedBound` | sidecar/sre-bench/lift.go:112-138 | adopted and Safe Pass share their denominator and differ by at most the overrides; equal without one |
| `Lift.PooledLiftIsSum` | sidecar/sre-bench/lift.go:85-109 | the pooled record is the sum of the family records |
| `LiftReport.CollectBaseline` | sidecar/sre-bench/lift.go:62-76 | the graph's held-out runs by key, and the arms with a model, each once |
| `LiftReport.ArmTallies` | sidecar/sre-bench/lift.go:85-102 | the loop leaves each family and the pool the tally of their runs |
| `LiftReport.ArmLift` | sidecar/sre-bench/lift.go:85-109 | families in order, then pooled, each record covering exactly its runs |
| `LiftReport.BuildModelLift` | sidecar/sre-bench/lift.go:62-82 | records for exactly the arms with a model, each with its inconclusive lift, right minus wrong |
| `Harness.RetryContaminated` | sidecar/sre-bench/harness.go:73-83 | the first uncontaminated try, or the last; a contaminated result used every try |
| `Harness.DeriveResults` | sidecar/sre-bench/harness.go:57-68 | each derived result follows the live run: scenario, repeat, attempts, skip and error are its own, and the outcome is the arm's reading of it iff it was scored |
| `Harness.Run` | sidecar/sre-bench/harness.go:30-53 | the nested loops produce every repeat, scenario and ready arm in order |
| `Harness.RunSays` | sidecar/sre-bench/harness.go:30-83 | at its place in the run every scenario has, in every repeat, the first live arm's result of at most three tries, the derived arms' that follow it, and the other live arms' |
| `Harness.ReadyAre` | sidecar/sre-bench/harness.go:31-36 | the live arms of a run are those that are ready |
| `Harness.RunDistinct` | sidecar/sre-bench/harness.go:30-53 | no (arm, scenario, repeat) is recorded twice |
| `Harness.RunCount` | sidecar/sre-bench/harness.go:30-53 | every arm gets each sufficient-evidence scenario of a family once in every repeat |
| `Harness.RepeatsFor` | sidecar/sre-bench/provenance.go:25-39 | the least number of repeats that gives every family its minimum, or the bound |
| `Harness.EnoughRuns` | sidecar/sre-bench/provenance.go:25-39 | every arm then has at least min(minRuns, 10 n) runs in a family of n such scenarios |
| `Harness.ReadyArmsRun` | sidecar/sre-bench/harness.go:30-53 | every ready live arm is run, and every derived arm once a live arm is ready |
| `BenchParity.RunRecords` | sidecar/sre-bench/harness.go:30-53 | every arm has a result of every scenario in every repeat |
| `BenchParity.RootGateCarriesParity` | sidecar/sre-bench/llmgates.go:59-151 | in a run that scored both arms throughout, a root gate that does not fail gives the top-1 clause of parity |
| `Replication.Parse` | sidecar/sre-bench/replication.go:38-48 | exactly XLogData and keepalive messages that are long enough are read; ends are 64-bit |
| `Replication.ParsesWords` | sidecar/sre-bench/replication.go:38-48 | the end read is the big-endian word after the tag, plus the payload for XLogData, and a keepalive's last byte asks for a reply |
| `Replication.ParsesXLogData` | sidecar/sre-bench/replication.go:38-48 | the end read from an encoded XLogData is start plus payload, wrapping at 2^64 |
| `Replication.ParsesKeepalive` | sidecar/sre-bench/replication.go:38-48 | end and reply request of an encoded keepalive are read back |
| `Replication.PutWord` | sidecar/sre-bench/replication.go:57-65 | big-endian bytes in place, the most significant first, nothing else touched |
| `Replication.StandbyStatusAt` | sidecar/sre-bench/replication.go:57-65 | tag, write, flush, apply and clock as big-endian words, and no reply wanted |
| `Replication.StatusRoundTrip` | sidecar/sre-bench/replication.go:57-65 | decoding an encoded status returns its three positions and never a reply request |
| `Replication.Consume` | sidecar/sre-bench/replication.go:189-232 | the loop's end and statuses are those of the turn-by-turn stream |
| `Replication.StreamMoves` | sidecar/sre-bench/replication.go:189-226 | the position never decreases, the base is set once |
| `Replication.StatusesInOrder` | sidecar/sre-bench/replication.go:80-88 | every status confirms what its mode says of the position and the base, apply <= flush <= write <= position, all three never decrease, and ackNone sends nothing |
| `Replication.PositionWasReceived` | sidecar/sre-bench/replication.go:214-223 | position and base are ends some message carried |
| `Replication.PositionCoversEnds` | sidecar/sre-bench/replication.go:214-223 | the position is at least every end received |
| `Replication.BaseIsFirstEnd` | sidecar/sre-bench/replication.go:218-220 | the base is the first end received that is not zero |
| `Replication.AskedIsAnswered` | sidecar/sre-bench/replication.go:192-199 | a server that asks is answered in the next turn |
| `Replication.DueIsSent` | sidecar/sre-bench/replication.go:192-199 | 200 ms after the last status the next is sent |
| `Replication.Paced` | sidecar/sre-bench/replication.go:192-199 | unless the server asks, statuses are at least 200 ms apart |
| `Supervisor.Prune` | deploy/databricks-apps/launch.py:137-139 | the comprehension keeps exactly the restarts of the last minute |
| `Supervisor.Supervise` | deploy/databricks-apps/launch.py:95-144 | every exit but the last asked for a restart within the limit of five in sixty seconds; the last ends it with the code of a signal, of the child, of giving up, or of a stop before a launch |
| `Supervisor.LaunchLoop` | deploy/databricks-apps/launch.py:116-144 | with its pruned list the loop decides what the rule on the whole history decides |
| `Supervisor.ObserveEnds` | deploy/databricks-apps/launch.py:116-144 | the rule on the whole history is exactly that |
| `Supervisor.NoBurst` | deploy/databricks-apps/launch.py:137-144 | no half-open minute holds more than five relaunches |
| `Supervisor.GivesUpAtLast` | deploy/databricks-apps/launch.py:137-144 | giving up happens at the last exit seen, every exit before it granted |
| `Supervisor.GivesUpOnlyOnBurst` | deploy/databricks-apps/launch.py:137-144 | five of the grants lie in the minute that ends with that last request, none after it |
| `Supervisor.GrantsAndExits` | deploy/databricks-apps/launch.py:116-144 | every child but the last to exit was granted its restart |

## Left out

- IEEE rounding: rates, spend and times are exact; the gates' 1e-9 is exactly a billionth.
- Integer widths: counters are unbounded; replication positions are 64-bit with wrap-around.
- Durable emergency stops: the durable flags are read, not written; an inherited stop that is persisted only concerns generations already stopped.
- Shutdown order and waiting: shutting a generation down is recorded, its workers and bounded waits are not; shutdown errors are not modelled.
- Budget shares of removed databases (`unregisterFleetBudget`), database ids and reload logging: no effect on the registry.
- `FleetRun.Reload`: the settings publish covers the execution-mode default only, the one default the steps read.
- The configuration controller that calls the owners in turn: only one owner's protocol at a time.
- Trust warnings: the count of databases not raised is report text.
- `DatabaseConfig` connection settings are one abstract value: planning only compares them.
- JSON and HTTP: a request body is its size, prompts and caps; a reply is a status and a usage report.
- Unbudgeted proxies: `ModelTap.Tap.ServeHTTP` covers a tap without a budget; the interleaving model gives every tap one.
- Waiting for a pacer slot, cancellation and the parsing of the rate setting: the slot is granted either way, rates are taken from 1 to 6000.
- Gate texts (thresholds, observations, reasons): a gate is its id, arm, family, status and split.
- `EvaluateGates`, `PendingGates`, `FailedGates`, `ModelArmGates`: lists of gates already covered one by one.
- Wilson intervals and the override rule's verdict: the counts they read are modelled.
- Fault programs, safety snapshots and the investigation itself: one attempt is an input of the run loop.
- Process spawning, signal delivery and the shutdown deadline of the supervisor: a child's run is its exit status, the signal that came and the clock.
- Report rendering, fake models, baselines, log deduplication, packaging: easy or outside the core.
