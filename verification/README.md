# Verified models of the controller's protocols

This project states in Dafny what the controller promises about the routers and the operators
it works for, and proves it for every input, every run and every interleaving. Each file models
one part of the repository; code that changes things in place is a class or a method proved
against functions, and the laws are proved about those functions.

| file | what it models |
|---|---|
| `UciDevice.dfy` | a device: committed configuration, deltas staged per session, one timed rollback |
| `Link.dfy` | the line to it: lost requests and replies, passing time, other sessions, a dying timer |
| `Plans.dfy` | plans, their configs and deltas, and which options can vote on whether a revert happened |
| `PlanEffects.dfy` | what a committed plan makes of every option, in the terms of its operations |
| `ApplyEngine.dfy` | the apply engine, from preflight to the verdict |
| `Unadopt.dfy` | handing a router back |
| `AlertModel.dfy`, `AlertLaws.dfy`, `AlertUpkeep.dfy` | the alert record, its operations and what they keep |
| `AlertEvidence.dfy`, `AlertRuns.dfy` | sustained evidence; whole runs with a ledger of everything queued and sent |
| `AlertEffects.dfy` | what each operation makes of the record, and when incidents open, in plain terms |
| `AlertManager.dfy` | the manager, changing the record in place and saving it |
| `Topology.dfy`, `PathWalk.dfy`, `PathIntervals.dfy`, `PathBuild.dfy` | a client's path to the internet over time |
| `PathEffects.dfy` | what the paths, their confidence, their order and their gaps mean, without the walk |
| `Windows.dfy` | bucket, gap and window arithmetic |
| `Admission.dfy` | the operation gate and the site mutex |
| `GateEffects.dfy` | what is granted and refused, in terms of the leases held |
| `Restores.dfy`, `RestoreManager.dfy`, `RestoreConfirmation.dfy` | the restore manager and the confirmation handler |
| `RestoreEffects.dfy` | what is confirmed, started, ended and pruned, in plain terms |
| `Throttle.dfy` | the sign-in throttle |
| `JsonString.dfy` | the JSON string decoder |

`dafny verify dfyconfig.toml` checks the whole project.

## Hypotheses

- A line keeps three ghost flags: `dropped` (a request or a reply was lost), `timerLost` (rpcd
  restarted) and `interfered` (a third party committed, applied, forced a rollback or used one of
  our tokens). Every theorem about a device says which of them it needs to be false; soundness of
  a verdict needs only the last one. `mishaps` counts all of these, so that a stretch of a run in
  which it stands still (`Quiet`) is one in which nothing was lost and nobody interfered.
- A line may be `reliable`: then a call fails only for want of its context, and one made without the
  caller's context does not fail.
- `ApplyEngine.Engine.Apply` starts with no rollback armed and nothing staged by the session.
  That "Reverted" proves the revert needs one vote that is not fooled; `FooledMeansNoneTells` and
  `SurvivingVotesTell` give that whenever no later operation of the plan rewrites or deletes it.
- That the revert has already happened when it is checked needs the device to have armed soon
  enough after the call: the `Timely` predicate is that latency and lag fit into the grace.
- The alert manager's clock does not go back, and source strings fit their bounds.
- Observed ranges run forward from times that are not negative. The handler refuses a range that is
  empty or reversed (internal/api/client_observability.go:166-169) and any time below 10^12
  (internal/api/client_observability.go:190-197), so no request is left out.
- The throttle laws are for one attempt at a time per address; a success starts its history anew.
- Times are logical; a context is over at its deadline, and where a wait and another event fall
  together either may come first.

## What came out differently from the comments

- After `uci.rollback` the simulator's comment promises a restore on the next tick; the zeroed
  deadline reads as no deadline, so it never comes (`ForcedRollbackNeverRestores`).
- A sign-in window holds at most 2*max - 2 failures, one less than the obvious 2*max - 1, or one if
  the maximum is one, and that bound is met (`NoWindowHoldsMore`, `TheBoundIsReached`).
- `SaveRule` can build a record the store refuses: exactly when the new id would be the last
  64-bit one or the target identity is longer than 128 bytes. `SetDelivery` can too: exactly when
  the sealed destination or the host is too long (`AddRuleIsAcceptable`, `DeliveryChangeIsAcceptable`;
  `AddsTheStoreRefuses`, `RewritesTheStoreRefuses` and `DestinationsTheStoreRefuses` give inputs).
- A preview never lacks room, so its retention error cannot occur (`PreviewsNeverLackRoom`); and
  every pruning evicts down to four previews even when none is about to be added.
- When the reply to an apply is lost, the engine reports an error and discards what is staged, but
  the timer brings the delta back into the session later (`EarlyDiscardIsUndone`).
- "Reverted" can be said of a device that keeps the change for good: the device takes the confirm,
  its reply is lost, and every option that votes is deleted, unset or rewritten later in the plan
  (`ConfirmReplyLost`, `RewrittenOptionsCannotTell`). The same happens while the change is still
  armed, if the device's timer is late. Of a change that stands, an undisturbed look answers
  "Reverted" if and only if there are votes and every one is fooled, that is, none tells and all
  can be read (`StandingChangesAreMistaken`, `FooledMeansNoneTells`).
- The budget guard accepts a context that ends exactly with window and grace. The revert check then
  comes too late for that context, and the answer is "unknown" (`EqualityIsAcceptedYetUnknown`,
  `NothingIsVerifiedAtTheLimit`).
- The string decoder takes a bare quote inside a string, which section 7 of RFC 8259 forbids
  (`BareQuotesAreTaken`), and takes nothing else it forbids (`OnlyBareQuotesDepart`). Its one
  caller, `UnmarshalJSON` (internal/api/backups.go:133-135), gets its bytes from a JSON parser that
  refuses such a quote already.
- Giving back an ordinary lease that was upgraded would always wrap its counter
  (`DoubleReleaseUnderflows`); the confirmation handler never does, whatever others do to the gate
  in between (`GivingUpKeepsTheDiscipline` and the two beside it).
- One pass over the rules cannot be saved exactly when it would use up the incident ids
  (`ObserveIsAcceptable`, `PassesTheStoreRefuses`).

## Model

| member | source | states |
|---|---|---|
| `UciDevice.CommitYieldsWhatWasRead` | tools/mock_ubus.py:220-260 | committing a config makes committed state exactly what the session was reading; sessions without a pile read the same, other configs are untouched |
| `UciDevice.ApplyYieldsWhatWasRead` | tools/mock_ubus.py:263-281 | after an apply, the applier and everyone without a delta read what the applier was reading |
| `UciDevice.FiringSplitsTheReaders` | tools/mock_ubus.py:298-316 | when the timer fires the applier goes on reading what it failed to set, while a session without a delta reads the snapshot |
| `UciDevice.FreshTokenReadsCommitted` | tools/mock_ubus.py:998-1015 | with nothing armed a login gets a token nobody holds, and it reads committed state |
| `UciDevice.ChangeIsPermanentOnlyIfConfirmed` | tools/mock_ubus.py:263-316 | over every undisturbed run: once the watchdog has run past the deadline, the armed change is committed if and only if the owner confirmed in time, else the snapshot is back |
| `UciDevice.ForcedRollbackNeverRestores` | tools/mock_ubus.py:298-316 | after `uci.rollback` zeroes the deadline the watchdog never restores, in any undisturbed run |
| `UciDevice.SectionsSpringUp` | tools/mock_ubus.py:220-260 | a set makes the section it does not find, of type "unknown" if none is given, as an add would |
| `UciDevice.EndingsDo` | tools/mock_ubus.py:1028-1034 | a session that is destroyed takes its delta with it; a restart of rpcd, which the engine has to reckon with, takes the timer and the sessions |
| `UciDevice.CommitOneMore` | tools/mock_ubus.py:263-281 | committing the configs one after another amounts to committing them together |
| `UciDevice.Device.EffectiveConfig` | tools/mock_ubus.py:220-243 | the loop over the pile computes the overlay the laws speak of |
| `UciDevice.Device.CommitConfig` | tools/mock_ubus.py:246-260 | the new state is `Commit` of the old one |
| `UciDevice.Device.CommitEvery` | tools/mock_ubus.py:263-281 | whatever order the configs are taken in, the store is the one with all of them committed and the pile is empty |
| `UciDevice.Device.ApplyAll` | tools/mock_ubus.py:263-281 | the new state is `Apply` of the old one; refused exactly while another session holds a live timer |
| `UciDevice.Device.ConfirmApply` | tools/mock_ubus.py:283-296 | only the owner of a pending rollback cancels it; the three answers are told apart |
| `UciDevice.Device.WatchdogPass` | tools/mock_ubus.py:298-316 | snapshot and the owner's delta come back exactly when a nonzero deadline has passed |
| `UciDevice.Device.NewLogin` | tools/mock_ubus.py:998-1015 | the token rule: the owner's token while its rollback is pending, a fresh one otherwise |
| `Link.DriftComposes` | tools/mock_ubus.py:298-316 | what an undisturbed environment may do to a device between two calls is closed under composition |
| `Link.HarmlessDrifts` | tools/mock_ubus.py:1470-1536 | every action of another session that is not a commit, an apply or a forced rollback is such a drift |
| `Link.Line.StageCall` | tools/mock_ubus.py:1470-1501 | a staged operation, with its request or its reply possibly lost: the device is in one of the stated states |
| `Link.Line.RevertCall` | tools/mock_ubus.py:1510-1512 | a revert, with its request or its reply possibly lost: the device is in one of the stated states |
| `Link.Line.CommitCall` | tools/mock_ubus.py:1513-1515 | a commit, with its request or its reply possibly lost: the device is in one of the stated states |
| `Link.Line.ApplyCall` | tools/mock_ubus.py:1516-1525 | an armed apply, logged when sent, with its request or its reply possibly lost: the device is in one of the stated states |
| `Link.Line.ConfirmCall` | tools/mock_ubus.py:1526-1530 | a confirm, logged when sent, with its request or its reply possibly lost: the device is in one of the stated states |
| `Link.Line.LoginCall` | tools/mock_ubus.py:998-1015 | a second login: a token becomes ours only if the reply arrives |
| `Link.Line.Wait` | internal/applyengine/engine.go:513-571 | a sleep raced against the context: time passes, the watchdog may fire, and it wakes on time unless the context ends first |
| `Plans.ConfigsAreTheConfigs` | internal/applyengine/plan.go:96-112 | the configs of a plan, each once, are exactly those its operations name |
| `Plans.DistinctConfigs` | internal/applyengine/plan.go:96-112 | the loop computes the configs in order of first mention |
| `Plans.StagingOneMore` | internal/applyengine/engine.go:356-409 | staging the operations in order builds the delta of the plan |
| `Plans.PlanDeltasCoverTheConfigs` | internal/applyengine/engine.go:356-409 | the delta of a plan lies on exactly the configs of the plan |
| `Plans.SurvivorIsCommitted` | internal/applyengine/engine.go:598-648 | a value no later operation rewrites or deletes is what committed state holds after the apply |
| `Plans.RewrittenOptionsCannotTell` | internal/applyengine/engine.go:650-693 | if every option that votes is deleted, unset or rewritten by a later operation of the plan, the state the apply leaves behind fools every one of them |
| `Plans.FooledMeansNoneTells` | internal/applyengine/engine.go:650-693 | every vote is fooled if and only if none tells and every option that votes can be read in the applied state |
| `Plans.SetThenDeleteCannotTell` | internal/applyengine/engine.go:650-693 | such plans exist: set an option of a section, then delete the section; the change is real and every vote is fooled |
| `PlanEffects.PlanIsCarriedOut` | internal/applyengine/engine.go:356-409 | a plan that is committed is carried out, said of the fields of its operations: the last operation to concern an option decides what it holds, the values it names with lists first and the mark of ownership unless it is a patch; a section deleted and not written again is gone; all else is as it was |
| `PlanEffects.ValuesAreThere` | internal/applyengine/engine.go:376-381 | the value a set or an add writes last is there, `Text` or, where a list overrides it, `Items`, and "1" as the mark of ownership of an operation that is no patch |
| `PlanEffects.PatchesLeaveTheMark` | internal/applyengine/engine.go:356-381 | patches leave the mark of ownership of a section, or its absence, as it was |
| `PlanEffects.OptionDeletesAreSmall` | internal/applyengine/engine.go:382-389 | a delete of an option takes that option and nothing else |
| `PlanEffects.RemovedIsGone` | internal/applyengine/engine.go:382-389 | a section deleted whole and not written again is gone |
| `PlanEffects.KeepsOffExactly` | internal/applyengine/engine.go:288-342 | a plan touches the management path exactly if some operation is on `network`, on `firewall`, or on a section of `wireless` whose name begins with `oowrt_up` |
| `PlanEffects.VotesExactly` | internal/applyengine/engine.go:598-648 | of an honest snapshot an option votes exactly if it could be read and did not hold what is planned |
| `PlanEffects.LastingVotesTell` | internal/applyengine/engine.go:598-693 | a vote of a value that stands to the end of the plan tells: the applied state holds it, the one before did not |
| `ApplyEngine.Engine.Preflight` | internal/applyengine/engine.go:225-241 | the listing is all it asks the device, and it changes nothing: refused if and only if the savedir cannot be read, holds a file that is not empty, or the plan touches the management path unacknowledged |
| `ApplyEngine.Engine.Screen` | internal/applyengine/engine.go:225-281 | the decision on that listing: which of the three refusals, in order, and exactly the dirty configs named |
| `ApplyEngine.Engine.Dirty` | internal/applyengine/engine.go:250-281 | the configs with a file that is not empty, and only those: zero-length files are stale leftovers |
| `ApplyEngine.Engine.Touches` | internal/applyengine/engine.go:288-342 | true exactly if some operation touches the management path |
| `ApplyEngine.Engine.SnapshotPlanned` | internal/applyengine/engine.go:598-648 | records, without disturbing anything, the value before of every option the plan can vote on |
| `ApplyEngine.Engine.StageAll` | internal/applyengine/engine.go:356-419 | the session's delta is the plan's when every call succeeded, a delta on plan configs only otherwise |
| `ApplyEngine.Engine.VerifyStaged` | internal/applyengine/engine.go:421-444 | accepts exactly when the changes show a list that is not empty for each config of the plan and for no other; the revert is up to the caller |
| `ApplyEngine.Engine.RevertAll` | internal/applyengine/engine.go:446-467 | with no losses the session ends with no delta on any plan config; it touches no other |
| `ApplyEngine.Engine.RequireRollbackBudget` | internal/applyengine/engine.go:191-207 | passes only if window and grace fit before the deadline of the context |
| `ApplyEngine.Engine.ConfirmPoll` | internal/applyengine/engine.go:480-511 | terminates; no confirm starts after the deadline, and none sooner than an interval after the one before; true only if the device took one, false without losses only if it took none; undisturbed it gives up only when the window or the context is over |
| `ApplyEngine.Engine.CastVote` | internal/applyengine/engine.go:650-693 | one reading through the second session, and what each answer proves about the device |
| `ApplyEngine.Engine.PlanStillApplied` | internal/applyengine/engine.go:650-693 | "gone" proves the revert unless every vote is fooled; on an honest snapshot a clean check never says otherwise |
| `ApplyEngine.Engine.LookAround` | internal/applyengine/engine.go:513-571 | "Reverted" only after every vote said gone, otherwise unknown; of a change that stands before and after an undisturbed look it is said if and only if there are votes and all are fooled |
| `ApplyEngine.Engine.AwaitRevert` | internal/applyengine/engine.go:513-571 | waits out window and grace, looks once, on time if the context allows it, and never says "Applied"; a context that ends with window and grace means that nothing is verified |
| `ApplyEngine.VoteReadOnStanding` | internal/applyengine/engine.go:650-693 | an undisturbed reading of a device on which the change stands before and after, kept or still armed, says "gone" if and only if the vote is fooled |
| `ApplyEngine.Engine.ConfirmReplyLost` | internal/applyengine/engine.go:480-571 | the run in which "Reverted" is wrong: the device takes the confirm, its reply is lost, every vote is fooled; the look answers "Reverted" and the change stays for good |
| `ApplyEngine.NothingIsVerifiedAtTheLimit` | internal/applyengine/engine.go:63-186 | of every run of the engine: under a context that ends with window and grace it ends in "Applied" or unknown, never in "Reverted" |
| `ApplyEngine.StandingChangesAreMistaken` | internal/applyengine/engine.go:63-186 | of every run of the engine: if it looks, undisturbed, at a change that stands, it says "Reverted" if and only if there are votes and all are fooled, hence whenever the plan later undoes every option that votes |
| `ApplyEngine.Engine.EqualityIsAcceptedYetUnknown` | internal/applyengine/engine.go:191-207 | the budget guard accepts a context that ends exactly with window and grace, and then no revert is ever verified |
| `ApplyEngine.Engine.RunHealth` | internal/applyengine/engine.go:469-478 | the health check may take any time and say anything; it is logged |
| `ApplyEngine.Engine.Withdraw` | internal/applyengine/engine.go:209-222 | awaits the revert and then discards what came back with the snapshot, under the context of the caller |
| `ApplyEngine.Engine.Apply` | internal/applyengine/engine.go:63-186 | every verdict over every run with lost requests and replies, failed health, a lost timer: "Applied" only if our confirm was taken, and then, undisturbed, the plan is carried out: every option holds what the last operation to concern it says, what was deleted last is gone, all else is as it was; "Reverted", unless every vote is fooled, only if committed state is back, and of a change that stands throughout an undisturbed look if and only if there are votes and all are fooled; unknown otherwise. Errors before arming change nothing; without losses every error, that of somebody else's armed apply included, leaves nothing armed and nothing staged, and has a stated reason. Confirm only after health; no confirm after the window; the revert check starts exactly when window and grace are over, if health and polling ended by then and the context lasts longer; no residue in a timely clean run; nothing but the plan ever armed, and nothing armed that touches the management path unacknowledged; on a reliable wire a run refused for want of budget or context has discarded what it staged, though its context may be over |
| `ApplyEngine.FrameOfThePlan` | internal/applyengine/engine.go:92-186 | what is armed changes no config outside the configs of the plan |
| `ApplyEngine.AppliedIsCarriedOut` | internal/applyengine/engine.go:92-186 | an undisturbed "Applied" means the plan carried out on what was committed when it was armed |
| `ApplyEngine.SurvivingVotesTell` | internal/applyengine/engine.go:650-693 | if every vote is of an option that survives the plan, some vote tells, so that not all are fooled and "Reverted" is sound |
| `ApplyEngine.RunDecided` | internal/applyengine/engine.go:92-186 | the soundness of the verdict, put together from what each phase leaves behind |
| `ApplyEngine.EarlyDiscardIsUndone` | internal/applyengine/engine.go:135-157 | when the reply to the apply is lost, discarding at once is undone by the timer: the delta is back in the session |
| `ApplyEngine.AfterDrifts` | tools/mock_ubus.py:298-316 | armed, restored or kept: nothing the environment may do leaves these three |
| `ApplyEngine.UnrestoredReadsPost` | internal/applyengine/engine.go:513-571 | until the revert happened every reader still reads the applied value |
| `ApplyEngine.CleanReaderReadsCommitted` | internal/applyengine/engine.go:513-571 | after it, a session without a delta reads what was committed before |
| `ApplyEngine.Judging` | internal/applyengine/engine.go:513-571 | what the verdict of the second session means for the device |
| `ApplyEngine.Declined` | internal/applyengine/engine.go:130-186 | a change not confirmed: what holds once the revert has been awaited |
| `AlertLaws.OpeningKeeps` | internal/alerts/alerts.go:541-563 | opening an incident keeps the record valid, linked, and its outbox in order |
| `AlertLaws.RecoveryKeeps` | internal/alerts/alerts.go:520-533 | recovery keeps the record good and resolves the rule's one incident |
| `AlertLaws.ResolvesOne` | internal/alerts/alerts.go:524-530 | ids being distinct, the loop over all incidents resolves exactly one |
| `AlertLaws.EvaluateKeeps` | internal/alerts/alerts.go:485-563 | every evaluation keeps the record good, whatever the evidence |
| `AlertUpkeep.PassKeeps` | internal/alerts/alerts.go:428-432 | a pass over all rules keeps the record good |
| `AlertUpkeep.DropsTheOldest` | internal/alerts/alerts.go:588-611 | what pruning drops is the oldest: from some point on all incidents stay, before it only the active ones |
| `AlertUpkeep.DroppingSelects` | internal/alerts/alerts.go:588-611 | pruning keeps every active incident, invents none and repeats none |
| `AlertUpkeep.BusyAtMost` | internal/alerts/alerts.go:588-611 | distinct active incidents are no more than the active ids |
| `AlertUpkeep.PruneFits` | internal/alerts/alerts.go:588-611 | at most 150 are spoken for, so pruning always gets down to 500, and no further |
| `AlertUpkeep.PruneKeeps` | internal/alerts/alerts.go:588-611 | rules, queue and promises survive the loss of idle incidents |
| `AlertUpkeep.ObserveIsAcceptable` | internal/alerts/alerts.go:416-437 | the first save of a tick is valid if and only if the incident counter plus the number of rules shown what opens an incident stays below the last 64-bit id |
| `AlertUpkeep.PassCounts` | internal/alerts/alerts.go:428-432 | a pass raises the incident counter by exactly that number: no rule is affected by the rules before it |
| `AlertUpkeep.CancelMarks` | internal/alerts/alerts.go:388-398 | cancelling marks exactly the incidents whose current event was dropped and leaves all other delivery history |
| `AlertUpkeep.KeptExactly` | internal/alerts/alerts.go:388-398 | the queue keeps exactly the other rules' entries, in their order |
| `AlertUpkeep.DropHeadKeeps` | internal/alerts/alerts.go:443-450 | an expired entry leaves and its outcome is on record |
| `AlertUpkeep.AttemptKeeps` | internal/alerts/alerts.go:451-460 | a recorded attempt keeps the record good |
| `AlertUpkeep.SettleKeeps` | internal/alerts/alerts.go:461-482 | recording the outcome of an attempt keeps the record good |
| `AlertUpkeep.AddRuleIsAcceptable` | internal/alerts/alerts.go:206-270 | a new rule leaves a valid record if and only if its id is not the last one and its target fits 128 bytes |
| `AlertUpkeep.ReplaceRuleIsAcceptable` | internal/alerts/alerts.go:206-270 | a rewritten rule leaves a valid record if and only if its target fits 128 bytes |
| `AlertUpkeep.SwitchRuleIsAcceptable` | internal/alerts/alerts.go:237-257 | switching a rule that holds an incident always leaves a valid record |
| `AlertUpkeep.RemoveRuleIsAcceptable` | internal/alerts/alerts.go:271-288 | removing a rule always leaves a valid record, and nothing of the rule queued |
| `AlertUpkeep.DeliveryChangeIsAcceptable` | internal/alerts/alerts.go:322-386 | silencing always leaves a valid record; a new destination does if and only if its sealed form fits 16384 bytes and its host 253; either empties the queue |
| `AlertUpkeep.DestinationsTheStoreRefuses` | internal/alerts/alerts.go:322-386 | destinations the store refuses, whatever the record |
| `AlertUpkeep.RewritesTheStoreRefuses` | internal/alerts/alerts.go:206-270 | a rewrite the store refuses: a target of 129 characters |
| `AlertUpkeep.AddsTheStoreRefuses` | internal/alerts/alerts.go:206-270 | rules the store refuses: a target of 129 characters, or the last id |
| `AlertUpkeep.PassesTheStoreRefuses` | internal/alerts/alerts.go:541-563 | a valid record with one incident id left, and a pass over it that the store refuses |
| `AlertEvidence.OpensExactlyWhenSustained` | internal/alerts/alerts.go:485-563 | an incident opens if and only if the looks at the rule end in an unbroken chain of enabled, usable breaches, each in reach of the one before, spanning the hold and ending on new evidence |
| `AlertEvidence.LookKeepsBacked` | internal/alerts/alerts.go:485-563 | the three fields a rule keeps always stand for the longest such chain |
| `AlertRuns.AlarmsKeepTheCooldown` | internal/alerts/alerts.go:553-562 | an alarm is queued only after the cooldown and starts it anew; nothing else moves it |
| `AlertRuns.AttemptIsFair` | internal/alerts/alerts.go:451-460 | one more attempt keeps at most three, 300 seconds apart, and no alarm after its own recovery |
| `AlertRuns.NextIsSound` | internal/alerts/alerts.go:206-482 | every step that can be saved keeps the whole ledger sound and the record valid |
| `AlertRuns.EveryRunIsSound` | internal/alerts/alerts.go:206-482 | every run of such steps keeps the ledger sound and the record valid |
| `AlertRuns.NotificationsAreFair` | internal/alerts/alerts.go:416-586 | over every run from the empty record: each event entered once, sent at most three times, 300 seconds apart, never again once a sending that worked was saved, alarms before recoveries; "pending" promises an entry; a live rule's incident id names its only firing incident |
| `AlertRuns.IncidentsNeedSustainedEvidence` | internal/alerts/alerts.go:485-563 | over every run, a rule opens an incident exactly on sustained evidence |
| `AlertRuns.DeliveryIsRecorded` | internal/alerts/alerts.go:461-482 | the ledger holds what every sending came to |
| `AlertEffects.IncidentsOpenExactly` | internal/alerts/alerts.go:485-563 | over every run, in terms of what was observed: an incident opens at a look exactly if the rule had none and from some earlier look on every one alarmed, each in reach of the one before, for as long as the rule asks |
| `AlertEffects.WhatAlarms` | internal/alerts/alerts.go:485-519 | which observation alarms, and which counts as recovered, for each kind of rule |
| `AlertEffects.EvaluationDoes` | internal/alerts/alerts.go:485-563 | one look at one rule, told field by field: what it shows and why, the incident it opens, the one it recovers, what is announced and until when; every other rule and incident stays |
| `AlertEffects.EvidenceIsNoted` | internal/alerts/alerts.go:485-545 | which observation a rule remembers after a look, and when the time its alarm has lasted starts over |
| `AlertEffects.PassDoes` | internal/alerts/alerts.go:416-435 | a pass looks at every rule once, in turn, on the evidence observed for it, or on none; each look does what is said above |
| `AlertEffects.PruningDoes` | internal/alerts/alerts.go:588-611 | pruning gets down to 500: before some point only incidents stay that a rule holds or the queue speaks of, after it all do |
| `AlertEffects.SendingDoes` | internal/alerts/alerts.go:451-482 | an attempt that worked takes the entry off the queue, marks the incident sent, if it is still in that state, notes the success and clears the error; one that failed marks it failed, notes the error, repeats it in 300 seconds, and drops it at the third attempt |
| `AlertEffects.GivingUpDoes` | internal/alerts/alerts.go:443-450 | an entry given up leaves the queue, its incident says why, and it was for want of a destination, of time or of attempts |
| `AlertEffects.DueIsSentOrGivenUp` | internal/alerts/alerts.go:439-460 | an entry that is due is sent or given up, and which of the two is settled |
| `AlertEffects.CancellingDoes` | internal/alerts/alerts.go:388-398 | exactly the entries of the rule leave the queue, and exactly the incidents whose state one of them was to announce are marked; nothing else moves |
| `AlertEffects.AddingDoes` | internal/alerts/alerts.go:206-270 | the new rule stands last, holds what was asked for, and starts with nothing seen |
| `AlertEffects.ReplacingDoes` | internal/alerts/alerts.go:206-270 | the rewritten rule keeps its id, holds the config and the target asked for, and starts over; switched off, it loses what it had queued |
| `AlertEffects.SwitchingDoes` | internal/alerts/alerts.go:237-257 | switching touches the switch and what is shown; the incident held and its evidence stay |
| `AlertEffects.RemovingDoes` | internal/alerts/alerts.go:271-288 | exactly the other rules stay, and nothing of the one deleted is queued |
| `AlertEffects.SilencingDoes` | internal/alerts/alerts.go:322-386 | silence empties the queue and cancels exactly the incidents whose present state was still to be sent; the destination is forgotten only on request |
| `AlertEffects.ConnectingDoes` | internal/alerts/alerts.go:340-386 | a new destination does the same, and starts with nothing sent and nothing failed |
| `AlertManager.Record.FinishDelivery` | internal/alerts/alerts.go:580-586 | the loop marks exactly the incident still in the state of the event |
| `AlertManager.Record.Announce` | internal/alerts/alerts.go:565-578 | the new queue and the incident's delivery state, in each of the three cases |
| `AlertManager.Record.Resolve` | internal/alerts/alerts.go:524-530 | the loop is `ResolveFrom` |
| `AlertManager.Record.Open` | internal/alerts/alerts.go:547-562 | the new incident, its announcement or cooldown, and the rule's record |
| `AlertManager.Record.Evaluate` | internal/alerts/alerts.go:485-563 | the step by step evaluation is the function the laws are about |
| `AlertManager.Record.CancelQueued` | internal/alerts/alerts.go:388-398 | the filter in place is `Cancel` |
| `AlertManager.Record.Prune` | internal/alerts/alerts.go:588-611 | the filter in place is `Prune` |
| `AlertManager.Record.ObserveAll` | internal/alerts/alerts.go:428-433 | the pass over all rules, the time of evaluation, and pruning |
| `AlertManager.Record.Validate` | internal/alerts/validation.go:14-68 | the loops with their maps decide exactly `Valid` |
| `AlertManager.Manager.SaveRule` | internal/alerts/alerts.go:206-270 | succeeds if and only if the config, the target, the room and an incident held allow it; what it then does is one step of the run, with the config asked for on record and every other rule as it was |
| `AlertManager.Manager.DeleteRule` | internal/alerts/alerts.go:271-288 | "not found" exactly if no rule has the id; otherwise the rule and its queued entries are gone and exactly the other rules stay |
| `AlertManager.Manager.SetDelivery` | internal/alerts/alerts.go:322-386 | succeeds if and only if the step asked for exists, is one of the run, and the store works, and is then exactly that step; silencing never needs the keyring |
| `AlertManager.Manager.Retarget` | internal/alerts/alerts.go:355-375 | the destination to seal is the saved one, overwritten by what is asked for, the URL trimmed; refused exactly if the saved one cannot be opened, the token is unfit or the URL is missing |
| `AlertManager.TrimmedIsTheMiddle` | internal/alerts/alerts.go:348-350 | what trimming leaves is the middle of the string: white space around it, none at its ends |
| `AlertManager.Manager.Tick` | internal/alerts/alerts.go:416-483 | a tick is a run of the model: evaluate and save first, then at most two deliveries, each attempt saved before it is sent; a failed save stops it; the answer to each call is the outcome its step records |
| `Topology.SortedIsThePermutation` | internal/api/client_observability_path.go:57-64 | the parents of a node are a permutation of its active edges, in order |
| `Topology.FromActive` | internal/api/client_observability_path.go:47-56 | slicing by time and by child commute |
| `Topology.ParentsAre` | internal/api/client_observability_path.go:50-64 | the parents of a node are exactly the active edges of that child |
| `PathWalk.WalkIsSound` | internal/api/client_observability_path.go:119-169 | every path returned is a simple path over active edges that has arrived or cannot go on |
| `PathWalk.WalkIsComplete` | internal/api/client_observability_path.go:119-169 | without truncation every such path is returned |
| `PathWalk.WalkIsDistinct` | internal/api/client_observability_path.go:119-169 | no path is returned twice |
| `PathWalk.WalkIsMetered` | internal/api/client_observability_path.go:119-127 | work and paths never exceed 2048 and 64, and truncation is never forgotten |
| `PathWalk.PathsAreExact` | internal/api/client_observability_path.go:119-169 | all four together, for the walk from the client |
| `PathWalk.CompleteMeansOneWay` | internal/api/client_observability_path.go:66-77 | "complete" holds if and only if there is a way to the internet with one unambiguous parent at every step, within the budget, and then that is the one path |
| `PathWalk.WalkSeesOnlyTheReachable` | internal/api/client_observability_path.go:97-117 | two sets of edges that agree on what the client can reach give the same walk |
| `PathIntervals.ConfidenceIsTheWeakest` | internal/api/client_observability_path.go:171-182 | a path is ambiguous exactly if some step is, inferred exactly if none is and some step is inferred |
| `PathEffects.ConfidenceInFull` | internal/api/client_observability_path.go:171-182 | the other two: without doubt and inference a path is unknown exactly if every step is; else it is what its first known step says, if that is the last one, and measured if more follow |
| `PathEffects.ActiveExactly` | internal/api/client_observability_path.go:47-56 | an edge is active exactly from its start until its end |
| `PathEffects.ForksExactly` | internal/api/client_observability_path.go:58-64 | a node is ambiguous exactly if two active edges lead on from it |
| `PathEffects.TextLessIsLexicographic` | internal/api/client_observability_path.go:57-64 | the order of the parents is that of their texts, by the first difference |
| `PathIntervals.RelevantEdges` | internal/api/client_observability_path.go:97-117 | the search copies, for exactly the nodes the root reaches, all their edges, in order, and no others |
| `PathIntervals.PictureNeedsOnlyTheRelevant` | internal/api/client_observability_path.go:97-117 | at every time the picture is the same with and without the pre-filter |
| `PathIntervals.UniqueInPlace` | internal/api/client_observability_path.go:220-229 | the filter in place is `Unique` |
| `PathIntervals.UniqueIsStrict` | internal/api/client_observability_path.go:220-229 | of a rising list it leaves the same elements, strictly rising |
| `PathIntervals.Boundaries` | internal/api/client_observability_path.go:28-46 | strictly rising from `from` to `to`, with every start and end of an edge in between |
| `PathIntervals.ActiveBetween` | internal/api/client_observability_path.go:35-56 | between two boundaries the active edges stay as they are |
| `PathBuild.WalkPaths` | internal/api/client_observability_path.go:119-169 | the recursive walk with its shared budget is `Walk`, its paths the rendered trails |
| `PathBuild.WalkParents` | internal/api/client_observability_path.go:149-168 | its loop over candidate parents is `Branch` |
| `PathBuild.WalkStep` | internal/api/client_observability_path.go:154-159 | confidence and notes of one step |
| `PathBuild.IndexActive` | internal/api/client_observability_path.go:50-64 | the map of active edges holds each node's parents in order |
| `PathBuild.Paint` | internal/api/client_observability_path.go:65-87 | one slice is painted as it is at its start |
| `PathBuild.Append` | internal/api/client_observability_path.go:88-93 | a slice extends the last interval exactly if it says the same |
| `PathBuild.BuildIntervals` | internal/api/client_observability_path.go:24-95 | the intervals tile [from, to), adjacent ones differ, and each says what is so, of the whole topology, at every instant in it; `IntervalsDepictTheWays` and `IntervalsAdmitTheGaps` say what that is |
| `PathBuild.PaintIntervals` | internal/api/client_observability_path.go:24-95 | the loop over the slices gives the encoding of whatever edges it is given, all of them or the relevant ones |
| `PathBuild.EncodingIsUnique` | internal/api/client_observability_path.go:88-93 | two such lists of one history are the same list |
| `PathBuild.PrefilterPreservesMeaning` | internal/api/client_observability_path.go:24-117 | painted from all edges or from the relevant ones, the intervals are the same |
| `PathBuild.IntervalsTellTheTruth` | internal/api/client_observability_path.go:66-93 | what "complete" and a single path in an interval mean at every instant in it |
| `PathBuild.IntervalPathsAreThePaths` | internal/api/client_observability_path.go:65-93 | the paths an interval shows are, at every instant in it, real and, unless it admits truncation, all there are |
| `PathBuild.PathsDrawnAreThePaths` | internal/api/client_observability_path.go:65-87 | the paths of a picture are real, and all there are unless it admits truncation |
| `PathEffects.IntervalsDepictTheWays` | internal/api/client_observability_path.go:24-182 | every path of an interval depicts a way, at every instant in it: edge by edge over standing edges, no node twice, to the internet or as far as it goes, with its nodes and mediums in turn and the confidence it deserves; and every way is depicted unless truncation is admitted |
| `PathEffects.GapsExactly` | internal/api/client_observability_path.go:119-169 | the gaps admitted are exactly those due somewhere on the way, a cycle, an end, a fork or what an edge notes, with "truncated" exactly when the walk was cut short |
| `PathEffects.CutShortWhenSpent` | internal/api/client_observability_path.go:119-127 | the walk is cut short only when 2048 visits or 64 paths are spent |
| `PathEffects.WalkIsRanked` | internal/api/client_observability_path.go:149-169 | the paths come in the order of the edges they take: where two part, the smaller parent first, then the smaller id |
| `PathEffects.IntervalsAdmitTheGaps` | internal/api/client_observability_path.go:24-182 | both, of what an interval shows, at every instant in it |
| `Windows.ObservabilityTimestamps` | internal/api/client_observability.go:632-649 | exactly the multiples whose whole bucket lies in the range, one bucket apart, with no 64-bit overflow on the way |
| `Windows.FirstBucket` | internal/api/client_observability.go:633-640 | the first bucket start in the range, or none exactly if 64 bits hold none |
| `Windows.MetricAvailability` | internal/api/client_observability.go:483-517 | the gaps are exactly the missing buckets, joined where they touch; the three states and the count |
| `Windows.RunIsASpan` | internal/api/client_observability.go:505-514 | consecutive buckets make one span |
| `Windows.WindowsAreExact` | internal/api/client_observability.go:590-624 | a device's windows are sorted, do not touch, and cover exactly the time it was on a path |
| `Windows.PathWindowsAreExact` | internal/api/client_observability.go:590-624 | the intervals built for a client give exact windows: a device is in one at t exactly if a path of the interval around t has a node of it |
| `Windows.PresentDevices` | internal/api/client_observability.go:601-608 | the devices on an interval's paths |
| `Windows.ClientIncidentWindows` | internal/api/client_observability.go:590-624 | the map built interval by interval holds the windows of every device that has one, and of no other |
| `Admission.EveryInterleavingIsSound` | internal/api/admission.go:67-249 | over every interleaving of critical sections the counters are the leases, exclusive means alone, and a wait channel stands only while the gate is busy |
| `Admission.CountersAreTheLeases` | internal/api/admission.go:67-185 | counts never underflow: each is the number of leases of its kind held |
| `Admission.NobodySleepsThroughRest` | internal/api/admission.go:206-211 | whenever the gate rests everybody waiting has been woken |
| `Admission.TrueWaitIsFinal` | internal/api/admission.go:222-249 | after `close`, a wait that comes back true means no lease is held then or ever after |
| `Admission.ClosedStaysAtRest` | internal/api/admission.go:67-96 | once closed and at rest, for good |
| `Admission.DoubleReleaseUnderflows` | internal/api/admission.go:108-150 | in any sound world an upgrade leaves no ordinary lease, so that giving the traded one back as well always wraps the counter |
| `Admission.LeaseStays` | internal/api/admission.go:67-185 | whatever others do, a lease stays held until its holder names it, and unheld until then |
| `Admission.HolderMayGiveBack` | internal/api/admission.go:86-95 | a lease held can be given back after any steps of others, and is gone then |
| `Admission.HolderMayUpgradeExactly` | internal/api/admission.go:108-150 | it can be traded for the exclusive one, after any steps of others, exactly when the verdict says so |
| `Admission.ReleaseUnderflowsExactly` | internal/api/admission.go:86-95 | a release wraps the counter of a kind if and only if no lease of the kind is held |
| `Admission.ConflictsAreTheBusy` | internal/api/admission.go:187-195 | the conflicts are exactly the kinds in use, in order |
| `Admission.UpgradeIsCounted` | internal/api/admission.go:108-150 | an upgrade trades one ordinary lease for the exclusive one |
| `GateEffects.BeginsExactly` | internal/api/admission.go:67-84 | an operation begins exactly if the gate is open, no restore holds it, and, while writes are suppressed, it writes to no router |
| `GateEffects.ExclusiveIsAlone` | internal/api/admission.go:108-185 | while the restore's lease is held it is the only one |
| `GateEffects.ExcludesExactly` | internal/api/admission.go:158-185 | the restore's lease is granted at once exactly if the gate is open and nothing is held |
| `GateEffects.TradesExactly` | internal/api/admission.go:108-150 | an ordinary lease is traded for it exactly if it is the only one, the gate open and writes not suppressed |
| `GateEffects.ConflictsAreTheOthers` | internal/api/admission.go:108-150 | a refused trade names exactly the kinds of which somebody else holds a lease, in order |
| `GateEffects.WokenOnlyAtRest` | internal/api/admission.go:86-96 | nobody waiting is woken before the gate has come to rest |
| `GateEffects.StepsOnLeases` | internal/api/admission.go:67-185 | a step gives, takes or trades the leases it names and leaves all others |
| `Admission.OperationGate.Begin` | internal/api/admission.go:67-84 | the five answers, and the one counter that moves |
| `Admission.OperationGate.Release` | internal/api/admission.go:86-95 | the counter goes down and sleepers are woken if that was the last |
| `Admission.OperationGate.Upgrade` | internal/api/admission.go:108-150 | refused in the stated order, with the trial decrement undone; otherwise traded; the conflicts named are the other kinds in use, or the restore that holds the gate |
| `Admission.OperationGate.BeginExclusive` | internal/api/admission.go:158-185 | granted exactly to an open, resting gate; otherwise the kinds in use, or the restore that holds it, are named |
| `Admission.OperationGate.Enter` | internal/api/admission.go:229-249 | returns at once from a resting gate, otherwise joins the one channel |
| `Admission.OperationGate.ListConflicts` | internal/api/admission.go:187-195 | the loop lists the kinds in use, in order |
| `Admission.OperationGate.ListHolders` | internal/api/admission.go:197-204 | what `conflicts` answers: the restore alone while it holds the gate, otherwise the kinds in use |
| `Admission.SiteMutex.LockContext` | internal/api/admission.go:348-364 | never granted when stopping has begun; the token is given back in the race |
| `Admission.SiteMutex.TryLock` | internal/api/admission.go:366-374 | granted exactly when nobody holds it |
| `Admission.SiteMutex.Unlock` | internal/api/admission.go:376-383 | the panic is exactly an unlock without a holder |
| `Restores.EveryInterleavingIsSound` | internal/api/restores.go:982-1277 | every critical section keeps the invariant, whatever it is interleaved with |
| `Restores.StoreStaysWithinLimits` | internal/api/restores.go:982-1277 | over every interleaving: at most five uploads and five previews, orders are the keys, every preview's upload is stored, never a preview and a confirmation at once, `running` is what runs |
| `Restores.ConfirmedArtefactsStay` | internal/api/restores.go:1224-1277 | a confirmation keeps its preview and its upload until it concludes |
| `Restores.PruneKeeps` | internal/api/restores.go:1665-1694 | pruning only takes what nothing refers to, and never what is in use |
| `Restores.MakeRoomIsKeyed` | internal/api/restores.go:1600-1640 | making room keeps order and map together and everything held |
| `Restores.MakeRoomIsFrugal` | internal/api/restores.go:1600-1640 | making room evicts no more than the room needs |
| `Restores.PreviewsNeverLackRoom` | internal/api/restores.go:1199-1203 | `errRestoreRetention` cannot happen to a preview |
| `Restores.UploadRoomExactly` | internal/api/restores.go:1600-1621 | an upload is refused for room if and only if the uploads that cannot go, and those under way, are five |
| `Restores.PublishIsSound` | internal/api/restores.go:1097-1114 | publishing spends the slot reserved, though the slot is only released later |
| `Restores.PreviewEndIsSound` | internal/api/restores.go:1389-1452 | the end of a preview gives its slot back and keeps its upload alive as long as itself |
| `RestoreEffects.OnlyCompletedPreviewsAreConfirmed` | internal/api/restores.go:1224-1277 | over every interleaving: what is being confirmed is a completed preview with a plan, and its upload is stored under the digest the preview was made of |
| `RestoreEffects.ConfirmationsExactly` | internal/api/restores.go:1224-1262 | after pruning, a confirmation is granted if and only if the manager is open, nothing is active or confirming, and the preview is in that state |
| `RestoreEffects.RefusalsExactly` | internal/api/restores.go:1224-1262 | why it is refused: the first of the reasons that hold |
| `RestoreEffects.ReservationsExactly` | internal/api/restores.go:982-1009 | a slot is taken exactly if the manager is open, the directory the one opened, and uploads and slots are below five; which refusal is given otherwise |
| `RestoreEffects.PreviewsExactly` | internal/api/restores.go:1175-1203 | a preview starts exactly of a stored upload, the manager open and nothing else under way |
| `RestoreEffects.StartingDoes` | internal/api/restores.go:1204-1222 | the new preview waits, of the digest its upload has now, and nothing is promised of it yet |
| `RestoreEffects.EndingDoes` | internal/api/restores.go:1389-1452 | the state an outcome gives: a request to cancel wins, then the failure; the preview lives a day from its end |
| `RestoreEffects.NothingElseEnds` | internal/api/restores.go:1389-1452 | of a preview that is gone only the slot is left to give back; emptying leaves nothing stored |
| `RestoreEffects.CompletionProlongs` | internal/api/restores.go:1399-1440 | a completed preview's upload lives at least as long as the preview; no other upload is touched |
| `RestoreEffects.CancellationsExactly` | internal/api/restores.go:1580-1598 | a preview can be cancelled until it has ended, and then only asks for it |
| `RestoreEffects.PruningTakesPreviews` | internal/api/restores.go:1665-1694 | which previews go: those past their day, and of the rest one only while five are left, down to four |
| `RestoreEffects.PruningTakesUploads` | internal/api/restores.go:1665-1694 | which uploads go: only ones no preview is left of, expired or for the room of one more, and only if their file went |
| `RestoreEffects.ExpiredUploadsGo` | internal/api/restores.go:1665-1694 | an expired upload that nothing refers to, and whose file goes, is gone |
| `RestoreEffects.OldestGoFirst` | internal/api/restores.go:1600-1640 | room is made of the oldest first |
| `RestoreManager.Manager.MakeUploadRoomLocked` | internal/api/restores.go:1600-1621 | the loop is `MakeRoom` over what is not referenced |
| `RestoreManager.Manager.MakePreviewRoomLocked` | internal/api/restores.go:1623-1640 | the loop is `MakeRoom` over what is not in use |
| `RestoreManager.Manager.PruneLocked` | internal/api/restores.go:1665-1694 | the two filters in place and both loops are `Prune` |
| `RestoreManager.DropAll` | internal/api/restores.go:1665-1691 | the filter in place keeps the rest in order |
| `RestoreManager.Manager.ReserveUpload` | internal/api/restores.go:982-1009 | the first critical section, with its three refusals |
| `RestoreManager.Manager.PublishUpload` | internal/api/restores.go:1105-1112 | the second critical section: the upload is stored, or refused once closed |
| `RestoreManager.Manager.FinishUpload` | internal/api/restores.go:1002-1008 | the last critical section gives the slot back on every way out |
| `RestoreManager.Manager.FenceOff` | internal/api/restores.go:1696-1708 | closing only fences new work off |
| `RestoreManager.Manager.StartPreview` | internal/api/restores.go:1175-1222 | the refusals in order, and the job queued |
| `RestoreManager.Manager.FinishPreview` | internal/api/restores.go:1389-1452 | the outcome on record, the slot free, the store pruned |
| `RestoreManager.Manager.BeginConfirmation` | internal/api/restores.go:1224-1277 | granted, and the slot taken, if and only if, after pruning, the manager is open, nothing is active or confirming, and the preview is completed, has a plan, and its upload is stored under its digest; otherwise the refusals in order |
| `RestoreManager.Manager.FinishConfirmation` | internal/api/restores.go:1263-1275 | the slot free, the store pruned |
| `RestoreManager.Manager.CancelPreview` | internal/api/restores.go:1580-1598 | the refusals, and the request marked |
| `RestoreManager.Manager.Empty` | internal/api/restores.go:1725-1748 | everything is emptied if and only if the directories are the ones opened, every upload went, and the leftovers went; whether closing the directories worked only shows in the answer |
| `RestoreConfirmation.Resources.HandleConfirmRestore` | internal/api/restores.go:627-877 | on every exit each thing taken was given back once; the pair was cleaned up or handed on, never both; a restart was requested exactly for an accepted restore, with the pair handed on under the exclusive lease, authorization recorded and admission closed; the response is the one the first failure calls for |
| `RestoreConfirmation.WhyRequestsAreRefused` | internal/api/restores.go:627-643 | when the answer is that the transport or the body is unfit, or that there is no such preview |
| `RestoreConfirmation.WhyItIsIncomplete` | internal/api/restores.go:644-663 | which response a plan id, an acknowledgement or a passphrase that is missing or unfit calls for, in order |
| `RestoreConfirmation.WhyItIsNotBegun` | internal/api/restores.go:664-690 | when the answer is that restores are unavailable, that the preview is not ready, or that one is active |
| `RestoreConfirmation.WhyTheManagerRefuses` | internal/api/restores.go:676-692 | when the answer is that a confirmation is active, or that the manager is shutting down |
| `RestoreConfirmation.WhyItIsNotAdmitted` | internal/api/restores.go:697-709 | when the answer is that password work is busy, or that no operation was admitted |
| `RestoreConfirmation.WhyChangesAreReported` | internal/api/restores.go:670-810 | when the answer is that the router wants review, or that the plan changed: each comes from two places |
| `RestoreConfirmation.WhyUploadsAreReported` | internal/api/restores.go:685-775 | when the answer is that the upload changed: it comes from three places |
| `RestoreConfirmation.WhyPreparationFails` | internal/api/restores.go:725-850 | when the answer is that authentication or preparation failed, or that the confirmation was interrupted |
| `RestoreConfirmation.WhyLateAnswers` | internal/api/restores.go:785-850 | which response a refused trade, a failed audit and a failed transfer call for |
| `RestoreConfirmation.WhatFollowsTheHandOver` | internal/api/restores.go:836-877 | once the pair is handed on: a failure to finish, an invalid intent, or accepted, exactly if nothing failed |
| `RestoreConfirmation.WhyCleanupFails` | internal/api/restores.go:718-850 | a failed cleanup is reported exactly if the pair was still to be cleaned up and could not be |
| `RestoreConfirmation.Resources.WithPair` | internal/api/restores.go:767-877 | the part that holds the prepared pair |
| `RestoreConfirmation.Resources.Exclusively` | internal/api/restores.go:812-877 | the part that holds the exclusive lease |
| `RestoreConfirmation.AcceptingKeepsTheDiscipline` | internal/api/restores.go:701-877 | on a gate shared with anybody, other steps in between: an accepted restore closes the gate for good, gives the exclusive lease back, and holds none then |
| `RestoreConfirmation.FailingLateKeepsTheDiscipline` | internal/api/restores.go:701-850 | on such a gate a confirmation may trade its lease exactly when the gate allows it, then give the exclusive one back, and holds none then |
| `RestoreConfirmation.GivingUpKeepsTheDiscipline` | internal/api/restores.go:701-795 | on such a gate a confirmation that gives up may give back its lease, and holds none then |
| `Unadopt.Unadopt` | internal/adoption/adopt.go:275-361 | at every return what is reverted and what remains make up what was owned; undisturbed, nothing reverted is still committed and no config is half handed back; the footprint is touched only with every owned section gone. Login, ACL, footprint and verdict are then what the removal answered; with everything handed back it is touched exactly if there was an operator, and an operator is asked for exactly if there was none; a run without losses hands everything back; a failure names the config, and what it left staged was reverted or is reported |
| `Unadopt.HandBackAll` | internal/adoption/adopt.go:275-345 | every config is handed back, or the verdict names the first that failed; complete exactly if all of them were; without a controller only nothing can be handed back |
| `Unadopt.RemoveFootprint` | internal/adoption/adopt.go:346-361 | without an operator nothing is touched and one is asked for; otherwise the report says of login, ACL and footprint exactly what the removal answered |
| `Unadopt.HandBack` | internal/adoption/adopt.go:302-337 | one config: handed back whole, or untouched, with no delta left on it once the revert was answered; a reply lost on the commit leaves either |
| `Unadopt.MarkSections` | internal/adoption/adopt.go:304-313 | every section of the config is marked for deletion, or some call failed; nothing else is staged |
| `Unadopt.LandingHandsBack` | internal/adoption/adopt.go:324-337 | a landed commit removes exactly the owned sections, besides what the session itself had staged |
| `Unadopt.HandedBackIsGone` | internal/adoption/adopt.go:338-341 | a config handed back holds none of its owned sections |
| `Unadopt.DividedOneMore` | internal/adoption/adopt.go:338-339 | the report stays a partition of what is owned |
| `Unadopt.SplitIsAPartition` | internal/adoption/adopt.go:488-506 | splitting by config loses and doubles nothing |
| `Unadopt.ConfigsAreDistinct` | internal/adoption/adopt.go:476-486 | the configs, each once, cover every section |
| `Unadopt.DistinctConfigs` | internal/adoption/adopt.go:476-486 | the loop computes the configs in order of first section |
| `Unadopt.RemoveSections` | internal/adoption/adopt.go:498-506 | the filter in place leaves the sections of the other configs |
| `Throttle.NoWindowHoldsMore` | internal/api/auth.go:364-408 | over every run, sweeps in between and counted since the last success: no window of time holds more than 2*max - 2 failures of one address, or one for a maximum of one, the lockout being no shorter than the window |
| `Throttle.FailuresAreSpread` | internal/api/auth.go:364-408 | any 2*max - 1 failures in a row take at least the window |
| `Throttle.ShippedLimitsHold` | internal/api/auth.go:353-408 | with the limits shipped, at most eighteen failures of one address in any five minutes without a success |
| `Throttle.TheBoundIsReached` | internal/api/auth.go:364-408 | the bound is met for every maximum of at least two and every window above one: 2*max - 2 failures within one window |
| `Throttle.EveryRunIsSound` | internal/api/auth.go:364-408 | the counters stand for the failures counted together |
| `Throttle.RefusedExactly` | internal/api/auth.go:364-408 | over every run an address is refused exactly until the lockout after its last failure, if that was at least the maximum counted together |
| `Throttle.WhatIsForgotten` | internal/api/auth.go:394-408 | a sweep keeps exactly the counts that are young or still locked, a success forgets one address, and no other count changes |
| `Throttle.HistoriesGrow` | internal/api/auth.go:364-398 | what each step does to the failures of an address the laws speak of |
| `Throttle.Throttler.Allow` | internal/api/auth.go:364-378 | the answer, and a wait that is the shortest after which the answer is yes |
| `Throttle.Throttler.Fail` | internal/api/auth.go:380-392 | a stale count starts over; the maximum locks |
| `Throttle.Throttler.Sweep` | internal/api/auth.go:400-408 | exactly the counts that are stale and past their lockout go |
| `JsonString.RoundTrip` | internal/api/backups.go:464-559 | every sequence of Unicode scalar values within the limit, in every lawful spelling, decodes to its own UTF-8 |
| `JsonString.DecodesExactly` | internal/api/backups.go:464-559 | what is decoded is exactly what proper pieces spell, within the limit and in valid UTF-8 |
| `JsonString.UnpairedSurrogatesAreRefused` | internal/api/backups.go:522-538 | a surrogate without its other half is refused as such, wherever it stands |
| `JsonString.BadBytesAreRefused` | internal/api/backups.go:474-509 | bad escapes, a u without four digits, control characters and a trailing backslash are refused after any proper pieces, each with its own error |
| `JsonString.UnquotedIsRefused` | internal/api/backups.go:464-473 | "not a string" is said exactly of what does not stand between quotes |
| `JsonString.EscapesAreTheStandard` | internal/api/backups.go:486-509 | the short escapes are those of section 7 of RFC 8259 |
| `JsonString.DigitsAreTheStandard` | internal/api/backups.go:540-559 | a byte is a digit of value v exactly if it is the v-th of 0-9a-f or of 0-9A-F |
| `JsonString.FourDigitsWeigh` | internal/api/backups.go:540-559 | four digits weigh 4096, 256, 16 and 1 |
| `JsonString.PairsAreUtf16` | internal/api/backups.go:522-538 | a surrogate pair is the UTF-16 of its scalar |
| `JsonString.Utf8IsTheStandard` | internal/api/backups.go:512-519 | the bytes written for a scalar are its UTF-8 by section 3 of RFC 3629: their number, their marks and the bits they carry |
| `JsonString.BareQuotesAreTaken` | internal/api/backups.go:474-485 | a bare quote between any proper pieces is taken as it stands, although nothing lawful is written that way |
| `JsonString.PiecesAreUnique` | internal/api/backups.go:474-509 | a string is made of proper pieces in one way only |
| `JsonString.WritingOf` | internal/api/backups.go:464-559 | accepted pieces without a bare quote are a lawful writing of the characters they mean |
| `JsonString.OnlyBareQuotesDepart` | internal/api/backups.go:464-559 | the exact departure: what the pieces spell has a lawful writing, and then of the same characters, if and only if none of them is a bare quote |
| `JsonString.ValidMeansEncoded` | internal/api/backups.go:512-519 | the UTF-8 check accepts exactly the encodings of scalar values |
| `JsonString.DecodeJSONString` | internal/api/backups.go:464-520 | the loop with its cursor is `Decode` |
| `JsonString.DecodeEscape` | internal/api/backups.go:486-509 | one escape: what it stands for and how much of it was used, or the refusal |
| `JsonString.DecodeJSONUnicode` | internal/api/backups.go:522-538 | the unit or the pair, and how much of it was used |
| `JsonString.DecodeHex4` | internal/api/backups.go:540-559 | the value of four hexadecimal digits, or none |

## Left out

- HTTP handlers, cookies, audit text and JSON views: plumbing; only the confirmation handler's flow of resources is modelled.
- Storage, SSH, webhooks, TLS and the file system: calls that may fail, lose their reply or refuse, as parameters.
- Cryptography and hashing: identities of artefacts are opaque values.
- Backups, diagnostics and speed tests: the same manager with fewer states.
- `requestGate`: the operation gate with one kind and no exclusive lease.
- UciDevice.Device.StageOp: adds a delete of one option, which the engine sends and the simulator ignores; a batch is its executed prefix.
- UciDevice.Device.NewLogin: the simulator's credentials and its session expiry are not modelled.
- Link.Line.GetCall: the client's own re-login after a dead token, outside the confirm window, is not modelled; a dead token just answers "denied".
- Link.Line.ListCall: what other people have staged in the save directory is theirs to choose.
- ApplyEngine.Engine.RunHealth: the health check is an arbitrary verdict after an arbitrary time.
- ApplyEngine.Engine.StageOne: an unnamed section gets an arbitrary name.
- AlertManager.Record.Evaluate: float thresholds are reals with NaN and the infinities apart; `Since` is a value, as it is after every save, not an alias into the record.
- AlertManager.Manager.SetDelivery: the contents of the sealed destination and the URL's syntax are parameters.
- AlertManager.Manager.Tick: `List` and the ticker loop around it are not modelled.
- PathBuild.WalkPaths: labels are left out; they are a function of the nodes. The sort of parents is stable, so two edges with the same child, parent and id keep their order.
- Windows.ClientIncidentWindows: the windows are left in their map; the source goes on to list them by ascending device.
- Restores.Prune: within one critical section a file that will not go keeps refusing.
- Restores.Publishing: upload and preview ids are fresh; the random source is not modelled.
- RestoreConfirmation.Resources.HandleConfirmRestore: the answers of the rest of the server are one value chosen beforehand; texts and status codes are one constructor each.
- Unadopt.Unadopt: the removal of login and ACL over SSH is one call that works or fails; error texts and the cleanup commands are left out.
- JsonString.DecodeJSONString: the wiping of the buffer on errors is not modelled.
