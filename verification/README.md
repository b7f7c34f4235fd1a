# pathosd: hot reload and route control

A Dafny model of the part of pathosd that decides which routes are originated, and of the
protocol that changes its configuration while it runs. `dafny verify dfyconfig.toml` checks the
whole project.

The centre is one transition system, `System`: check schedulers, the scheduler registry, the
policy manager's entries, the originated routes and the reloader's stagings. Each event is one
critical section of the program (a check run, the delivery of one callback, one step of a reload,
one verdict, one expiry), and events interleave in any order, with any check results, drain-file
readings, BGP failures and clock values. `Safety`, `ReloadSafety` and `CommitSafety` prove an
invariant of every event; `Runs` and `Staging` draw the consequences over every run: routes follow
the whole check histories, schedulers are conserved, staged changes wait and hand over without a
break. `Outcomes` says the same in terms of the configuration's own fields, and what every result,
transition and commit settles; `Verdicts` that no shadow's verdict is lost.

On top of it a reload of a file is modelled from the diff to the bookkeeping. `Diff` and `Build`
say which checks change and which schedulers are built for them, job by job, with a failure at any
job. `Reload`, `ReloadRuns` and `Batch` say what a reload should make of every VIP and what its
steps are; `Weave` and `Course` let check runs and callbacks interleave between any two of these
steps and prove that every VIP still meets its fate; `Rejection` does the same for a reload whose
build fails; `Planned` says beforehand what an uninterrupted reload will do. `Daemon` puts these
together as moves of the daemon and proves what every sequence of moves from startup keeps, and
that each is a run of `System`. `Convergence` follows sequences of reloads, `CommitLoop` the loops
that consume verdicts and deadlines, and `Witness` shows that the assumptions can be met.
`Handover` and `Wakeup` open up two critical sections and consider every interleaving inside them.

The objects that the program updates in place are classes whose methods are proved against the
specification functions: `Scheduler` (in `Hysteresis`), `Registry`, `Manager` (in
`PolicyManager`), `Originator` (in `Rib`) and `Reloader`. `Program` puts registry, policy manager
and originator together and performs the steps of a reload on them; `Refinement` proves that this
program refines `System`, event by event and over whole runs. `Reloader` drives these objects
through whole reloads, commit loops and expiries, and each reload is one move of `Daemon`.
`RegistryLoop` keeps the array that `Registry.RemoveVIP` shares with the list it deletes from.
`Placeholder`, `Community` and `Standby` cover the config text, the community codec and the
ranking of standby nodes.

Where the stated intent does not hold of the code, the code is modelled as it is, and there is a
concrete case (two of them in `Hazards`, as runs from startup) and the exact condition:

| intent | fails | holds exactly when |
|---|---|---|
| a commit brings state and route in line with the new definition | `CommitLeavesStaleRoute` | some check of it is known, or the VIP is withdrawn (`CommitOkIff`, `KeepsCommitNowIff`) |
| removing a VIP withdraws its route | `OrphanRoute` | the VIP is not held as withdrawn while its route is installed (`KeepsRemoveIff`) |
| a prefix has one owner | `SharedPrefix` | no registered VIP has the prefix of the added one (`KeepsAddIff`) |
| `Registry.RemoveVIP` stops every scheduler of a VIP | two or more listed schedulers | at most one is listed (`RemoveVipInPlace`) |
| the handover loses no transition | `StaleDelivery` | nothing has to be delivered, the value read still holds, or a newer one is under way (`TwoStepsIff`) |
| a degraded node never outranks a healthy one | `DegradedOutranksHealthy` | every lower_priority prepend exceeds the gaps between base prepends (`StandbyOrderIff`) |
| escapes are restored in text free of the sentinel | `SentinelFreeIsNotEnough` | no plain character begins a sentinel in the marked text (`PipelineIff`) |
| an escaped text comes back from expansion | `EscapeLosesText` | no character that opens nothing begins what reads like the sentinel once every opening is marked (`EscapeRoundTripIff`) |

The theorems over runs assume the first three conditions for the events of a reload (`Benign`; in
a reload `Awaited`, at the moment of each step, or `Unhindered`, beforehand), and iteration over a
copy in `Registry.RemoveVIP`; the final compare of a commit and its delivery are one step in
`System`.

What the environment decides is a parameter: check results, whether the drain file exists, the
outcome of every BGP call (`Done`, `Kept`, `Dropped`) or, at the originator, the answers of the
BGP server (`Weather`), which guards and checkers cannot be built (`Oracle`), the clock, the
numbers of new schedulers, and the files that are reloaded. A file hash is the file itself: hashes
are taken to be injective and never all-zero.

## Model

| member | source | states |
|---|---|---|
| `Hysteresis.CountersAreCappedRuns` | internal/checks/scheduler.go:187-221 | for every history the two counters are the lengths of the trailing success and failure runs, capped at rise and fall |
| `Hysteresis.UpIsVerdict` | internal/checks/scheduler.go:191-221 | the healthy flag holds exactly when some run of `rise` successes is not followed by a run of `fall` failures |
| `Hysteresis.EverUpIsRoseOnce` | internal/checks/scheduler.go:196-207 | the flag was ever set exactly when a run of `rise` successes occurred |
| `Hysteresis.UndecidedIsDown` | internal/reload/reload.go:505-507 | a scheduler that never reached a threshold is not healthy |
| `Hysteresis.TransitionsAlternate` | internal/checks/scheduler.go:189-234 | emitted transitions alternate starting with healthy, and the flag is the last one emitted |
| `Hysteresis.TransitionsAreDamped` | internal/checks/scheduler.go:191-221 | k transitions need at least ceil(k/2)*rise + floor(k/2)*fall results |
| `Hysteresis.Scheduler.RunCheck` | internal/checks/scheduler.go:187-224 | the counters updated in place stay those of the history; what is captured for delivery is the sink at that moment and, for the policy sink only, the transition of this very result |
| `Hysteresis.Scheduler.SetCallbacks` | internal/checks/scheduler.go:110-115 | only the sink changes |
| `Hysteresis.Scheduler.HasVerdict` | internal/reload/reload.go:461-464 | the shadow callback's test is that a threshold is reached by the history |
| `Policy.NewEntryOk` | internal/policy/manager.go:98-123 | a fresh entry of a validated VIP is withdrawn, coherent with its checks and wants no route |
| `Policy.OnTransitionOk` | internal/policy/manager.go:125-176 | a transition keeps health, state and route in line and changes exactly the named check |
| `Policy.OnResultOk` | internal/policy/manager.go:211-262 | a result keeps health, state and route in line, whatever the drain file and both BGP attempts do |
| `Policy.CommitOkIff` | internal/policy/reload.go:70-134 | a commit leaves state and route in line with the new definition if and only if a check of it is known or the VIP is withdrawn |
| `Policy.CommitLeavesStaleRoute` | internal/policy/reload.go:114-117 | a concrete validated change after which an announced VIP stays announced with unknown health |
| `Policy.TruthMonotone` | internal/config/checkspolicy.go:92-100 | a negation-free policy expression stays true when more checks are healthy |
| `Policy.HoldsMonotone` | internal/config/checkspolicy.go:75-100 | the same for `all`, `any` and expressions as evaluated |
| `Policy.PoliciesAreExpressions` | internal/config/checkspolicy.go:75-100 | `all` and no policy combine the checks as the conjunction of their names does, `any` as their disjunction does |
| `Policy.NormalMeans` | internal/config/checkspolicy.go:92-100 | pushing every negation of an expression down to the names preserves its meaning |
| `Policy.CommitKeepsRoute` | internal/policy/reload.go:82-134 | same names, same negation-free policy, healthy before, no healthy check seeded unhealthy: the commit makes no withdraw call and the VIP stays healthy |
| `PolicyManager.Eval` | internal/config/checkspolicy.go:75-100 | without a policy and under `all`: there is a name and every one is healthy; under `any`: one is; otherwise the expression; missing names count as unhealthy |
| `PolicyManager.CombineHealth` | internal/policy/manager.go:181-197 | the fold gives unknown exactly while no check is known, healthy exactly when the policy is met by the healthy checks |
| `PolicyManager.NewVipEntry` | internal/policy/manager.go:98-123 | withdrawn, every check unknown, the drain flag as read; an expression over unknown names falls back to `all`, any other policy stands |
| `PolicyManager.NextChecks` | internal/policy/reload.go:82-99 | succeeds exactly when every check has a seed or a running state; each then has its seed, or without one its running state |
| `PolicyManager.Manager.ApplyBgp` | internal/policy/manager.go:426-440 | one call to the originator, after which the route at the prefix is what the answer makes of it and every other route stands |
| `PolicyManager.Manager.AddVip` | internal/policy/reload.go:26-37 | a new name gets a fresh entry at the end of the order, a known one is left alone |
| `PolicyManager.Manager.RemoveVip` | internal/policy/reload.go:43-63 | withdraws unless withdrawn; forgets the VIP, in map and order, unless that call fails; no other route is touched |
| `PolicyManager.Manager.OnHealthTransition` | internal/policy/manager.go:125-176 | the entry, the calls and, through the originator, the route become exactly those of the specification; other entries and routes stand |
| `PolicyManager.Manager.OnCheckResult` | internal/policy/manager.go:211-262 | drain file first, then the retry: exactly the specified entry, calls and route |
| `PolicyManager.Manager.CommitVip` | internal/policy/reload.go:70-134 | refused without a trace exactly when unknown, moved, unseeded or not compiling; otherwise the specified entry, calls and route |
| `Safety.KeepsRun` | internal/checks/scheduler.go:187-224 | a check run keeps the daemon invariant, including what the policy was told of every check |
| `Safety.KeepsResult` | internal/policy/manager.go:211-262 | delivering a result keeps the invariant; a shadow's result reaches the verdict queue at most |
| `Safety.KeepsTransition` | internal/policy/manager.go:125-176 | delivering a transition keeps the invariant |
| `ReloadSafety.KeepsDrop` | internal/reload/reload.go:587-598 | dropping the stagings keeps the invariant, closes every shadow once, leaves none running and no verdict queued, and touches no VIP, list or route |
| `ReloadSafety.KeepsRemoveIff` | internal/policy/reload.go:43-63 | removing a VIP keeps the invariant if and only if it is not held as withdrawn while its route is installed |
| `ReloadSafety.KeepsAddIff` | internal/reload/reload.go:283-296 | adding a VIP keeps the invariant if and only if no registered VIP owns its prefix |
| `ReloadSafety.KeepsStage` | internal/reload/reload.go:315-320 | staging a change keeps the invariant |
| `Hazards.OrphanRoute` | internal/policy/reload.go:50-57 | a run from startup after which a removal makes no call and leaves a route without owner |
| `Hazards.SharedPrefix` | internal/reload/reload.go:283-289 | a run from startup in which an announced VIP cannot be withdrawn and the addition of the same reload gives its prefix a second owner |
| `CommitSafety.NeverRefused` | internal/policy/reload.go:70-106 | `CommitVIP` accepts every definition the reloader hands it |
| `CommitSafety.KeepsCommitNowIff` | internal/reload/reload.go:301-314 | an immediate commit keeps the invariant if and only if a kept check is known or the VIP is withdrawn |
| `CommitSafety.KeepsReport` | internal/reload/reload.go:486-498 | consuming a verdict, with the commit it may complete, keeps the invariant |
| `CommitSafety.KeepsExpire` | internal/reload/reload.go:512-526 | a commit at the deadline keeps the invariant |
| `Runs.StepKeepsIff` | internal/reload/reload.go:187-598 | every event of the daemon keeps the invariant exactly when it is none of the three hazards |
| `Runs.RoutesFollowHistories` | internal/policy/manager.go:125-262 | over every run, the route of a VIP with nothing pending and nothing undelivered is absent while no check is known and otherwise exactly what policy, drain flag and the rise/fall verdicts on the whole check histories call for; its visible schedulers are those of its governing definition |
| `Outcomes.HealthFollowsHistories` | internal/policy/manager.go:181-197 | over every run, once the callbacks are delivered: under `all` or no policy a VIP is healthy exactly when the whole history of every governing check says up, under `any` when one does, under an expression when it is true of those that do; it is unknown exactly while no check rose or was seeded |
| `Outcomes.RouteServes` | internal/policy/engine.go:8-71 | over every run, the route of a VIP with nothing pending, in terms of the configuration: none while unknown or unhealthy under `withdraw`; exactly the announce block when healthy and not drained; both prepends together, strictly longer, and the communities of both in first-seen order when healthy and drained or unhealthy under `lower_priority` |
| `Outcomes.ResultSettles` | internal/policy/manager.go:211-262 | after a result the drain flag is what was read; a call is made exactly when an operation was pending or the state changes, each for the route called for; the operation is pending only if its last attempt failed |
| `Outcomes.DeliverySettles` | internal/policy/manager.go:211-262 | from every state of the daemon, delivering a visible check's result whose last BGP call succeeds leaves nothing pending, the drain flag as read and the route called for |
| `Outcomes.EveryDeliverySettles` | internal/policy/manager.go:256-261 | the same over every run from startup: a failed operation is repeated until it succeeds |
| `Outcomes.TransitionSettles` | internal/policy/manager.go:125-176 | a transition that leaves the VIP's health changes only the check; one that changes it records the drain file and makes exactly one call if the state changes, pending exactly if it failed |
| `Outcomes.UnknownName` | internal/policy/manager.go:142-152 | a name that is not known means the only check, and nothing at all if there are several |
| `Outcomes.CommitSettles` | internal/policy/reload.go:108-134 | a commit that leaves a known check records the drain file and makes at most one call, for the route called for; nothing is pending after a success unless a withdraw was pending and the VIP stays withdrawn |
| `Outcomes.StagedCommitSettles` | internal/reload/reload.go:541-558 | the same for the commit of every staged VIP, from every state of the daemon |
| `Outcomes.UnnamedCheck` | internal/config/config.go:673-678 | a VIP with one check that has no name knows it by its kind |
| `Outcomes.PlainCheck` | internal/reload/reload.go:436-443 | a check without thresholds of its own rises with the first success and falls with the third failure in a row; without an interval it is given twelve seconds to prove itself |
| `Runs.SchedulersConserved` | internal/checks/registry.go:61-113 | over every run a scheduler handed out is listed, a shadow, or closed once, never two of these, and runs exactly until closed |
| `Runs.ClosedIsSilent` | internal/reload/reload.go:486-490 | no event of a closed scheduler is possible and its drained verdict is ignored |
| `Runs.ClosedStaysClosed` | internal/reload/reload.go:665-671 | no event reopens a scheduler |
| `Staging.StagingWaits` | internal/reload/reload.go:98-104 | over every run a staged VIP has strictly fewer verdicts than shadows, each backed by a threshold reached, is governed by its old definition, and its deadline is at least four times rise and four times fall intervals away for every shadow, with equality for one |
| `Staging.CommitGate` | internal/reload/reload.go:478-535 | a staging ends only by a later reload, at its deadline, or when every shadow has reached a verdict |
| `Staging.UndecidedSeed` | internal/reload/reload.go:554-557 | the seed of a shadow is the verdict on its history; without a verdict it is unhealthy |
| `Staging.ShadowsAreSilent` | internal/reload/reload.go:459-475 | no sequence of shadow results changes a policy entry, a route or a staging, or makes a BGP call |
| `Staging.MakeBeforeBreak` | internal/reload/reload.go:541-558 | after any run of the daemon, if at the moment of its commit a staged change has the same names and negation-free policy, the VIP is healthy and no healthy check is unhealthy in its shadow, the commit makes no withdraw call and the VIP stays up under the new definition |
| `Verdicts.VerdictsAreReported` | internal/reload/reload.go:459-475 | over every run, a staged shadow with nothing in flight is queued, drained or noted if and only if its history at some time ended in `rise` successes or in `fall` failures |
| `Verdicts.NoneOverdue` | internal/reload/reload.go:478-502 | over every run, once the queues are consumed every staging left waits for a shadow that has a callback to deliver or never reached a threshold |
| `Verdicts.QueuedOnce` | internal/reload/reload.go:465-467 | over every run no scheduler is queued twice |
| `CommitLoop.ReportIs` | internal/reload/reload.go:486-498 | one drained verdict is ignored when superseded, noted, or completes exactly its own staging |
| `CommitLoop.ConsumedOneMore` | internal/reload/reload.go:486-498 | consuming verdicts one by one leaves staged exactly what still waits for a shadow |
| `CommitLoop.DrainedIsConsumed` | internal/reload/reload.go:478-502 | under any interleaving of the commit loop with check runs and callbacks, what is still staged at its end is exactly what still waits for a shadow, with the verdicts noted |
| `CommitLoop.ExpiredIsCommitted` | internal/reload/reload.go:508-535 | under any interleaving of the expiry loop, exactly the stagings whose deadline is ahead remain, untouched |
| `Diff.AddedIs` | internal/config/diff.go:86-98 | added are the candidate's VIPs that are new or moved to another prefix |
| `Diff.RemovedIs` | internal/config/diff.go:86-106 | removed are the running VIPs that are gone or moved, each once |
| `Diff.ChangedIs` | internal/config/diff.go:99-103 | changed are the candidate's VIPs that run on the same prefix with another definition |
| `Diff.DiffVips` | internal/config/diff.go:79-108 | the loops produce exactly these lists in this order |
| `Diff.DiffVip` | internal/config/diff.go:110-134 | the checks to prove are those that are new, redefined or under a changed guard; the removed ones are those absent from the candidate |
| `Diff.ProvingIs` | internal/config/diff.go:110-134 | the checks to prove are exactly those of the list that are new, redefined or under another guard |
| `Diff.FourWindows` | internal/reload/reload.go:98-104 | the grace of a check is four times its larger threshold at one probe per interval |
| `Batch.Others` | internal/reload/reload.go:269-321 | a reload event about one VIP leaves every other VIP and its schedulers alone |
| `Batch.BatchRuns` | internal/reload/reload.go:269-321 | events about different VIPs that are ready one by one run through together, and each VIP ends as its own event alone would leave it |
| `Build.BuildsPlay` | internal/reload/reload.go:231-259 | the jobs run one after the other from every state and leave exactly the schedulers of all of them waiting, nothing else changed |
| `Build.ClosesPlay` | internal/reload/reload.go:220-226 | closing job by job closes every scheduler of those jobs once and nothing else |
| `Build.FiledCover` | internal/reload/reload.go:236-254 | what the build files under the VIPs are exactly the schedulers it made, each under one VIP |
| `Reload.BuildSupplies` | internal/reload/reload.go:231-259 | a build that succeeds supplies one fresh scheduler per check of an added VIP and per check to prove, built from that definition, and no other |
| `Reload.EffectiveLookup` | internal/reload/reload.go:602-613 | as a map, the effective list is the running config with the governing definition of every staged VIP |
| `Reload.KeptLookup` | internal/reload/reload.go:335-341 | as a map, the running config after a reload is the file with the old definition of every VIP that had to stay |
| `Weave.WeaveRuns` | internal/reload/reload.go:261-321 | steps about different VIPs, interleaved in any way with check runs and callbacks: each can happen when its turn comes, the invariant holds throughout, and every VIP ends as its own step leaves it |
| `Course.CourseMeetsFates` | internal/reload/reload.go:231-321 | under any interleaving an applied reload runs to its end, every VIP meets the fate its governing definition, the file's definition and the outcome of its own withdraw call for, and every scheduler that was built has been taken over or closed |
| `Rejection.RejectedRuns` | internal/reload/reload.go:219-259 | builds and closings under any interleaving: what remains is what the interleaved events alone would leave |
| `Planned.StraightProceeds` | internal/reload/reload.go:231-321 | conditions visible before the reload suffice for it to run uninterrupted, and tell which VIPs will have to stay |
| `Planned.StraightMeetsFates` | internal/reload/reload.go:231-321 | the fate of every VIP under an uninterrupted reload is determined before it starts |
| `Witness.Startup` | internal/policy/manager.go:78-95 | a daemon with one VIP starts: the assumptions about a startup can be met |
| `Witness.StartAndAnnounce` | internal/policy/manager.go:125-176 | a run from startup after which the VIP is announced |
| `Witness.WithdrawalFails` | internal/reload/reload.go:268-282 | a run from startup that ends in a reload whose withdrawal fails: the assumptions about a retry can be met |
| `Witness.ChangeIsStaged` | internal/reload/reload.go:297-321 | from every resting state of that daemon, a file that redefines the check is applied, stages the VIP and leaves it under its old definition |
| `Daemon.EffectiveGoverns` | internal/reload/reload.go:602-613 | the effective VIP list and the policy manager's definitions are equal as maps |
| `Daemon.InternalHeads` | internal/reload/reload.go:478-570 | check runs, callbacks and commits change no definition the running config lists |
| `Daemon.ApplyHeads` | internal/reload/reload.go:210-356 | an applied reload, under any interleaving, keeps the agreement of config and policy, and every VIP meets its fate |
| `Daemon.RejectionIsNoOp` | internal/reload/reload.go:187-259 | a reload rejected as unreadable, restart-only or for a build that fails at any job, with any interleaving of check runs and callbacks: policy entries, routes, registry, stagings, running config, hash and generation are as if only the interleaved events had happened, and what the earlier jobs returned is closed, each scheduler once |
| `Daemon.GoverningDefinitions` | internal/reload/reload.go:210-356 | over every run from startup: effective list equals policy definitions, every visible scheduler was built from its governing check, and every pending commit would be accepted |
| `Daemon.EverySchedulerAccounted` | internal/reload/reload.go:216-321 | over every run from startup every scheduler ever built is listed, a shadow, or closed, exactly one of these and closed at most once |
| `Daemon.DaemonReaches` | internal/reload/reload.go:135-356 | every run of the daemon from startup, its reloads interleaved in any way, is a run of the system |
| `Daemon.RoutesFollowThroughReloads` | internal/reload/reload.go:187-570 | over every run of reloads, rejections, commits and check results, settled routes follow the check histories |
| `Daemon.StagingsWaitThroughReloads` | internal/reload/reload.go:98-104 | over every run of the daemon a staged VIP waits for at least one shadow, and for at most four times the longest window of its shadows |
| `Convergence.BetweenReloads` | internal/reload/reload.go:135-149 | between reloads the running config stands and nothing new is staged |
| `Convergence.Converges` | internal/reload/reload.go:264-346 | after a reload whose withdraws succeeded and the commit of every staging, the policy's definitions are the file's |
| `Convergence.KeepsFailed` | internal/reload/reload.go:331-347 | after a failed withdrawal exactly the VIPs that had to stay keep their definitions and the hash is forgotten |
| `Convergence.RetriesExactly` | internal/reload/reload.go:331-347 | reloading the same file then removes exactly the kept VIPs, adds those that moved, stages again exactly the pending ones and leaves the rest |
| `Convergence.RetryConverges` | internal/reload/reload.go:264-346 | and converges once its withdraws succeed |
| `Convergence.FlagIsTruthful` | internal/reload/reload.go:633-648 | when a poll clears the file-changed flag and nothing is pending, the polled file is what runs |
| `Convergence.ReloadIsRemembered` | internal/reload/reload.go:195-202 | after a reload whose withdraws succeeded, whatever is committed since, the same file changes nothing, with every staging still waiting, and a poll flags exactly the other files |
| `Convergence.RestartOnlyStands` | internal/reload/reload.go:203-208 | over every run the restart-only part of the config stands, and every file with another one is rejected |
| `Convergence.SupersededLeavesNoTrace` | internal/reload/reload.go:210-212 | a VIP that one reload only staged is classified by the next, different file as without that reload, and meets the fate of its older definition |
| `Convergence.SupersededIsSilent` | internal/reload/reload.go:587-598 | no shadow of a superseded staging can act or be counted in any later state |
| `Reloader.StagingDeadline` | internal/reload/reload.go:98-104 | at least four times rise and four times fall intervals from now for every check, and equal to one of these |
| `Reloader.NewSchedulers` | internal/reload/reload.go:397-455 | one scheduler per check, each from its definition and under its name; fails exactly when the guard is asked for and cannot be made, or a checker cannot |
| `Reloader.Reloader.BuildAll` | internal/reload/reload.go:216-259 | the build loops: on success exactly the schedulers of all jobs wait, filed by VIP and check, and every staging record has the diff's checks and the computed deadline; on a failure at any job exactly what the earlier jobs returned is closed and nothing else has changed |
| `Reloader.PutBack` | internal/reload/reload.go:335-341 | the loop puts the old definition of every kept VIP back, in place or at the end |
| `Reloader.Reloader.EffectiveVips` | internal/reload/reload.go:602-613 | the loop computes the effective list |
| `Reloader.Reloader.RemoveAll` | internal/reload/reload.go:268-282 | the loop stops, withdraws, forgets and closes on the objects, VIP by VIP, or registers again; it performs exactly the removals of the plan and collects exactly the VIPs whose withdraw failed when their turn came |
| `Reloader.Reloader.AddAll` | internal/reload/reload.go:283-296 | the loop over policy manager and registry performs exactly the additions of the plan; a VIP that had to stay only has its new schedulers closed |
| `Reloader.Reloader.ChangeAll` | internal/reload/reload.go:297-321 | the loop commits on the objects or stores the record of the build and starts its shadows; whatever the commits are answered, the outcome is the plan's with those answers |
| `Reloader.UnhinderedWhatever` | internal/reload/reload.go:187-356 | conditions visible before a reload suffice for it to proceed whatever its commits are answered |
| `Reloader.Reloader.ReloadConfig` | internal/reload/reload.go:187-356 | diff, build, drop, removals, additions, changes and bookkeeping, performed on registry, policy manager and originator, are one move of the daemon with the answers the BGP server gave; the outcome is reported truthfully, config and policy stay in agreement, and the objects stay on a run of the system |
| `Reloader.Reloader.CommitReady` | internal/reload/reload.go:478-502 | after draining and committing on the objects, what is still staged is exactly what still waits for a shadow, with the verdicts noted; no staging is left whose shadows have all decided and been heard |
| `Reloader.Reloader.ExpireStaged` | internal/reload/reload.go:508-535 | commits every staged VIP past its deadline on the objects, and no other |
| `Handover.ActKeeps` | internal/reload/reload.go:541-570 | every step of commit and shadow keeps what the phase of the commit promises |
| `Handover.HandoverLosesNothing` | internal/reload/reload.go:541-570 | for every interleaving of a shadow's runs and deliveries with seed, commit, attach and an atomic final compare, once nothing is under way the policy holds the check healthy exactly when its scheduler is |
| `Handover.TwoStepsIff` | internal/reload/reload.go:561-568 | with compare and delivery as two steps, as written, policy and scheduler end in step if and only if nothing had to be delivered, the value read still holds, or a newer transition is under way |
| `Handover.HandoverAsWritten` | internal/reload/reload.go:541-570 | with compare and delivery as two steps, as written, every interleaving in which the value holds when it is delivered ends with policy and scheduler in step |
| `Handover.StaleDelivery` | internal/reload/reload.go:561-568 | a concrete interleaving that leaves a healthy check held as unhealthy |
| `Wakeup.NoLostWakeup` | internal/reload/reload.go:459-483 | in every interleaving a queued verdict has a token, a callback about to send one, or a loop about to take the queue; queued verdicts are conserved |
| `Wakeup.QueueIsTaken` | internal/reload/reload.go:135-149 | from every such state pending sends and the loop's own steps take the whole queue |
| `Registry.Registry.Add` | internal/checks/registry.go:40-47 | appends one scheduler, runs it once started, keeps one per check name |
| `Registry.Registry.AddShadow` | internal/checks/registry.go:51-55 | runs one scheduler unlisted |
| `Registry.Registry.Promote` | internal/checks/registry.go:61-85 | replaces exactly the scheduler of the same check, which stops, or appends; running stays visible plus shadows |
| `Registry.Registry.Remove` | internal/checks/registry.go:88-103 | stops and unlists exactly the given scheduler |
| `Registry.Registry.RemoveVip` | internal/checks/registry.go:106-113 | iterating over a copy, leaves no scheduler of the VIP listed or running and touches no other |
| `Registry.Registry.Start` | internal/checks/registry.go:127-138 | runs everything listed and nothing else |
| `Registry.Registry.Stop` | internal/checks/registry.go:141-159 | nothing runs, the lists stay |
| `RegistryLoop.DeleteAt` | internal/checks/registry.go:93-94 | deleting shifts the backing array and clears the freed place |
| `RegistryLoop.RemoveVipInPlace` | internal/checks/registry.go:106-113 | the loop over the shared backing array ends normally if and only if at most one scheduler is listed; otherwise it reads a cleared place after half of them and the odd ones are still listed |
| `Rib.BuildAsPath` | internal/bgp/manager.go:578-584 | the local ASN repeated, never a negative number of times |
| `Rib.PathSpells` | internal/bgp/manager.go:423-479 | a path carries the local ASN once per prepend, unless there are iBGP peers, and each community in order; there is none exactly when a community cannot be read |
| `Rib.Originator.BuildPath` | internal/bgp/manager.go:423-479 | the path spells the requested attributes; fails exactly when prefix, next hop or a community is unusable |
| `Rib.Originator.Upsert` | internal/bgp/manager.go:293-344 | whatever fails, the originated paths stay the image of the index; success leaves exactly the requested path, failure the old one or none |
| `Rib.Originator.Withdraw` | internal/bgp/manager.go:252-291 | success leaves no path at the prefix, failure changes nothing |
| `Rib.Originator.Perform` | internal/bgp/manager.go:252-344 | any sequence of calls with any failures follows the route specification the policy model uses |
| `Placeholder.ExpandEnvPlaceholders` | internal/config/load.go:98-130 | the three passes with the set of missing names filled on the way |
| `Placeholder.TwoPasses` | internal/config/load.go:101-117 | the first two passes spell one left-to-right scan with the sentinel for every escape and miss exactly its unset names |
| `Placeholder.ThirdPassIff` | internal/config/load.go:128 | the last pass restores exactly the escapes if and only if no plain character begins a sentinel |
| `Placeholder.PipelineIff` | internal/config/load.go:98-130 | for every text and environment the loader fails exactly when an unescaped placeholder is unset, and otherwise equals the single scan exactly under that condition |
| `Placeholder.NulFreeExpands` | internal/config/load.go:98-130 | texts and values without NUL are always expanded as meant |
| `Placeholder.VariableExpands` | internal/config/load.go:98-130 | for texts and values without NUL: text without a percent sign, then a placeholder whose name has the form of the regular expression, then any text: the value takes the place of the placeholder and the rest is expanded by itself; an unset name is reported with those of the rest |
| `Placeholder.EscapeExpands` | internal/config/load.go:98-130 | likewise an escaped opening becomes the opening |
| `Placeholder.NoNameStays` | internal/config/load.go:98-130 | likewise an opening that no name closes is plain text |
| `Placeholder.PercentStays` | internal/config/load.go:98-130 | likewise any other percent sign is plain text |
| `Placeholder.PlainStays` | internal/config/load.go:98-130 | a text without a percent sign stays as it is |
| `Placeholder.SentinelFreeIsNotEnough` | internal/config/load.go:99-101 | a text free of the sentinel that is expanded wrongly |
| `Placeholder.EscapeRoundTripIff` | internal/config/load.go:98-130 | for every text, expanding it with every opening doubled gives the text back, in any environment, if and only if nowhere in it a character that opens nothing begins what reads like the sentinel once the openings are marked |
| `Placeholder.EscapeRoundTrip` | internal/config/load.go:98-130 | in particular a text without NUL comes back |
| `Placeholder.EscapeLosesText` | internal/config/load.go:98-130 | a text free of the sentinel that does not come back |
| `Community.ParseUint16` | internal/bgp/manager.go:593-600 | the digit loop accepts exactly the non-empty digit strings up to 65535 |
| `Community.PrintParse` | internal/bgp/route_state_metrics.go:157-169 | reading the printed form of any 32-bit community returns it |
| `Community.HalvesRead` | internal/bgp/manager.go:586-604 | the number before the colon is the high half, the one behind it the low half |
| `Community.ReadsAsWritten` | internal/bgp/manager.go:586-604 | a community as it is written in a config is read as that number |
| `Community.ParsePrint` | internal/bgp/manager.go:586-604 | every community read fits 32 bits and survives printing |
| `Community.ParseCommunities` | internal/bgp/manager.go:586-604 | all of the list, or nothing |
| `Community.ValidateCommunities` | internal/config/validate.go:685-701 | complains about exactly the entries that cannot be read; accepts exactly the lists that parse |
| `Community.ListRoundTrip` | internal/bgp/route_state_metrics.go:157-169 | printing a list and reading it back preserves it as a multiset, in string order |
| `Standby.StandbyOrderIff` | internal/policy/engine.go:43-71 | every degraded eBGP node ranks behind every healthy one, for every choice of degraded nodes, if and only if each lower_priority prepend exceeds the gaps between base prepends |
| `Standby.DegradedOutranksHealthy` | internal/policy/engine.go:46-48 | a validated pair for which the comment's promise fails |
| `Standby.BaseOrderKept` | internal/policy/engine.go:31-71 | within each group the base prepends decide |
| `Standby.Lengths` | internal/config/validate.go:660-678 | prepends of validated routes never exceed 32 and iBGP routes carry none |
| `Standby.MergeCommunities` | internal/policy/engine.go:74-90 | the loop computes the duplicate-free union in first-seen order |
| `Program.Program.RemoveVip` | internal/reload/reload.go:268-282 | stop, withdraw, forget and close, or register again in the same order: on the objects this is the removal event of the system |
| `Program.Program.AddVip` | internal/reload/reload.go:283-296 | policy entry, callbacks and registration, scheduler by scheduler, are the addition event |
| `Program.Program.StageVip` | internal/reload/reload.go:315-320 | storing the record and starting every shadow are the staging event |
| `Program.Program.CommitVip` | internal/reload/reload.go:541-558 | stopping and closing the checks that go, promoting every shadow, committing with their health as seeds and attaching them are the switch of the system |
| `Program.Program.DropStaging` | internal/reload/reload.go:587-598 | stopping and closing every shadow in any order is the drop event |
| `Program.Program.DeliverTransition` | internal/policy/manager.go:125-176 | a delivered transition, down to the originated route, is the event of the system |
| `Program.Program.DeliverResult` | internal/reload/reload.go:459-475 | a delivered result reaches the policy manager and the route, or the verdict queue from a shadow, as the event of the system says |
| `Refinement.Node.Perform` | internal/reload/reload.go:135-598 | every event that can happen, performed on registry, policy manager, originator and records together, is the step of the system with the answers the BGP server gave |
| `Refinement.Node.Act` | internal/reload/reload.go:135-598 | so after any sequence of events the objects are where the run of the system leads |
| `Refinement.ObjectsFollowHistories` | internal/policy/manager.go:125-262 | at any time, for a VIP with nothing pending and nothing undelivered, the originator holds exactly the route its check histories call for, and the registry lists exactly the checks of its definition |
| `Refinement.WireServes` | internal/bgp/manager.go:293-344 | at any time, for a VIP with nothing pending, the BGP server holds exactly the path that spells the route which health, drain flag and configuration call for, or none |

## Left out

- Probe implementations, GoBGP, expr-lang, YAML and TOML, metrics, tracing, logging, the HTTP API, the CLI, systemd and process wiring: foreign code, plumbing or display. A check is any sequence of results, a policy expression is a boolean syntax tree.
- Ad-hoc `TriggerCheck` runs and shutdown: a triggered run in flight on a stopped scheduler is excluded, since a stopped scheduler is taken to have delivered its callbacks (`Quiet`).
- A policy manager without a notifier: the notifier is always there.
- `ApplyDefaults`, per-type check validation, address parsing: `ValidVip`, `ValidRouting` and `ValidVips` state the facts the other modules rely on. Prefix texts are taken to be canonical, so that equal routes have equal texts.
- The restart-only sections of a config are one compared value; `logging.level` is carried along and not applied.
- Time stamps, reasons, last results and the status record of a reload beyond its outcome. Time is unbounded: a deadline does not overflow.
- Checks a failed build leaves unclosed inside one VIP: schedulers that were returned by a build are counted, not the checkers of a VIP whose build failed half way.
- Commits of stagings between the steps of one reload: both hold the reloader's lock, so only check runs, callbacks and the draining of the queue interleave with a reload.
- Daemon.RejectionIsNoOp: the schedulers of a rejected reload are closed in the order of the jobs; `Reloader.Reloader.BuildAll` closes them in any order, with the same outcome.
- Reloader.Reloader.ReloadConfig: an uninterrupted reload; the interleaved ones are the moves of `Daemon`. The order in which kept VIPs are appended to the running config is that of the running list, where the program's map order is arbitrary.
- Reloader.Reloader.CommitReady: uninterrupted, with the schedulers a commit stops waited for before the loop starts; `CommitLoop.DrainedIsConsumed` is the loop under any interleaving, where each commit waits for its own.
- Reloader.Reloader.ExpireStaged: as for `CommitReady`; `CommitLoop.ExpiredIsCommitted` is the loop under any interleaving.
- PolicyManager.Manager.CommitVip: does not model that a refused commit may already have pointed a kept check at its new configuration, which no route depends on.
- Refinement.Node.Act: a scheduler is its record of results, whose in-place counters are `Hysteresis.Scheduler`; events are handed to the objects one at a time, so locking inside one critical section is not modelled.
- The order in which maps are walked when several shadows are promoted or several VIPs expire: the events of different checks and VIPs commute in the model's state.
