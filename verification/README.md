# Verification of air2lean's build and CI scripts

A Dafny model of the decision logic in this repository's Python scripts, with proofs. `dafny verify dfyconfig.toml`
checks all of it.

## What is modelled

**The build guard** (`scripts/build-guard.py`). Many guards share memory slots, a queue lock, a shared or exclusive
main lock, the short `register` lock, workspaces, and registries of tickets, queue heads, overcommitted and elastic
workloads. `Machine` holds what the guards share and what one guard keeps, and the steps of its program: one step is
one lock attempt, one registry entry published or withdrawn, or one decision. `Worlds` interleaves the steps of any
number of guards with arrivals, the clock, preemptions, ends and deaths; what is proved of every reachable world is
proved of every interleaving. `LockBooks`, `Bounds`, `Phases`, `Workspaces`, `Heads` and `Turns` are the invariants.
The results: `Safety`; `Decisions` (each admission decided in terms of the running workloads alone); `Waiters`, `Lineup`
and `WaitEntries` (who leads, who takes the free queue, who holds back); `Ramps` and `Backfills` (what the queue head
keeps and what runs ahead of it); `Backstop`; `Lifelines`, `Progress` and `Handover` (no deadlock among elastic
workloads). `AdmissionGuard` is the object with its fields and loops: each attempt is proved to be a run
of the same steps, and to do what it is for while no other guard moves. `Processes` is the accounting of the process
tree.

**Reuse of CI results** (`scripts/ci-reuse.py`). `Globs` has the pattern compiler as text, `Regexes` a reader and a
meaning for the expressions it writes, `Checkout` the declared inputs, the key and the restricted tree.

**Graph fixed points and the shared replay cache** (`scripts/assumptions.py`, `scripts/dependency-closure.py`):
`Candidates`, `ImportClosure`, `DependencyClosure` over `Graphs`; `ReplayCache`, `ReplayOnce` and `ReplayBuilds`
interleave audits with changes of the environment.

**Arithmetic, parsing and binding**: `Floats` and `Widening` (`scripts/diff-report.py`), `Brackets` and `SwitchArms`
(`scripts/coverage.py`), `ManifestChain` (`scripts/artifact-manifest.py`), `Attestation` (`scripts/attest.py`).

Locks are ownership, time is a number that never goes back, hashes and canonical texts are injective functions,
names of registry entries are (instant, process, serial) in that order. Identifier rules, the look-up of a module's
file and the compiled inputs of an audit are parameters.

## What the proofs found

- A drain ticket is named before its file appears, so the *published* tickets ahead of a waiting one can grow
  (`Turns.LatePublicationHappens` is a run; `Turns.PublishedExactlyWhenMade` says exactly when). What only shrinks
  is the set of tickets *named* ahead, once the clock has passed the waiting ticket's name.
- A lifeline, too, is named before its file appears, so one that is queued later can still take the turn from a waiting
  guard if it was named before that guard began to wait; no other one can (`Waiters.LaterLifelinesTakeNoTurn` is the
  exact condition).
- A normal guard that leads beside a lifeline can still lose its turn: over the bound it falls back to its declared
  slots, which may not fit beside the elastic bases (`LostTurn.LeadersCanLoseTheirTurn` is a run to such a state).
  `Progress.Admissible` is the exact condition; `Progress.HeadIsAdmitted` and `Progress.HeadStepsAside` are its two
  halves. Either way the lifelines get on (`Handover.LifelinesGetOn`).
- The compiled `**` stops at a newline in a path, the documented one does not. A compiled pattern means the pattern on
  every path exactly if it has no double star (`Globs.MeansPatternEverywhere`), and a path is treated as documented by
  every pattern exactly if it has no newline (`Globs.NewlinesStopDoubleStars`).
- The distance of two f80 or f128 values that are f64 values is the f64 distance only for the same value or two
  normals of one sign (`Widening.WideDistance`, an equivalence): an f64 subnormal is normal in the wide format. The
  code takes f64 steps exactly for pairs of short values, those with no more significant places than f64 has; of
  these, exactly the ones in f64's range are the f64 values the comment speaks of (`Widening.StepsAreForF64Values`;
  `Widening.TinyValuesAreInSteps` is a pair outside).
- Two compilers that Zig did not start, neither above the other, can count as none or one: parent links that are read
  in a cycle hide a compiler on it. `Processes.TwoCompilersAreParallel` is the exact condition, and
  `Processes.WorkingIsParallel` the meaning of the count on every table.
- A failed audit removes the replay cache without the cache lock. A removed pass can come back without being checked
  again exactly if a worker of another module has read it to merge beside it (`ReplayOnce.RemovalSticks`;
  `ReplayOnce.RemovalCanBeUndone` is a run). A pass is also not recorded when the inputs are found changed before it
  is merged.
- A dependency closure records what is reached exactly if no name is reached both as a panic handler and otherwise
  (`DependencyClosure.ClosureIsLeast`); `DependencyClosure.MixedNamesAreMissed` is a run that misses a name.

## Model

| member | source | states |
|---|---|---|
| Safety.SlotsAreConserved | scripts/build-guard.py:1428-1475 | In every reachable state no two guards hold one slot, all held slots are within the budget, and an admitted guard holds exactly its weight (an exclusive one none) |
| Safety.TurnedBackKeepsNothing | scripts/build-guard.py:1469-1475 | A guard back in or before the queue loop, or dead, holds no slot, no admission lock, no registered excess or base and no entry as queue head, however its attempt ended; of the workspaces at most its own, while it waits for its turn |
| Safety.ExclusiveRunsAlone | scripts/build-guard.py:1435-1437 | While an exclusive guard is admitted no other guard is |
| Safety.OneBuildPerWorkspace | scripts/build-guard.py:1404-1406 | Two admitted guards of one workspace both share it, unless one is a part of an elastic workload |
| Safety.OvercommitIsBounded | scripts/build-guard.py:976-996 | Over all runs and every path of admission: registered excess is at most half the budget, and the declared slots of the running workloads at most 1.5 times the budget |
| Decisions.OvercommitDecision | scripts/build-guard.py:976-996 | In every reachable state a workload charged less than it declares is admitted exactly if the slots that the running workloads and it declare and do not hold are at most half the budget; else it is charged what it declares and, as the head, collects that |
| Decisions.ElasticDecision | scripts/build-guard.py:1151-1166 | An elastic workload is admitted exactly if its base and those of the running elastic workloads leave the slots of the largest part |
| Decisions.OtherDecisions | scripts/build-guard.py:1136-1149 | A part, or a workload charged all it declares, is always admitted at this point, with its charge; an approved one comes to be admitted |
| Decisions.RunningIsExcess | scripts/build-guard.py:976-996 | The registered excess is, in every reachable state, what the running workloads declare and do not hold |
| Decisions.ElasticIsBases | scripts/build-guard.py:1087-1090 | The registered bases are what the running elastic workloads hold |
| Backstop.StopsTheYoungest | scripts/build-guard.py:998-1029 | In every reachable state a workload may be stopped exactly if it runs, is overcommitted, every other overcommitted one was registered before it, and the last stop is a hold-off ago |
| Backstop.StopsAreApart | scripts/build-guard.py:1008-1027 | On every run two stops are at least five seconds apart |
| Safety.ElasticBasesLeaveAPart | scripts/build-guard.py:1151-1166 | The bases of the admitted elastic workloads and the largest part fit the budget, and each admitted elastic workload has its base registered at what it holds |
| LockBooks.MoveKeepsLocks | scripts/build-guard.py:1355-1490 | Every move of any guard keeps the lock table and each guard's phase in agreement: who holds which slots, queue, register, main lock and workspace |
| Workspaces.MoveKeepsWorkspaces | scripts/build-guard.py:1314-1406 | Every move keeps this: a locked workspace is locked by guards that exist, each its own and only from where it takes it to where it gives it back |
| Heads.MoveKeepsHeads | scripts/build-guard.py:1117-1134 | Every move keeps this: a queue head's published entry stands exactly while that guard is the head and holds the queue, says what the guard last announced, and lacks no less than it reserves |
| Phases.MoveKeepsLanes | scripts/build-guard.py:1386-1424 | Every move keeps this: past the ticket lanes' queue only with a ticket or one about to be published, backfills only in the normal lane, background attempts only in the background lane |
| Bounds.MoveKeepsEntries | scripts/build-guard.py:976-1029 | Every move keeps the registries of excess and bases sorted, owned by standing workloads, equal to what those declare and hold, and within both bounds |
| Turns.QueueOrder | scripts/build-guard.py:1031-1038 | The queue has every drain and lifeline ticket once, each kind in arrival order, no exclusive ticket before a lifeline, and a drain ticket behind a lifeline only from the first exclusive one on |
| Turns.OneTurnWhileDraining | scripts/build-guard.py:1092-1108 | While a drain ticket is queued exactly the owner of the first ticket has its turn, and that owner exists |
| Turns.AheadOnlyShrinks | scripts/build-guard.py:1031-1059 | Once time has passed a ticket's name, no move names another drain ticket ahead of it |
| Turns.AheadOnlyShrinksForever | scripts/build-guard.py:1031-1059 | The same over runs of any length |
| Turns.PublishedExactlyWhenMade | scripts/build-guard.py:1048-1053 | A drain ticket appears in the registry exactly at the step in which the guard that took its name publishes it |
| Turns.LatePublicationHappens | scripts/build-guard.py:1048-1053 | A reachable run in which a ticket is published ahead of a waiting one after time has moved on |
| Waiters.OnlyEarlierWaitersLead | scripts/build-guard.py:1092-1108 | Over runs of any length: once time has passed a lifeline's name, a guard without a ticket that has its turn while that lifeline is queued was waiting at that time already, and since before the lifeline was named; so finitely many heads go before it |
| Waiters.LaterLifelinesTakeNoTurn | scripts/build-guard.py:1092-1108 | Over runs of any length a waiting guard without a ticket has its turn exactly if no ticket is queued, or only lifelines are, it fits beside the running elastic workloads, and no lifeline that was named when time had passed the start of its wait is ahead of it |
| Lineup.GoesForQueueExactly | scripts/build-guard.py:1258-1312 | In every reachable state a guard without a ticket goes for the queue exactly if it has its turn and no guard with an older place in line has looked for its own, in its turn or behind a drain ticket, within three seconds |
| Lineup.LaterPlacesWait | scripts/build-guard.py:1284-1312 | On every run: while a guard stays in line and has looked for its turn less than three seconds ago, no guard with a later place goes for the queue |
| Lineup.OutOfTurnHoldsUpNobody | scripts/build-guard.py:1258-1275 | A look out of its turn, with no drain ticket queued, lets every later place pass |
| Lineup.TicketsNeedNoPlace | scripts/build-guard.py:1258-1265 | A guard with a ticket gives up its place when it looks, and goes for the queue exactly in its turn |
| Lineup.MoveKeepsPlaces | scripts/build-guard.py:1258-1282 | Every move keeps this: each guard in line has one entry under the name of its place, and every entry is such a guard's |
| WaitEntries.BackgroundHoldsBack | scripts/build-guard.py:1314-1320 | In every reachable state a background guard tries exactly while no other guard has a ticket or says that it waits, and no guard whose workload runs or is done still says so |
| WaitEntries.StartsWhenAllIsSaid | scripts/build-guard.py:1462-1467 | An admitted guard starts its workload exactly when it holds neither the queue nor register, has no ticket, no waiting entry and no place in line, and, as a part, has published that it runs |
| WaitEntries.JoinsQueueExactly | scripts/build-guard.py:1407-1420 | A guard joins the queue from outside exactly if it is not elastic or its base and the running ones leave the largest part free, and, in a lane with tickets, once it has one |
| WaitEntries.NoRoomHoldsUpNobody | scripts/build-guard.py:1408-1415 | An elastic guard without room stays outside and gives up its ticket, then its waiting entry and its place in line |
| Registries.PublishAdds | scripts/build-guard.py:814-824 | Publishing adds exactly the entry and keeps the registry sorted by name |
| Registries.UnlinkRemoves | scripts/build-guard.py:1055-1059 | Withdrawing removes exactly the entries of that name and keeps the order |
| Charge.SlotsCover | scripts/build-guard.py:904-905 | The slots of a limit are the fewest whose memory covers it, at least one and at most the budget |
| Charge.PlannedIsLeast | scripts/build-guard.py:961-974 | The charged slots are the fewest that cover a part's own charge, the declared limit of a guard that may not overcommit, or what the history asks for; the declared ones the fewest that cover the limit |
| Charge.HistoryChargeIsLeast | scripts/build-guard.py:718-734 | A command is charged its declared limit if one of its last five runs ran out of memory or fewer than two were measured successes; else the least whole number of MiB, at least a slot, that covers each of those with the margin, or the declared limit |
| Charge.PlanWithinDeclared | scripts/build-guard.py:961-974 | A guard is charged at least one slot and at most what it declares; elastic and exclusive guards what they declare; a part declares at most the largest part |
| Charge.HistoryChargeIsSafe | scripts/build-guard.py:718-734 | A charge below the declared limit rests on two measured successes among the last five runs and no run among them that ran out of memory, and covers each of the successes with the margin |
| Handover.LifelinesGetOn | scripts/build-guard.py:1092-1191 | From every reachable state whose first ticket is a lifeline, with no exclusive workload running and slots held only by elastic bases and by the reservation of whoever holds the queue, in any of its phases: steps of the queue holder, the register holder and the lifelines alone lead to the admission of one of them |
| Handover.FromQueue | scripts/build-guard.py:1425-1475 | Wherever the queue holder stands, its own steps lead it to run or out of the queue with everything given back |
| Lifelines.OneLifelineEach | scripts/build-guard.py:1168-1191 | In every reachable state at most one part of each elastic workload has its lifeline |
| Lifelines.LifelineWhileNoPartRuns | scripts/build-guard.py:1168-1191 | A waiting part may take its workload's lifeline exactly if no part of that workload has it or has published that it runs; every part that runs has |
| Lifelines.MoveKeepsParts | scripts/build-guard.py:1168-1198 | Every move keeps this: lifelines and leaf entries are those of parts that exist, and say where those are |
| Progress.HeadIsAdmitted | scripts/build-guard.py:1434-1468 | A waiting head in its turn, with its reservation in hand, is admitted by its own steps if it is admissible, while only elastic bases hold the other slots |
| Progress.HeadStepsAside | scripts/build-guard.py:1434-1475 | A head without its turn, or not admissible, gives everything back by its own steps and ends outside without its turn, so turn and admissible are the exact condition |
| Progress.LeaderIsAdmitted | scripts/build-guard.py:1307-1312 | The same of a guard still in the queue loop that has its turn, while nobody with an older place in line still looks for the queue |
| Progress.LeaderStepsAside | scripts/build-guard.py:1307-1312 | And its other half |
| LostTurn.LeadersCanLoseTheirTurn | scripts/build-guard.py:1136-1149 | A reachable state in which a guard leads beside a lifeline and is not admissible |
| Progress.FirstLifelineLeads | scripts/build-guard.py:1092-1108 | A lifeline at the head of the queue has its turn and is always admissible |
| Progress.BasesLeaveTheRest | scripts/build-guard.py:1157-1166 | When only elastic workloads and one other guard hold slots, the free slots, that guard's and the registered bases together make at least the budget |
| Progress.NothingOvercommitted | scripts/build-guard.py:976-991 | And no workload is overcommitted then |
| Scans.ScanCollects | scripts/build-guard.py:1438-1442 | One scan over the slots ends with the goal or with every slot it found free, whichever is less |
| Scans.ScanTakesOnlyFree | scripts/build-guard.py:1438-1442 | A scan adds only free slots to those held and leaves every other guard its own |
| Scans.ScanConserves | scripts/build-guard.py:1438-1442 | What a scan takes is no longer free, and nothing else changes |
| Reservations.ReserveIsTheShare | scripts/build-guard.py:1110-1115 | Within the ramp a reservation is the fewest slots that are at least the waited share of the weight |
| Reservations.ReserveGrows | scripts/build-guard.py:1110-1115 | A reservation never shrinks with the wait and is the whole weight from the ramp on |
| Reservations.ReserveStartsAtOne | scripts/build-guard.py:1110-1115 | A head that has waited at all reserves at least one slot |
| Ramps.KeepsItsShare | scripts/build-guard.py:1426-1456 | On every run a head that finds too few slots keeps the share of its weight earned since the step in which it took the queue |
| Backfills.EntriesStandForHeads | scripts/build-guard.py:1117-1134 | In every reachable state a head's name stands for an entry with what it announced last, every entry is that of the guard that holds the queue, and the next name is new |
| Backfills.BackfillProtectsTheHead | scripts/build-guard.py:1200-1234 | On every run, among any moves of other guards, from reading the reservations to the admission: the backfill's scan held slots for its weight and all that the heads reserved but fewer than the neediest lacked; it kept its weight, and when it is admitted as many slots as were reserved are held by no admitted guard |
| Backfills.BackfillBesideHead | scripts/build-guard.py:1208-1216 | In every reachable state with an announced head a backfill starts exactly for a normal waiting guard lighter than what the head lacks and does not reserve, while no drain ticket waits |
| Backfills.NewEntryIsRespected | scripts/build-guard.py:1117-1127 | While a head replaces its entry, a backfill that starts respects the new one already |
| Backfills.NobodyAheadPastTheRamp | scripts/build-guard.py:1208-1216 | From a scan that ends short after the ramp on, whatever moves follow while the head collects: whenever it decides again its one entry reserves all it lacks and no guard starts a backfill |
| Backfills.MoveKeepsSpares | scripts/build-guard.py:1219-1232 | Every move keeps this: a backfill under register with its slots together leaves what it must uncommitted, also at its admission |
| Reservations.BackfillFitsBeside | scripts/build-guard.py:1208-1216 | A backfill that starts needs less than what some head lacks beyond its reservation |
| AdmissionGuard.Admission.QueuedTicketNames | scripts/build-guard.py:1031-1038 | The list built from the two registries is the queue |
| AdmissionGuard.Admission.HasTurn | scripts/build-guard.py:1092-1108 | The checks in order decide exactly whose turn it is |
| AdmissionGuard.Admission.HeadReservations | scripts/build-guard.py:845-851 | The sum of what the heads reserve and the largest need |
| AdmissionGuard.Admission.Scan | scripts/build-guard.py:1438-1442 | The loop over the slots takes only free ones, ends with the goal or all that were free, and is a run of the machine |
| AdmissionGuard.Admission.DropTo | scripts/build-guard.py:1457-1460 | The loop that gives slots back keeps the first n, returns the others, and is a run of the machine |
| AdmissionGuard.Admission.AdmitOvercommitted | scripts/build-guard.py:1136-1149 | Admits exactly within the bound (an elastic guard: exactly into room for its base), registering that; else a guard is charged its declared slots |
| AdmissionGuard.Admission.Backfill | scripts/build-guard.py:1200-1234 | Alone, a normal guard runs ahead exactly if the locks are free, the free slots cover its weight and the unmet reservations but not the head's need, and the bound allows; then the reservation stays free; refused, all is as before; in any case it is a run of the machine |
| AdmissionGuard.Admission.CollectRound | scripts/build-guard.py:1435-1461 | Alone, one round of the head: admitted exactly if its weight comes together, register is free and the bound allows; short of it, it keeps its reservation of what it found and publishes what it lacks; in any case it is a run of the machine |
| AdmissionGuard.Admission.PublishHead | scripts/build-guard.py:1117-1127 | An entry with what the head reserves and lacks is in the registry under its name, its older one is gone unless it said the same, and no other entry is touched |
| AdmissionGuard.Admission.TryBackground | scripts/build-guard.py:1314-1343 | Alone, a background guard is admitted exactly if nobody waits and its workspace, the queue, the main lock, all its slots and register are free at once; else every lock is as before; in any case it is a run of the machine |
| AdmissionGuard.LoanCount | scripts/build-guard.py:1219-1232 | Slots taken on the way of an attempt are exactly those missing from the free ones |
| Processes.Tree.Owned | scripts/build-guard.py:215-233 | The owned processes are what the group and the still-live seen processes reach by child links, also if parent links form a cycle; they are remembered with their starts |
| Processes.FamilyIsLeast | scripts/build-guard.py:215-233 | The owned processes are the least set that holds the processes of the group, those seen before under the same start, and the children of its own |
| Processes.ChildrenAreOwned | scripts/build-guard.py:215-233 | And hold the children of their members |
| Processes.OwnedWhileItLives | scripts/build-guard.py:215-233 | A process once owned stays owned at every later sample while it lives, wherever it is reparented |
| Processes.OutsideLeaves | scripts/build-guard.py:1582-1596 | Exactly the owned processes that are no running sub-admission's root or below one |
| Processes.CoveredIsLeast | scripts/build-guard.py:1582-1596 | What the sub-admissions cover is the least set that holds their owned roots and the owned children of its own |
| Processes.ParallelZig | scripts/build-guard.py:236-254 | Whether more than the allowed number of Zig processes can be found that Zig did not start and none of which is above another one or itself, also if parent links form a cycle |
| Processes.WorkingIsParallel | scripts/build-guard.py:245-254 | Counting the invocations above no other one finds as many as there are side by side; of a name longer than 15 characters the first 15 are seen |
| Processes.ToolsDoNotCount | scripts/build-guard.py:242-245 | A further Zig process that a Zig process started and that starts nothing leaves the answer as it was |
| Processes.OneCompilerIsNotParallel | scripts/build-guard.py:242-245 | Zig processes that Zig started, all but one, are never more than one invocation |
| Processes.TwoCompilersAreParallel | scripts/build-guard.py:245-254 | Two compilers that Zig did not start are parallel for one job if neither is above the other or on a cycle of parent links; if Zig started all others, exactly then |
| Regexes.StarOfDots | scripts/ci-reuse.py:127-127 | A starred dot matches exactly texts without a newline |
| Regexes.StarOfNots | scripts/ci-reuse.py:128-129 | A starred negated character matches exactly texts without that character |
| Globs.GlobRegex | scripts/ci-reuse.py:117-132 | The loop writes the expression of the pattern |
| Globs.ReadsBack | scripts/ci-reuse.py:117-132 | The text is a well-formed expression with the intended structure, whatever characters the pattern has |
| Globs.CompiledFits | scripts/ci-reuse.py:117-132 | For every pattern and path, full-matching the text is the pattern's meaning with double stars within one line |
| Globs.CompiledMeansPattern | scripts/ci-reuse.py:115-132 | For every pattern and newline-free path, full-matching the text is the pattern's meaning |
| Globs.MeansPatternEverywhere | scripts/ci-reuse.py:115-132 | The text means the pattern on all paths exactly if the pattern has no double star |
| Globs.NewlinesStopDoubleStars | scripts/ci-reuse.py:117-132 | On a path the text of every pattern means the pattern exactly if the path has no newline |
| Globs.LiteralFitsItself | scripts/ci-reuse.py:142-146 | A pattern without wildcards fits only itself |
| Globs.DirectoryFits | scripts/ci-reuse.py:115-115 | A directory with two stars fits the directory and everything below it |
| Globs.ChildrenFit | scripts/ci-reuse.py:115-115 | A directory with one star fits the names directly below it |
| Globs.AnyDepthFits | scripts/ci-reuse.py:115-115 | Two stars and a slash before a name fit the name in any directory or in none |
| Globs.OneCharacterFits | scripts/ci-reuse.py:115-115 | A question mark fits one character of a component |
| Checkout.ExactPathsAreInputs | scripts/ci-reuse.py:135-149 | A declared path without wildcards is an input whatever is excluded |
| Checkout.ContentMeans | scripts/ci-reuse.py:140-149 | A path is an input exactly if it is forced, declared as such, or fits a pattern and no exclusion |
| Listings.JoinedDetermines | scripts/ci-reuse.py:396-396 | The text of all tracked names, joined, determines the names |
| Checkout.PreimagesAgree | scripts/ci-reuse.py:378-401 | Two key preimages are equal exactly if definitions and declaration agree, the same names are tracked and every declared input has the same content |
| Checkout.EqualKeysEqualCheckouts | scripts/ci-reuse.py:400-428 | Two runs have equal keys exactly if definitions and declarations agree and their restricted trees are equal |
| Checkout.RestrictedHasTheKey | scripts/ci-reuse.py:378-428 | The restricted tree has the key of its commit |
| Checkout.RestrictedDetermines | scripts/ci-reuse.py:406-428 | Restricted trees of one declaration are equal exactly if the same names are tracked and every declared input has the same content |
| Checkout.RestrictedKeepsInputs | scripts/ci-reuse.py:417-420 | Inputs stay as committed, of every other file only the name |
| Checkout.UndeclaredChangesAreUnseen | scripts/ci-reuse.py:378-428 | Changing undeclared files changes neither the key nor the restricted tree |
| Checkout.DeclaredChangesAreSeen | scripts/ci-reuse.py:378-401 | A file that appears, disappears or is declared and changes, changes the key |
| Candidates.Inventory | scripts/assumptions.py:1315-1317 | Fails exactly on a duplicate declaration name |
| Candidates.Users | scripts/assumptions.py:1318-1328 | Fails exactly on a dependency outside the graph, and names one; else lists for each declaration exactly those that depend on it |
| Candidates.Spread | scripts/assumptions.py:1318-1341 | Terminates on every graph; a declaration ends with a bit exactly if one it is or reaches through dependencies started with it |
| Candidates.EarnsMeans | scripts/assumptions.py:1318-1328 | A declaration ends with a type's bit exactly if it reaches the type's name, and with the last bit exactly if it reaches something unresolved, opaque, an axiom or implemented elsewhere |
| ImportClosure.Collect | scripts/assumptions.py:1544-1568 | The walk meets every import of the candidates and keeps exactly the owned ones |
| ImportClosure.Approve | scripts/assumptions.py:1569-1576 | The rounds approve a closed, cycle-free set and leave out no module whose imports are approved |
| ImportClosure.CacheableModules | scripts/assumptions.py:1536-1577 | Exactly the candidates whose whole import closure is known, owned and free of cycles, for every import map |
| Graphs.NoWayOutIsCycle | scripts/assumptions.py:1569-1576 | A finite set in which every node has a successor inside has a cycle: why the rounds stop only at ineligible modules |
| Graphs.ReachedIsLeast | scripts/assumptions.py:1329-1340 | A closed set that holds the roots and only what they reach is the least one |
| ReplayCache.ReusedWasChecked | scripts/assumptions.py:1450-1500 | Under every interleaving of audits, changes and kills: a reused verdict means some audit's checker passed on the same bytes with the same checker, runtime and input identity |
| ReplayCache.ReusedRanInThisEnvironment | scripts/assumptions.py:1450-1526 | If no environment returns after another one, an audit that validates and passes reuses only runs that had its environment |
| ReplayBuilds.NeverMixesBuilds | scripts/assumptions.py:1450-1500 | In every reachable state the cache is of one audit's identity and agrees with all modules that audit may cache |
| ReplayBuilds.ReusesExactly | scripts/assumptions.py:1481-1489 | A module is reused exactly if the cache is of the audit's identity, agrees with all of its build and has a pass of the module; else it is checked |
| ReplayBuilds.MergesExactly | scripts/assumptions.py:1490-1499 | A pass is merged exactly while the inputs are as the audit read them, if it validates them |
| ReplayBuilds.TheCheckerDecides | scripts/assumptions.py:1476-1490 | What is not reused passes exactly by the checker's verdict |
| ReplayBuilds.PassesExactly | scripts/assumptions.py:1519-1527 | An audit passes exactly if no merge was refused and tools and validated inputs are as it read them; a failed one removes the cache exactly if it had merged a pass |
| ReplayBuilds.LocksAreHeldByWorkers | scripts/assumptions.py:1465-1474 | In every reachable state, after kills too, each claim and the cache lock is held by exactly the worker between taking it and giving it back |
| ReplayOnce.CheckedOnce | scripts/assumptions.py:1481-1500 | Audits that agree, with no failure that removes the cache, run the checker at most once for each passing module |
| ReplayOnce.AgreedBefore | scripts/assumptions.py:1519-1527 | Failures stay visible: audits that agree now agreed in every earlier state |
| ReplayOnce.RemovalSticks | scripts/assumptions.py:1486-1527 | After a failed audit removed the cache, a run that does not merge a pass anew has it back exactly if a worker of another module had read it and was about to write |
| ReplayOnce.ComesBackIfCarried | scripts/assumptions.py:1486-1500 | The same of any pass that is out of the cache |
| ReplayOnce.RemovalCanBeUndone | scripts/assumptions.py:1524-1527 | A reachable run in which a failed audit's pass is in the cache again after its removal |
| DependencyClosure.Closure.Visit | scripts/dependency-closure.py:274-288 | A name is recorded once, with its class when first met; one with a body joins the queue then |
| DependencyClosure.KindsMean | scripts/dependency-closure.py:252-272 | What a name is, exactly: a panic handler first, then its model if qualified and without an exported body beside it, then a registry binding, then a body |
| DependencyClosure.Closure.Run | scripts/dependency-closure.py:294-342 | Terminates with all roots and all references of recorded bodies recorded, expanding each recorded body exactly once, in the order of its breadth-first log |
| DependencyClosure.Closure.Chain | scripts/dependency-closure.py:242-247 | A chain is finite, starts at a root, ends at the name, and each step is a reference of the body before it |
| DependencyClosure.ParentsAreReal | scripts/dependency-closure.py:274-288 | A recorded name without a parent is a root's; a parent was recorded earlier and refers to it |
| DependencyClosure.QueueIsTheBodies | scripts/dependency-closure.py:274-288 | The queue holds exactly the recorded bodies, each once |
| DependencyClosure.ClosureIsLeast | scripts/dependency-closure.py:294-342 | What is recorded is the least closure of the roots under the references of bodies exactly if no name is reached both as a panic handler and otherwise; else it is no closure |
| DependencyClosure.ReachedIsClosure | scripts/dependency-closure.py:294-342 | There is a least closure: what every closure holds |
| DependencyClosure.MixedNamesAreMissed | scripts/dependency-closure.py:294-320 | A program whose run, however far it goes, misses a name that is reached |
| Floats.OrdinalsOrderValues | scripts/diff-report.py:279-305 | In every format ordinals of finite encodings are ordered and equal exactly as the real values are |
| Floats.EveryOrdinalIsUsed | scripts/diff-report.py:279-305 | Every ordinal up to the largest is that of a valid finite encoding |
| Floats.NeighboursAreOneApart | scripts/diff-report.py:281-283 | Ordinals are one apart exactly if no finite value lies between |
| Floats.CloseMeansFewBetween | scripts/diff-report.py:315-322 | Ordinals are at most two apart exactly if at most one value lies strictly between |
| Floats.LibmMeansFewBetween | scripts/diff-report.py:307-323 | In every format a pair of leaves is a libm difference exactly if at most one value lies between; of two short wide values, at most one short value |
| Floats.KindsMean | scripts/diff-report.py:307-323 | Which kinds explain two leaves of one format, in terms of their bits and values: both NaNs, both zero, both numbers that are not both zero with at most one value between; nothing else |
| Floats.EveryPatternHasALeaf | scripts/diff-report.py:276-292 | Every bit pattern of a format is that of a leaf, and its fields fill the format's hex digits |
| Floats.SplitJoins | scripts/diff-report.py:288-292 | Sign, exponent and the bits below it make up the pattern |
| Floats.MeasuredInStepsIfShort | scripts/diff-report.py:316-321 | A pair is measured in f64 steps exactly if both are wide values whose places beyond f64's are zero |
| Floats.MagnitudeStep | scripts/diff-report.py:304-304 | The next ordinal's value is one unit in the last place further |
| Widening.WidenedOrdinal | scripts/diff-report.py:316-321 | The ordinal in a wide format of a value of a narrow one |
| Widening.RankGap | scripts/diff-report.py:316-321 | Distances in steps agree with ordinals exactly among the normals |
| Widening.WideDistance | scripts/diff-report.py:316-321 | For two wide values that are f64 values, the measured distance is the f64 distance exactly if they are equal or both f64 normals of one sign |
| Widening.F64ValuesAreShortInRange | scripts/diff-report.py:316-321 | A wide number is an f64 value exactly if it is short, a multiple of the smallest f64 value and at most the largest |
| Widening.StepsAreForF64Values | scripts/diff-report.py:268-270 | That a pair is measured in f64 steps exactly if both are f64 values, as documented, holds exactly if not both are short with one out of f64's range |
| Widening.TinyValuesAreInSteps | scripts/diff-report.py:316-321 | Two wide values below f64's range that count as two steps apart |
| Widening.EveryValueWidens | scripts/diff-report.py:316-321 | Every finite value of the narrow format is one of the wide format |
| Widening.ReportedFormatsAreWider | scripts/diff-report.py:276-276 | f80 and f128 are wider than f64 in this sense |
| Brackets.Balanced | scripts/coverage.py:96-108 | The stack scan, as a function of the tokens |
| Brackets.PairsOfBrackets | scripts/coverage.py:96-108 | The three kinds of brackets, each closed by its own |
| Brackets.BalancedFindsGroup | scripts/coverage.py:96-108 | At an opening bracket the scan returns j exactly if the well-bracketed group there ends at j, and fails if none does |
| Brackets.GroupHasOneEnd | scripts/coverage.py:96-108 | A group has one end |
| Brackets.ClosedIsWellBracketed | scripts/coverage.py:96-108 | Text that leaves nothing open on the stack is well-bracketed by the grammar |
| Brackets.WellBracketedCloses | scripts/coverage.py:96-108 | And well-bracketed text leaves nothing open |
| SwitchArms.FindSwitch | scripts/coverage.py:180-183 | The wanted occurrence of the switch, or none exactly if there are too few |
| SwitchArms.Read | scripts/coverage.py:179-211 | Reads the arms inside the body's braces of the wanted switch; without it, without braces, or with unbalanced ones it fails with that fault |
| SwitchArms.ReadArms | scripts/coverage.py:187-211 | The loops over labels and bodies, as a function of the tokens |
| SwitchArms.PrintedArmsReadBack | scripts/coverage.py:187-211 | Printing any arms with bodies free of top-level commas, with or without a last comma, and reading them gives those arms if no label repeats, and a duplicate error exactly if one does |
| SwitchArms.LabelsMeanTheirBodies | scripts/coverage.py:207-210 | Each label is bound to its own arm's body |
| ManifestChain.SealChain | scripts/artifact-manifest.py:376-385 | The loop folds the chain over the links and the binding of inputs and provenance |
| ManifestChain.Integrity | scripts/artifact-manifest.py:400-414 | Accepts exactly intact manifests, and a link it names was edited |
| ManifestChain.Build | scripts/artifact-manifest.py:388-397 | A manifest built from contents passes, with those contents |
| ManifestChain.ExpectedMeans | scripts/artifact-manifest.py:400-408 | Ten links are always expected, a receipt's and a native binary's exactly when those are given |
| ManifestChain.FinalDetermines | scripts/artifact-manifest.py:66-67 | Two chains of one length with one end have the same steps |
| ManifestChain.FinalDigestBindsAll | scripts/artifact-manifest.py:400-414 | Two intact manifests with the same final digest have the same inputs, provenance and contents of every link |
| ManifestChain.SameRecordingsSameDigest | scripts/artifact-manifest.py:376-397 | And manifests of the same recordings are the same |
| Attestation.Match | scripts/attest.py:169-178 | The greedy loop accepts exactly if subjects and artifacts are equal as multisets, and its refusals name what is too many |

## Left out

- Registry reads are one step: a listing that changes while it is read is not modelled.
- An attempt's locks (`<lock>`, queue, `register`, a background attempt's workspace) are given back in one step; the slots go one by one.
- The slots a waiting queue head still lacks are tried in index order; the order after it gave some back is not kept.
- `AdmissionGuard.Admission.Backfill`: its contract is for an attempt during which no other guard moves; what an attempt leaves the head in every interleaving is stated of the machine's runs (`Backfills`), of which the method's are some.
- `AdmissionGuard.Admission.CollectRound`: likewise; every interleaving of a head's round is in `Backfills.NobodyAheadPastTheRamp` and `Handover.FromQueue`.
- `AdmissionGuard.Admission.TryBackground`: likewise; that an attempt that failed keeps nothing in any interleaving is `Safety.TurnedBackKeepsNothing`, which also gives what the method requires of the locks.
- Preemption, lifelines, waiting entries, release and death are modelled as steps on values (`Machine`), not as methods of the class.
- The mirror of lifeline tickets for older checkouts, reports, logs, announcements, `--lock-wait` deadlines and the inherited grant.
- Signals, `ps`, flock, pipes and file handles; the `history` file beyond what `plan` reads from it.
- Rounding of `waited / ramp` in floating point: `Reservations` computes the share exactly, in nanoseconds.
- Different memory budgets under one lock.
- `restrict`: only the tree it builds; the worktree, permissions and index flags are not modelled. Git's own tree listing is a map.
- The job, runner and generated-file parts of a key are one value; what they are computed from is not modelled.
- `framework_candidates`: the comparison of selected declarations with the evidence, and the records made from the masks.
- `kernel_replay`: receipts replayed by Lake, the number of workers, reports; an audit that fails after other audits reused its passes is covered by what `ReplayCache` says of them.
- `DependencyClosure.Closure.Run`: indirect calls, boundaries, the records of globals and the reference lists of at most 16 entries.
- `filter_prefixes`, `covered`, `normalized` of `scripts/dependency-closure.py`: filters on strings.
- `differing_leaves` and `host_difference`: recursion over JSON values around `leaf_host_kinds`.
- `members`, `version_branches`, string escapes of identifiers in `scripts/coverage.py`.
- `SwitchArms.Read`: an index past the end of the tokens, an exception of its own in the source, is the error `CutShort`.
- `manifest_integrity`: the type checks of a parsed JSON document before the ones modelled.
- `check_document`, signatures and `ssh-keygen`: external or field checks.
- Names of Zig processes longer than 15 bytes are cut after 15 characters: one character is one byte here.
