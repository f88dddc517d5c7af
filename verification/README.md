# gslb-operator, verified

gslb-operator health-checks services, elects one active service per DNS group, schedules the checks,
persists what it knows, and pushes spoof rules to dnsdist servers. This project models those parts in
Dafny and proves what every step keeps, over runs of any length.

`dafny verify dfyconfig.toml` checks everything.

## How the model is built

- Every entry point is one atomic step: a registration, a removal, a check result, a turn of a scheduler's
  loop, an action of the worker pool. Services are named by their ids.
- The code updates objects in place, and so do the classes of the model (`Service`, `ServiceGroup`,
  `ServiceHeap`, `Scheduler`, `Index`, `ServicesManager`, `Handler`, `FileStore`, `ServiceRepo`, `Server`,
  `Client`, `ServerSession`, `RoundTripper`). Each method is proved against a function on
  values, and the theorems are about runs of those functions.
- What the code leaves open is left open: any sorting algorithm that looks at nothing but comparisons, any
  order of iterating over a map, any clock, any jitter, any lateness of a loop, any interleaving.
- A panic is a state, `crashed` or `panicked`, after which nothing happens; it is proved when it is reached.
- Where a property fails there is a theorem with the exact condition, and an input that the code can receive,
  in `ManagerFailures`, `ManagerStrays`, `ManagerLingers`, `ManagerRevivals`, `UnfairRuns`, `PoolStops` or beside
  the theorem.

| files | what they are about |
|---|---|
| `Basics`, `Sorting`, `Strings`, `Filters` | duplicate-free sequences, what a sort promises, the order of strings, finding and filtering |
| `Services`, `RoundTrips` | the hysteresis counter and the round-trip average |
| `ServiceGroups`, `GroupChoices`, `GroupRuns`, `ServiceGroupObjects` | the election in one group, whom it chooses, and its event log |
| `Heaps`, `Schedulers`, `DueBags`, `Fairness`, `SingleEntries`, `ServiceFairness`, `UnfairRuns`, `Staggering`, `SchedulerObjects` | the timed heap, its tombstones, how unfair it can get, and how it spreads services over the interval |
| `ScheduledServices` | the index of services by interval |
| `ServiceRepos`, `FileStores`, `RepoObjects` | the stored groups, and the cached file under them |
| `Managers`, `ManagerInvariants`, `ManagerPromotions`, `ManagerSteps`, `ManagerLeaving`, `ManagerRuns` | the services manager, its invariant, and its reachable states |
| `ManagerEffects`, `ManagerRules`, `ManagerRecoveries`, `ManagerUpdates`, `ManagerEntries`, `ManagerStops`, `ManagerRecords`, `ManagerSpares`, `ManagerRuleChanges`, `ManagerElections` | what each step does exactly: to the DNS rules, to flags, to schedules, to records, to other groups, to whom it elects |
| `ManagerShadows`, `ManagerRestarts`, `ManagerRestartRules`, `ManagerRestartRuns`, `ManagerRevivals` | from one life of the manager to the next: the records and the rules that are left over |
| `ManagerScenarios`, `ManagerFailures`, `ManagerStrays`, `ManagerLingers` | reachable states in which the manager falls short |
| `ManagerShutdown`, `ManagerObjects`, `Handlers` | shutting down, the manager as an object, zone batches |
| `Spoofs`, `SpoofRuns`, `Reconciling`, `Synchronising` | the desired spoofs, their canonical form, bringing a server in line |
| `Nonces`, `Consoles`, `ConsoleObjects` | the dnsdist console protocol |
| `Pools`, `PoolStops`, `PoolWorkers` | the worker pool |

## What the proofs found

Where the code does not keep a property that one would expect, the project proves exactly when it does. For
the fairness between services it proves when it does, and a run in which it does not.

- Removing the announced active of a group of one or two raises no event, so its spoof rule can stay behind
  (`ManagerRules.RemovalKeepsRules`, `ManagerFailures.RemovalLeavesRule`).
- When an announced service changes its datacenter or its group, its rule keeps the old name, and is right
  only if the old group elects an heir in the old datacenter (`ManagerRules.UpdateKeepsRulesIff`,
  `ManagerFailures.RenamingLeavesRule`, `ManagerFailures.MoveLeavesRule`).
- A service that moves to another group while active in a group of three or more withdraws the rule of its new
  group right after announcing it (`ManagerRules.NewGroupRuleIff`).
- In an ActivePassive group that was down, a service that comes up is not announced when it was itself the
  last active: `handlePromotion` takes the event for unchanged. Nor is it when the last active was removed
  (`ManagerRecoveries.RecoveryHeardIff`, `ManagerFailures.RecoveryUnheard`).
- A service that was last active in a group that is down, and has moved to another group since, is demoted there
  when another member of its old group comes up: its rule and its flag are withdrawn, although it is the
  healthy active of its new group (`ManagerSpares.CheckSparesIff`, `ManagerStrays.RecoveryHitsAnother`).
- A restarted manager registers a service as healthy when it is stored so, and makes it active, but the first of
  its group is not flagged. Its rule, if it was left over on the servers, goes at the next synchronisation, and
  further successes do not bring it back (`ManagerRestarts.RestartHeardIff`, `ManagerRevivals.RevivesSilently`).
- A record that is flagged when the manager stops stays flagged as long as its service does not come back to that
  group, and its rule is put on the servers at every synchronisation. So a group gets two rules when another of
  its services comes up (`ManagerRestarts.LeftoversStay`, `ManagerRevivals.LeftoverIsAskedFor`,
  `ManagerRevivals.TwoRulesAfterRestart`).
- A configuration that changes only `memberOf` or only the interval is skipped, although `updateService`
  is written, and documented in its comment, to handle both (`ManagerUpdates.UpdateReachesIff`).
- An interval of less than half a second, of either sign, divides by zero when a service is scheduled at it.
  A configuration record can carry one, in a first registration or in an update
  (`ManagerUpdates.RegistrationPanicsIff`). An interval of minus half a second or less does not panic.
- The active of a group of three or more goes on being checked after its removal when its heir is scheduled at
  another interval: it is demoted to that interval on the way out, and nothing takes it off again
  (`ManagerStops.RemovedIsCheckedIff`, `ManagerLingers.RemovedStaysChecked`).
- A service that is registered again while its tombstone is on the heap is checked under two entries, and the
  scheduler gets unfair (`ManagerEntries.SingleIffNoEarlyReturns`, `UnfairRuns.EarlyReturnsAreUnfair`).
- A healthy service whose counter is above its threshold, as it can be after an update has lowered that, is not
  taken down by any number of failures in a row (`Services.FailuresTakeDown`).
- A service at priority `MaxInt` is never promoted by the scan after a failure (`ServiceGroups.FlipElects`).
- The comment on `GetActive` says that in ActiveActive it answers the first healthy service if no explicit
  active is set; the code answers the first healthy service even if one is
  (`ManagerShutdown.ReachableGetActive`), and shutting down flags that one.
- Reconciliation compares names only: a server with an outdated address under a right name is found
  different at every synchronisation and never corrected. A desired name that is there twice stays there twice
  (`Reconciling.HashAgreesIffAddressesDid`, `SpoofRuns.OneRulePerGroupOnServers`).
- With a minimum of no workers the pool accepts a job that nobody takes (`PoolStops.ZeroMinimumStrandsJob`).
- The comparison of group members is not antisymmetric; sorting does not mind
  (`ServiceGroups.CompareIsNotAntisymmetric`, `ServiceGroups.BeforeIsStrictWeakOrder`).

## Model

| member | source | states |
|---|---|---|
| `Services.HealthyIffLatestWindowSucceeded` | internal/service/service.go:192-225 | For every sequence of check results and every threshold `t >= 1`, from the initial state: the service is healthy if and only if, of all windows of `t` equal consecutive results, the most recent one was successes. |
| `Services.CounterInvariant` | internal/service/service.go:192-225 | The counter always encodes the length of the current streak; callbacks alternate strictly, starting with `true`, and their parity is the health. |
| `Services.CallbacksAreRare` | internal/service/service.go:192-225 | `n` checks raise at most `n / t` callbacks. |
| `Services.FailuresTakeDown` | internal/service/service.go:210-225 | From any counter and any threshold: `n` failures in a row take a healthy service down, with exactly one callback, if and only if the counter is not above the threshold and `n >= 1` of them bring it there; a counter above the threshold stays where it is. |
| `Services.SuccessesBringUp` | internal/service/service.go:192-207 | `n` successes in a row bring a service up, with exactly one callback, if and only if its counter is not negative and `n >= 1` of them use it up. |
| `Services.AssignSettlesConfig` | internal/service/service.go:259-282 | After `Assign` no configuration change is pending, and only identity, schedule, counter and health of the old object survive; which settings count as changed is `ManagerUpdates.ChangedIffSettingsDiffer`. |
| `Services.Service.OnSuccess` | internal/service/service.go:192-207 | The in-place method does to the fields what the specification of a successful result says, and raises the same callback. |
| `Services.Service.OnFailure` | internal/service/service.go:210-225 | The same for a failed result. |
| `Services.Service.AssignFrom` | internal/service/service.go:272-282 | The in-place copy leaves exactly the fields of `Assign`. |
| `ServiceGroups.CompareIsNotAntisymmetric` | internal/manager/servicegroup.go:413-435 | The three-way comparison contradicts itself exactly on two services of equal priority without recorded round trips. |
| `ServiceGroups.BeforeIsStrictWeakOrder` | internal/manager/servicegroup.go:413-435 | What sorting uses of it, `cmp < 0`, is nevertheless a strict weak order that refines the priorities; how it orders equal priorities is `GroupChoices.SortedIffInOrder`. |
| `GroupChoices.SortedIffInOrder` | internal/manager/servicegroup.go:413-435 | A member list is sorted by the comparison if and only if priorities do not decrease along it and, among equal priorities, those with a recorded round trip come first, shorter ones before longer ones. |
| `ServiceGroups.InsertionSortIsSorter` | internal/manager/servicegroup.go:391 | Some algorithm sorts by that order, so the type of all sorting algorithms, over which every group theorem quantifies, is inhabited. |
| `ServiceGroups.FirstHealthy` | internal/manager/servicegroup.go:100-109 | The first healthy member in list order, or none exactly when nobody is healthy. |
| `ServiceGroups.BestHealthy` | internal/manager/servicegroup.go:232-266 | The scan with its `MaxInt` sentinel: none exactly when every healthy member is at `MaxInt`, and otherwise a healthy member of the best priority. |
| `ServiceGroups.UpdateElects` | internal/manager/servicegroup.go:382-410 | Whatever the active was before, `Update` elects a right one for every sorting algorithm, keeps the members, and raises an event, which names the new and the old active truthfully, exactly when the active of a group of several changes; which one, by round trips, is `GroupChoices.UpdateSettles`. |
| `GroupChoices.UpdateSettles` | internal/manager/servicegroup.go:382-410 | For every sorting algorithm, all that an update does, without naming the comparison: members listed by priority, recorded round trip first, shorter first; the first healthy one of the list active, so that no healthy member of its priority has a recorded round trip while it has none, or a shorter one; the mode by whether priorities differ; event and last active. |
| `GroupChoices.ChosenIsPreferred` | internal/manager/servicegroup.go:382-410 | The same preference for whom any election of the manager chooses. |
| `ServiceGroups.RegisterElects` | internal/manager/servicegroup.go:196-211 | Registering adds exactly that member and re-elects; the first member of a group takes over silently. |
| `GroupChoices.RegistrationSettles` | internal/manager/servicegroup.go:196-211 | A registration does to the group with that member what `UpdateSettles` says. |
| `ServiceGroups.RemoveElects` | internal/manager/servicegroup.go:213-230 | Removing takes out exactly that member and re-elects; no event is raised when at most one member stays, and otherwise a truthful one exactly when the active changes. |
| `GroupChoices.RemovalSettles` | internal/manager/servicegroup.go:213-230 | A removal does to the group without that member what `UpdateSettles` says. |
| `ServiceGroups.SurvivorStays` | internal/manager/servicegroup.go:282-342 | When one of two members leaves, an active that stays keeps the role. |
| `ServiceGroups.FlipElects` | internal/manager/servicegroup.go:111-193 | A real health flip never dereferences a missing active, and the group is soundly elected afterwards if and only if the active did not just go down in ActivePassive with all remaining healthy members at priority `MaxInt`. In ActivePassive a service that comes up takes the role from an active exactly when its priority is at most that one's. |
| `ServiceGroups.UnpickableIsSkipped` | internal/manager/servicegroup.go:232-266 | For any two healthy members of which only the passive one is at priority `MaxInt`: when the active goes down nobody is active, although the other is up. |
| `ServiceGroups.FlipElectsBelowMaxInt` | internal/manager/servicegroup.go:111-193 | With priorities below `MaxInt` a flip always elects a right active, and raises a truthful event exactly when the active changes. |
| `GroupChoices.FlipLeadsTo` | internal/manager/servicegroup.go:111-193 | All that a flip does: who comes up takes the role when nobody has it, in ActivePassive when its priority is at most that of the active, and in ActiveActive when it is in the prioritised datacenter; when the active goes down the first healthy member of the smallest priority takes over, or the first healthy one of the list; the event, the last active, and nothing else. |
| `GroupChoices.BestHealthyIsFirst` | internal/manager/servicegroup.go:232-266 | Among healthy members of the smallest priority the scan picks the first of the list. |
| `GroupChoices.GetActiveMeans` | internal/manager/servicegroup.go:78-95 | `GetActive` of any group: in ActivePassive the active; otherwise the first healthy one of the list, and the active only if nobody is healthy. |
| `GroupRuns.StepKeepsAnnouncement` | internal/manager/servicegroup.go:34-41 | One registration, removal, update or flip keeps the group soundly elected, announces only right actives, and keeps "the last event names the active" exactly when it is not one of the silent steps (a healthy service founding a group, the active leaving a group of two). |
| `GroupRuns.LogNamesActive` | internal/manager/servicegroup.go:34-41 | Over any number of such steps without a silent one, folding the event log gives the active, which is right. |
| `GroupRuns.EveryRunElects` | internal/manager/servicegroup.go:382-410 | Silent steps or not, every reachable non-empty group has a healthy active of the best priority, or none exactly when nobody is healthy. |
| `ServiceGroupObjects.ServiceGroup.FindFirstHealthy` | internal/manager/servicegroup.go:100-109 | The loop finds the first healthy member. |
| `ServiceGroupObjects.ServiceGroup.CurrentActive` | internal/manager/servicegroup.go:78-95 | `GetActive`, both modes. |
| `ServiceGroupObjects.ServiceGroup.Trigger` | internal/manager/servicegroup.go:268-278 | `triggerPromotion`: every branch. |
| `ServiceGroupObjects.ServiceGroup.PromoteNext` | internal/manager/servicegroup.go:232-266 | The scanning loop promotes exactly the specified member and returns the event. |
| `ServiceGroupObjects.ServiceGroup.ConfigureMode` | internal/manager/servicegroup.go:282-342 | The scanning loop sets mode and active as specified. |
| `ServiceGroupObjects.ServiceGroup.Refresh` | internal/manager/servicegroup.go:382-410 | In-place `Update`: new fields and event are the specified ones. |
| `ServiceGroupObjects.ServiceGroup.RegisterService` | internal/manager/servicegroup.go:196-211 | In-place registration: new fields and event are the specified ones. |
| `ServiceGroupObjects.ServiceGroup.RemoveService` | internal/manager/servicegroup.go:213-230 | In-place removal: new fields and event are the specified ones, and the result says whether the group is empty. |
| `ServiceGroupObjects.ServiceGroup.HealthChanged` | internal/manager/servicegroup.go:111-193 | Every branch of the health-change switch: new fields, event and nil dereference are the specified ones. |
| `ServiceRepos.CreateRefines` | internal/repositories/service/service.go:28-69 | On the view group -> id -> record, without overrides: `Create` sets exactly one entry. |
| `ServiceRepos.UpdateRefines` | internal/repositories/service/service.go:71-106 | `Update` rewrites exactly one entry, and is refused exactly when there is none. |
| `ServiceRepos.DeleteRefines` | internal/repositories/service/service.go:148-178 | `Delete` clears exactly one entry, whether or not its group empties; an emptied group stays stored as an empty one. |
| `ServiceRepos.OverrideProtects` | internal/repositories/service/service.go:71-106 | While the active record carries an override, `Create` and `Delete` in its group do nothing, and `Update` rewrites exactly one record, if it is there: an active one keeps its address and is flagged as overriding, and all else is taken from the update. |
| `ServiceRepos.FirstActiveIsFirst` | internal/repositories/service/service.go:197-210 | The answer of `GetActive` is the first active record of the list. |
| `RepoObjects.ServiceRepo.Create` | internal/repositories/service/service.go:28-69 | The method over the file store, cache included, leaves exactly the groups the specification says. |
| `RepoObjects.ServiceRepo.Update` | internal/repositories/service/service.go:71-106 | The same for `Update` and its error cases. |
| `RepoObjects.ServiceRepo.Delete` | internal/repositories/service/service.go:148-178 | The same for `Delete`. |
| `RepoObjects.ServiceRepo.GetActive` | internal/repositories/service/service.go:197-210 | The loop answers the first active record, and leaves the groups as they are. |
| `RepoObjects.ServiceRepo.HasOverride` | internal/repositories/service/service.go:228-238 | Answers whether the active record carries an override. |
| `FileStores.AnswersAgree` | pkg/persistence/store/file/file.go:30-151 | No sequence of `Save`, `Load`, `LoadAll` and `Delete` tells the file store, with its cache, from a plain map. |
| `FileStores.ReopeningIsInvisible` | pkg/persistence/store/file/file.go:16-28 | Reopening the file with an empty cache at any point changes no later answer. |
| `FileStores.FileStore.Save` | pkg/persistence/store/file/file.go:30-62 | Cache and file after `Save`. |
| `FileStores.FileStore.Load` | pkg/persistence/store/file/file.go:64-89 | Cache, file and answer of `Load`, including the miss that fills the cache from the whole file. |
| `FileStores.FileStore.LoadAll` | pkg/persistence/store/file/file.go:91-117 | Every stored value is listed once, in some order of the keys, and all of them are cached. |
| `FileStores.FileStore.Delete` | pkg/persistence/store/file/file.go:119-151 | Cache and file after `Delete`. |
| `Heaps.PushKeepsHeap` | internal/manager/scheduler/schedulerHeap.go:21-23 | Pushing keeps the heap ordered by check time. |
| `Heaps.PushAdds` | internal/manager/scheduler/schedulerHeap.go:21-23 | Pushing adds exactly one entry, as a multiset. |
| `Heaps.PopKeepsHeap` | internal/manager/scheduler/schedulerHeap.go:25-32 | Popping keeps the heap ordered. |
| `Heaps.PopTakesTop` | internal/manager/scheduler/schedulerHeap.go:25-32 | Popping takes out exactly the first entry. |
| `Heaps.RemoveAtKeepsHeap` | internal/manager/scheduler/scheduler.go:95-112 | Removing from the middle, where the last entry moves in and then down or up, keeps the heap ordered. |
| `Heaps.RemoveAtTakes` | internal/manager/scheduler/scheduler.go:95-112 | It takes out exactly the entry at the index. |
| `Heaps.TopIsDueFirst` | internal/manager/scheduler/schedulerHeap.go:34-39 | No entry is due before the one that `Peek` shows. |
| `Heaps.IndexOfService` | internal/manager/scheduler/schedulerHeap.go:41-45 | The first index with this id, or -1 exactly when there is none. |
| `Heaps.ServiceHeap.SiftUp` | internal/manager/scheduler/schedulerHeap.go:13-19 | The swapping loop computes the specified sift. |
| `Heaps.ServiceHeap.SiftDown` | internal/manager/scheduler/schedulerHeap.go:13-19 | The same downwards, and whether anything moved. |
| `Heaps.ServiceHeap.PushEntry` | internal/manager/scheduler/schedulerHeap.go:21-23 | In-place push: specified contents, order kept. |
| `Heaps.ServiceHeap.PopEntry` | internal/manager/scheduler/schedulerHeap.go:25-32 | In-place pop: specified entry and contents, order kept. |
| `Heaps.ServiceHeap.RemoveEntry` | internal/manager/scheduler/scheduler.go:95-112 | In-place removal: specified contents, order kept. |
| `Schedulers.NewCheckInterval` | internal/manager/scheduler/scheduler.go:201-204 | Every jittered and rounded gap is between 0.9 I - 50 ms and 1.1 I + 50 ms long, and has the sign of the interval I, which may be negative; it is a whole number of tenths of a second, no more than half a tenth off, and rounded away from zero in the middle. |
| `Schedulers.ScheduleAdds` | internal/manager/scheduler/scheduler.go:77-93 | Scheduling adds exactly one live entry, due within one interval of the plain gap, and the loop runs afterwards; when exactly it is due is `Staggering.DueStaggered`. |
| `Staggering.DueStaggered` | internal/manager/scheduler/scheduler.go:80-87 | Over any schedulings, removals, turns and stops of a scheduler, with `n` half seconds in its interval of either sign: the entry of the j-th scheduling, counted from 0, is due at its `now + gap` plus exactly (j mod n) half seconds. |
| `Staggering.OffsetsDiffer` | internal/manager/scheduler/scheduler.go:80-87 | So any `n` services scheduled one after the other get different offsets, whatever comes in between. |
| `Schedulers.RemoveTakesOut` | internal/manager/scheduler/scheduler.go:95-112 | Removing takes out one entry of the service or marks the top one dead, never empties a non-empty heap, and reports "last" exactly when no entry of another service is there and at most one entry is left. |
| `Schedulers.IterateReschedules` | internal/manager/scheduler/scheduler.go:142-199 | A turn of the loop pops an entry that no other is due before, and drops it if dead or puts it back under its new time; the heap stays ordered and the loop runs while there are entries. |
| `Schedulers.RemoveSparesOthers` | internal/manager/scheduler/scheduler.go:95-112 | Removing one service never loses the live entry of another. |
| `Schedulers.IterateKeepsLive` | internal/manager/scheduler/scheduler.go:115-132 | A turn of the loop neither loses nor invents a live entry of any service. |
| `Schedulers.SecondEntryIffTombstoneLeft` | internal/manager/scheduler/scheduler.go:77-93 | Scheduling gives a service a second entry exactly when an entry of it, dead or alive, is still there. |
| `SingleEntries.OneEntryIffNoEarlyReturn` | internal/manager/scheduler/scheduler.go:77-132 | Over any run of a scheduler: every service has at most one entry at every moment if and only if none was scheduled while an entry of it was left. |
| `Fairness.LoopNeverStalls` | internal/manager/scheduler/scheduler.go:134-199 | At every moment of every run an unstopped scheduler with entries has its loop running, and next serves one that no other is due before. |
| `Fairness.AtMostTwiceBetweenTicks` | internal/manager/scheduler/scheduler.go:115-132 | However late the loop runs and whatever is added or removed: between two consecutive ticks of a live heap entry no other entry is ticked three times. |
| `Fairness.AtMostThriceBeforeFirstTick` | internal/manager/scheduler/scheduler.go:77-93 | Before a new heap entry is ticked for the first time, no other entry is ticked more than three times. |
| `ServiceFairness.ServiceAtMostTwiceBetweenTicks` | internal/manager/scheduler/scheduler.go:115-132 | The same for services: one that is never scheduled while an entry of it is left is not ticked three times between two ticks of another one that is not removed in the meantime, whatever becomes of all others. |
| `ServiceFairness.ServiceAtMostThriceBeforeFirstTick` | internal/manager/scheduler/scheduler.go:77-93 | Under the same condition on the counted service alone, it is not ticked four times before a newly scheduled one is ticked first. |
| `UnfairRuns.EarlyReturnsAreUnfair` | internal/manager/scheduler/scheduler.go:95-132 | Without the condition it fails: a run of ten steps at half a second, for any two services, in which one is removed and scheduled again twice and is ticked three times between two ticks of the other. |
| `SchedulerObjects.Scheduler.ScheduleService` | internal/manager/scheduler/scheduler.go:77-93 | The method on the heap object leaves exactly the scheduler that `Staggering.DueStaggered` and `Schedulers.ScheduleAdds` are about. |
| `SchedulerObjects.Scheduler.RemoveService` | internal/manager/scheduler/scheduler.go:95-112 | The same, with the "last" flag. |
| `SchedulerObjects.Scheduler.ReSchedule` | internal/manager/scheduler/scheduler.go:115-132 | The same for `reSchedule`, whose restart on an empty heap is never reached. |
| `SchedulerObjects.Scheduler.LoopTurn` | internal/manager/scheduler/scheduler.go:142-199 | One turn of the loop leaves the specified scheduler and ticks the top service. |
| `ScheduledServices.BinarySearch` | internal/manager/scheduled_services.go:80-95 | The bisection finds an id in a sorted queue exactly when it is there. |
| `Strings.FirstDifferenceDecides` | internal/manager/scheduled_services.go:80-95 | Ids, and names of rules, are ordered by their first difference: the smaller character there, or the end of the string, comes first. |
| `ScheduledServices.Index.SearchInterval` | internal/manager/scheduled_services.go:80-95 | The search of one queue, also of a missing one. |
| `ScheduledServices.Index.Search` | internal/manager/scheduled_services.go:68-77 | In whatever order the queues are tried, an id is found exactly when it was added and not deleted, with its interval and position. |
| `ScheduledServices.Index.Add` | internal/manager/scheduled_services.go:13-25 | Adding and sorting refines one update of the map from id to interval; queues stay strictly sorted. |
| `ScheduledServices.Index.Delete` | internal/manager/scheduled_services.go:28-37 | Deleting removes exactly that id from the map. |
| `ScheduledServices.Index.MoveToInterval` | internal/manager/scheduled_services.go:41-60 | Moving changes the interval of that id only, and nothing for an unknown id. |
| `ManagerInvariants.MoveKeeps` | internal/manager/manager.go:488-510 | Moving a service between schedulers, which may stop the old one and start a new one, loses no registered service from checking. |
| `ManagerPromotions.MoveFlagKeeps` | internal/manager/manager.go:370-416 | A promotion moves the stored flag: at most the new active is flagged afterwards, or it is refused because a record is missing. |
| `ManagerPromotions.HandlePromotionKeeps` | internal/manager/manager.go:334-439 | Handling any truthful event keeps index, schedulers and store sound and leaves the group flags on the new active at most. |
| `ManagerEffects.PromotionEffect` | internal/manager/manager.go:334-439 | A promotion exchanges the intervals and changes the DNS rules exactly when both services it names have a stored record; otherwise it leaves objects, groups and rules as they are. |
| `ManagerSteps.RegisterNewKeeps` | internal/manager/manager.go:147-187 | A first registration keeps the whole invariant and adds exactly one service. |
| `ManagerSteps.GroupChangeRestores` | internal/manager/manager.go:441-450 | A group method that raised a truthful event, followed by its promotion, restores the whole invariant. |
| `ManagerSteps.CheckKeeps` | internal/manager/manager.go:155-166 | A check result, with flip, election, promotion and stored health, keeps the whole invariant. |
| `ManagerLeaving.RemoveServiceKeeps` | internal/manager/manager.go:190-220 | A removal, which may promote another member on the way, keeps the whole invariant and removes exactly one service. |
| `ManagerRuns.RefreshKeeps` | internal/manager/manager.go:246-257 | A changed configuration in the same group keeps the whole invariant. |
| `ManagerRuns.ChangeGroupKeeps` | internal/manager/manager.go:283-331 | A move to another group, during which the service is in both, keeps the whole invariant. |
| `ManagerRuns.FollowDefaultKeeps` | internal/manager/manager.go:271-278 | Following a new default interval keeps the whole invariant. |
| `ManagerRuns.UpdateServiceKeeps` | internal/manager/manager.go:223-281 | An update of an existing service, whatever its interval, keeps the set of services and the whole invariant, or panics in moving to its new default interval. |
| `ManagerRuns.RegisterServiceKeeps` | internal/manager/manager.go:128-187 | Every registration, new, updating or refused, and whatever its interval, registers exactly the ids it should, and keeps the whole invariant unless it panics. |
| `ManagerRuns.StepKeeps` | internal/manager/manager.go:128-331 | Every entry point keeps the whole invariant; none panics but those registrations. |
| `ManagerRuns.RunKeeps` | internal/manager/manager.go:128-331 | From an empty manager, every run keeps it up to a panic. |
| `ManagerUpdates.RegistrationPanicsIff` | internal/manager/scheduler/scheduler.go:77-93 | A registration panics, by a division by zero, if and only if its interval is between -0.5 s and 0.5 s and it is a first registration, or changes the configuration of a service that stands at its old, different default interval once its groups have had their elections. |
| `ManagerUpdates.SettledIsReached` | internal/manager/manager.go:334-439 | Where a service stands after its update is given by members, actives and intervals before the call: it gets the base interval of an active that it ousts, or the interval of its heir, or stays where it is; groups of one, and of two when it leaves, change their active without exchanging intervals. |
| `ManagerUpdates.FollowsIff` | internal/manager/manager.go:223-278 | Where a service is indexed after any registration of it that does not panic: where it was if no setting differs; at the configured interval if its elections leave it at its old default; and otherwise where they leave it. |
| `ManagerUpdates.RunPanicsIff` | internal/manager/manager.go:461-510 | A run of any length panics if and only if one of its registrations meets that condition when it is made. |
| `ManagerFailures.FirstRegistrationPanics` | internal/manager/scheduler/scheduler.go:88 | Any well-formed first configuration with such an interval. |
| `ManagerFailures.UpdateMayPanic` | internal/manager/manager.go:271-278 | Any service with failure threshold 1, registered at an interval that can be scheduled, and then updated with another address and such an interval. |
| `ManagerUpdates.UpdateReachesIff` | internal/manager/manager.go:230-239 | After any registration of a known service that does not panic, its object has the configured ip, port, fqdn, datacenter, check type, priority and failure threshold, and health and counter as before. It is a member of the configured group afterwards if and only if one of those seven differed before or it was in that group already, and likewise for its default interval; if none differed, nothing changes at all. |
| `ManagerUpdates.ChangedIffSettingsDiffer` | internal/service/service.go:259-269 | A configuration is taken for changed if and only if one of those seven settings differs from the object. |
| `ManagerUpdates.FirstHasSettings` | internal/manager/manager.go:535-560 | A service registered for the first time has all that is configured; health and counter, unless that is negative, are those of its stored record, if there is one, and otherwise down and the threshold. |
| `ManagerFailures.RegroupingSkipped` | internal/service/service.go:259-269 | Any service with failure threshold 1 and a schedulable interval, registered again with another group only: it stays in the old one. |
| `ManagerEffects.RegisterNewEffect` | internal/manager/manager.go:147-187 | What a first registration does to objects, groups and rules is determined by them, with the promotion it raises: no stored record, index or scheduler gets in its way. |
| `ManagerEffects.RegroupedEffect` | internal/manager/manager.go:223-331 | The same for an update, in the same group or with its two elections when it moves: computed from the state before. |
| `ManagerEffects.RemoveEffect` | internal/manager/manager.go:190-220 | The same for a removal. |
| `ManagerEffects.CheckEffect` | internal/manager/manager.go:155-166 | The same for a check result, whose promotion is heeded exactly when the service it demotes is registered. |
| `ManagerRecoveries.RecoveryHeardIff` | internal/manager/manager.go:345-416 | When a check result makes a service the active of its group, it is announced and flagged, unless the group is ActivePassive and was down, and the service last active in it is this one or is no longer registered; then it is neither. |
| `ManagerSpares.CheckSparesIff` | internal/manager/manager.go:370-416 | A check result leaves the rules, the stored flags and the services of all other groups as they are, if and only if it is not one that brings up a service in an ActivePassive group that is down, and whose last active is registered in another group by now and has a rule, a flag or another interval to lose. |
| `ManagerSpares.CheckElsewhere` | internal/manager/manager.go:370-416 | What the other groups lose then is exactly that: the rule and the flag of the former active, and its interval, which becomes that of the service that came up. |
| `ManagerSpares.CheckKeepsGroups` | internal/manager/servicegroup.go:111-193 | Members and actives of the other groups stay as they are even then. |
| `ManagerStrays.RecoveryHitsAnother` | internal/manager/manager.go:370-401 | Any three services of a group with failure threshold 1 and schedulable intervals, of which the second differs in priority from both others: the first comes up, goes down, moves to any other group, and is announced and flagged there; when the second comes up, the first loses rule and flag, although it is still the healthy active of its new group. |
| `ManagerFailures.RecoveryUnheard` | internal/manager/servicegroup.go:111-141 | Any two services of different priority in a group, with failure threshold 1 and schedulable intervals: one comes up, goes down and comes up again, and is active without being announced. |
| `ManagerFailures.RecoveryUnheardAfterRemoval` | internal/manager/manager.go:370-379 | Any three such services in a group: one comes up, goes down and is removed, and the next to come up is active without being announced. |
| `ManagerRuns.ReachableGroupsElect` | internal/manager/servicegroup.go:382-410 | In every reachable state every group is non-empty and has a healthy active of the best priority, or no healthy member. |
| `ManagerElections.StepPlaces` | internal/manager/manager.go:128-331 | For every sorting algorithm: after a registration, a removal, or an update that changes a setting, the members of the groups concerned are listed by priority and recorded round trips, no healthy one is to be preferred to the active, and the mode tells whether priorities differ. |
| `ManagerRuns.ReachableMembership` | internal/manager/manager.go:441-458 | In every reachable state membership is a partition: a service is a member of exactly the group it names, if it is registered. |
| `ManagerRuns.ReachableStore` | internal/repositories/service/service.go:28-178 | In every reachable state the store holds exactly the ids of the members of each group, each once, and at most one flagged record, which is the active. |
| `ManagerRuns.ReachableChecks` | internal/manager/manager.go:461-510 | In every reachable state every registered service has a live entry in a running scheduler at exactly the interval it is indexed at. |
| `ManagerEntries.SingleIffNoEarlyReturns` | internal/manager/manager.go:461-510 | Over any run of the manager: no scheduler ever holds two entries of a service, between steps or in the middle of one, if and only if no service is ever scheduled where an entry of it, dead or alive, is left. |
| `ManagerEntries.ReachableSingleCheck` | internal/manager/manager.go:461-510 | In every reachable state of such a run, the live entry of a registered service is the only entry of it in its scheduler. |
| `ManagerEntries.ScheduledWhenDue` | internal/manager/scheduler/scheduler.go:77-93 | A call of `ScheduleService` by the manager adds one live entry of the service to the scheduler at the interval, new or not, due by the clock and the gap that the call sees, and changes no other scheduler. |
| `ManagerEntries.TurnReschedules` | internal/manager/scheduler/scheduler.go:115-132 | A turn of a loop takes an entry that no other is due before, puts it back if it is live, due by the clock and the gap that the turn sees, and changes nothing else in the manager. |
| `ManagerStops.RemovedIsCheckedIff` | internal/manager/manager.go:190-220 | From any sound state: a removed service is still being checked, under a live entry of some scheduler, if and only if it was the active of a group of three or more with an heir that is scheduled at another interval, or had a live entry besides the first one at its interval. In the first case the promotion of the heir puts the removed service back on a schedule. |
| `ManagerStops.OnlyRegisteredIffNoneLeft` | internal/manager/manager.go:128-510 | Over every run without a panic in which no service returns early: schedulers hold live entries of registered services only, at the interval that they are indexed at, at every moment between two steps, if and only if no step is a removal of the first kind. |
| `ManagerStops.ReachableCheckedIff` | internal/manager/manager.go:461-510 | In every state of such a run a scheduler holds a live entry of a service if and only if the service is registered and indexed at its interval. |
| `ManagerLingers.RemovedStaysChecked` | internal/manager/manager.go:370-416 | Any three services of a group with failure threshold 1, of which the first has a smaller priority than the second and a base interval other than its interval: both come up and the first is removed; no group, record or index knows it any more, and a scheduler still holds a live entry of it. |
| `ManagerStops.SchedulerGoesIff` | internal/manager/manager.go:488-510 | A move drops the scheduler that it leaves if and only if no entry but one of the moved service is in it. |
| `ManagerFailures.ReturnsAfterRemoval` | internal/manager/manager.go:190-205 | Any service with failure threshold 1 and a schedulable interval that is registered, removed and registered again meets its tombstone. |
| `ManagerRules.RemovalKeepsRules` | internal/manager/manager.go:190-220 | A removal keeps every announced rule right if and only if it does not take the announced active away from a group that vanishes with it, or that keeps one member which is down or in another datacenter. |
| `ManagerFailures.RemovalLeavesRule` | internal/manager/manager.go:190-220 | Any service with failure threshold 1 and a schedulable interval, registered alone, up and then removed, leaves its rule behind. |
| `ManagerRules.UpdateKeepsRulesIff` | internal/manager/manager.go:223-331 | An update, in the group or to another one, keeps every announced rule right if and only if it is skipped, or its service is not announced, keeps group and datacenter, or has an heir in its old datacenter; the heir is elected from the members that stay, from the objects before the call with the new configuration. |
| `ManagerRules.JoinChooses` | internal/manager/servicegroup.go:382-410 | Joining a group elects a member from those it had and the service, and announces it exactly when the group existed and its active changes. |
| `ManagerRules.NewActiveIsBest` | internal/manager/servicegroup.go:382-410 | For every sorting algorithm that member is a healthy one of the best priority among them, to which no other of that priority is to be preferred by its round trip, or there is none. |
| `ManagerRules.HeirIsBest` | internal/manager/servicegroup.go:382-410 | For every sorting algorithm the heir is a healthy member of the best priority among those that stay, to which no other of that priority is to be preferred by its round trip, or there is none. |
| `ManagerRules.NewGroupRuleIff` | internal/manager/manager.go:283-331 | After a move, the active of the new group has its rule if and only if it was announced on joining and the service did not leave, as active, a group of three or more while in the datacenter of that active: then it withdraws the rule. |
| `ManagerFailures.RenamingLeavesRule` | internal/manager/manager.go:243-257 | Any such service, registered alone, up, and then given another datacenter, leaves a wrong rule behind. |
| `ManagerFailures.MoveLeavesRule` | internal/manager/manager.go:283-331 | Any four such services, one of them up in a group of three, which moves to the group of the fourth: the old rule stays, and the new group, whose active it is, has none. |
| `ManagerRules.StepRulesIff` | internal/manager/manager.go:128-331 | From a sound state with right rules only, every step leaves right rules only if and only if it is such a removal or such an update. |
| `ManagerRuleChanges.StepChanges` | internal/manager/manager.go:334-439 | Every step that does not panic withdraws, and then announces, exactly the rules of `StepChange`, whatever rules there are: those of the services that lose and get the role of the active, given by members, actives and configurations before the step; at most two groups, and none when the change is silent or unheard. |
| `ManagerRules.AlwaysRightIffUndisturbed` | internal/manager/manager.go:128-439 | Over every run without a panic: every rule is that of its group's active at every moment if and only if no step is such a removal or update. |
| `ManagerRules.OneRulePerGroup` | internal/manager/manager.go:334-439 | Over every run without those steps, at most one service per group is announced to DNS, and it is the healthy active. |
| `ManagerRecords.ReachableRecords` | internal/repositories/service/service.go:28-106 | In every reachable state every stored record has the current address, datacenter, name and health of its service. |
| `ManagerRecords.RecordsAreWrittenWhole` | internal/repositories/service/service.go:28-106 | A step of a reachable state leaves a record as it is, or writes all of it: under its own id and group, without an override, and with the failure counter that the object has after the step. |
| `ManagerShutdown.OnShutdown` | internal/manager/manager.go:100-126 | The nested loops store the members of all groups in turn and stop at the first refusal. |
| `ManagerShutdown.PersistedFlags` | internal/manager/manager.go:108-120 | From any state and over any store, overrides included: the record stored for a member is flagged exactly when `GetActive` answers that member, and as overriding exactly when its group was overridden; it is refused exactly when there is none. |
| `ManagerShutdown.ShutdownFlagsExactlyTheActive` | internal/manager/manager.go:100-126 | In every reachable state, in whatever order the groups are visited: nothing is refused, every record is up to date afterwards, and in each group exactly the answer of `GetActive` is flagged, which is a right choice. |
| `ManagerShutdown.ReachableGetActive` | internal/manager/servicegroup.go:78-95 | In every reachable state, `GetActive` answers a healthy member of the best priority whenever there is one, and the group's own active if and only if the group is ActivePassive, or down, or no healthy member is listed before the active. |
| `ManagerShutdown.GetActiveMayAnswerAnother` | internal/manager/servicegroup.go:78-95 | A recovery after which the two differ. |
| `ManagerRestarts.RestartKeeps` | cmd/main.go:48-63 | A manager that finds any stored records (no id twice in a group, every record under its own group and with an id, no overrides) and any rules on the servers runs, up to a panic, in step with a sound manager that has the same rules and whose store has no leftovers: they differ in nothing but stored records in places, group and id, that no service has been in since. |
| `ManagerRestarts.RestartElects` | internal/manager/servicegroup.go:382-410 | So after a restart, too, every group has a healthy active of the best priority or no healthy member, and membership is a partition. |
| `ManagerRestartRuns.RestartChecks` | internal/manager/manager.go:461-510 | And every registered service has a live entry in a running scheduler at exactly the interval it is indexed at. |
| `ManagerRestartRuns.RestartRecord` | internal/repositories/service/service.go:28-106 | And it has a record under its group, which is flagged only if it is the active there. |
| `ManagerRestartRules.RestartChanges` | internal/manager/manager.go:334-439 | After a restart every step still withdraws and announces exactly the rules of `ManagerRuleChanges.StepChange`, whatever rules there are. |
| `ManagerRestartRules.RestartRulesIff` | internal/manager/manager.go:100-126 | Whatever was stored, and whatever rules `left` the servers hold at the start: over every run without a panic, every rule is at every moment that of its group's active or one of `left`, if and only if no step is such a removal or update that leaves behind a rule not in `left`. |
| `ManagerRestartRules.RestartOneRulePerGroup` | internal/manager/manager.go:334-439 | Over every run without those steps, of the rules that are not in `left` there is at most one for each group, that of its healthy active. |
| `ManagerRestartRules.RulesBetween` | internal/manager/manager.go:100-126 | The servers hold what the same run, a run without a panic too, would put on empty ones, and otherwise only rules of `left`; nothing else in the manager depends on `left`. |
| `ManagerRestartRules.LeftRuleStaysIff` | internal/manager/manager.go:389-437 | A rule of `left` is there at every moment of a run if and only if no step withdraws it. |
| `ManagerRestartRules.WithdrawnIsInOffice` | internal/manager/manager.go:389-437 | A step withdraws a rule only when it is that of a service that is the active of a group, or its last active while it is down, under its configuration before or in that step, and that hands this role over. |
| `ManagerRestartRuns.RestartPanicsIff` | internal/manager/manager.go:461-510 | Whatever was stored and whatever rules there were, a run panics if and only if one of its registrations meets the condition of `ManagerUpdates.RegistrationPanicsIff` when it is made. |
| `ManagerRestarts.LeftoversStay` | internal/repositories/service/service.go:28-178 | A stored record, flag included, stays as it is as long as no object of its service names its group: also when the service has left the zone while the manager was down, or is registered in another group. |
| `ManagerRestarts.RestartHeardIff` | internal/manager/manager.go:535-560 | When a first registration makes its service the active of its group, as it can only with a record stored as healthy, the service is flagged if and only if the group already had members, and its rule is on the servers if and only if it had or the rule was there already, left over or not. |
| `ManagerRevivals.CanRestart` | internal/manager/manager.go:100-126 | In every state reached, after however many restarts, what is stored can be started on again, and shutting down, in whatever order the groups are visited, refuses nothing and leaves such a store. |
| `ManagerRevivals.RevivesSilently` | internal/manager/manager.go:535-560 | Any service with failure threshold 1 and a schedulable interval, the only one, announced and flagged when the manager shuts down, with exactly its rule on the servers at the restart: registered again it is healthy and active and its rule is still there, but it is no longer flagged. So the next synchronisation withdraws the rule, and neither successful checks nor further synchronisations bring it back. |
| `ManagerRevivals.TwoRulesAfterRestart` | cmd/main.go:48-63 | Any two such services of a group in two datacenters, of which the first was up when the manager shut down, while only the second is registered after the restart, and comes up: the servers then have a rule of each, the first one still being asked for by its flag, without a panic and without a step that leaves a rule behind. |
| `ManagerRevivals.LeftoverIsAskedFor` | internal/repositories/spoof/spoof.go:62-78 | The rule of a record that is left over flagged is asked for, in every state of every run, as long as no object of its service names its group. |
| `ManagerObjects.ServicesManager.MoveToInterval` | internal/manager/manager.go:488-510 | The in-place method leaves exactly the specified state. |
| `ManagerObjects.ServicesManager.PromotionHandler` | internal/manager/manager.go:334-439 | The same for `handlePromotion`, with its early returns. |
| `ManagerObjects.ServicesManager.Exchange` | internal/manager/manager.go:389-437 | The same for the moves and announcements of a promotion. |
| `ManagerObjects.ServicesManager.MemberOfChanged` | internal/manager/manager.go:283-331 | The same for `memberOfChanged`. |
| `ManagerObjects.ServicesManager.UpdateExisting` | internal/manager/manager.go:223-281 | The same for `updateService`, which `ManagerUpdates.UpdateReachesIff` says is skipped exactly when none of seven settings differs. |
| `ManagerObjects.ServicesManager.RegisterService` | internal/manager/manager.go:128-187 | The specified state, the configured id added to the registered ones, a panic exactly under the condition above, and the invariant otherwise. |
| `ManagerObjects.ServicesManager.RemoveService` | internal/manager/manager.go:190-220 | The specified state, the invariant, and exactly that id gone; the result says whether it was there. |
| `ManagerObjects.ServicesManager.CheckCompleted` | internal/manager/manager.go:155-166 | The specified state, the invariant and the same registered services after a check. |
| `Handlers.IdsOf` | internal/dns/handler.go:103-108 | The ids that a batch registers. |
| `Handlers.Handler.RegisterBatch` | internal/dns/handler.go:102-108 | The first loop registers exactly the services of the batch, on top of those known, unless the manager panics, whatever checks and turns come between two records; the manager is where its recorded events lead from an empty one, so all theorems about runs apply. |
| `Handlers.Handler.RemoveStale` | internal/dns/handler.go:110-118 | The second loop removes exactly the known services that the batch does not list, in whatever order they are visited and whatever checks and turns come in between. |
| `Handlers.Handler.HandleBatch` | internal/dns/handler.go:102-120 | After a batch exactly the services its records registered are registered, and known, unless the manager has panicked, with checks and turns anywhere during the batch and after it. |
| `Handlers.Handler.RunUnattended` | internal/manager/scheduler/scheduler.go:142-199 | At any such point any check results and scheduler turns may come: no panic, and the same services stay registered. |
| `Handlers.Handler.HandleZoneUpdates` | internal/dns/handler.go:95-133 | The same for any sequence of batches: in the end exactly the services of the last one are known and registered. |
| `Spoofs.ReadAll` | internal/repositories/spoof/spoof.go:62-78 | The nested loops collect exactly the spoofs of the active records, in the order of the visit; what such a spoof carries is `Spoofs.SpoofAskedIff`. |
| `Spoofs.SpoofAskedIff` | internal/model/service.go:28-34 | A spoof is among them if and only if some active record is stored under its name as group, has its datacenter and has its address. |
| `SpoofRuns.AskedAddresses` | internal/repositories/spoof/spoof.go:62-78 | So in every reachable state, and the name, the datacenter and the address are then those that the healthy active of the group has at that moment. |
| `SpoofRuns.AddedAddresses` | internal/dns/update/dnsdist.go:222-231 | Every rule that a reconciliation of a reachable state adds carries the current datacenter and address of its group's healthy active, and its name was not configured. |
| `Spoofs.OrderOnlyRearranges` | internal/repositories/spoof/spoof.go:62-78 | Two visits in different orders collect the same spoofs, as multisets. |
| `Spoofs.HashIgnoresVisitOrder` | internal/repositories/spoof/spoof.go:80-100 | With distinct keys, the sorted list, hence any hash of it, depends neither on the order of the visit nor on the sorting algorithm. |
| `Spoofs.CanonicalIffKeysDiffer` | internal/repositories/spoof/spoof.go:86-91 | All sorting algorithms agree on a list of spoofs if and only if no two different spoofs in it share a key. |
| `Spoofs.HashDecides` | internal/dns/update/dnsdist.go:143-155 | With serialising and hashing injective, a server has the desired hash if and only if it has exactly the desired spoofs, each once. |
| `Spoofs.KeySplits` | internal/repositories/spoof/spoof.go:89 | A name without a colon is recovered from a key. |
| `Spoofs.StoredKeysDistinct` | internal/repositories/spoof/spoof.go:62-78 | With one active record per group at most and no colon in group names, the stored spoofs have distinct keys. |
| `SpoofRuns.ReachableHashIsCanonical` | internal/repositories/spoof/spoof.go:80-100 | So in every reachable state of the manager, provided that group names contain no colon. |
| `SpoofRuns.OneRulePerGroupOnServers` | internal/dns/update/dnsdist.go:205-234 | From every such state, one reconciliation leaves on a server, whatever it had configured, only rules under the names of healthy actives of groups; it leaves at most one for each group if and only if none of these names was configured twice. |
| `SpoofRuns.SynchronisingRights` | internal/dns/update/dnsdist.go:137-165 | In every state reached from an empty store, a synchronisation leaves right rules only, whatever steps have left behind. |
| `Synchronising.SyncLeavesFlagged` | internal/dns/update/dnsdist.go:205-234 | For any store, visited in any order, and any rules on a server, repeated names included: after a reconciliation the server has exactly the names of the flagged records. |
| `Synchronising.FlaggedMeans` | internal/repositories/spoof/spoof.go:62-78 | A rule is asked for if and only if some record found in the store is flagged and has its group and datacenter. |
| `Reconciling.Reconcile` | internal/dns/update/dnsdist.go:205-234 | The two loops leave exactly the specified rules on the server and issue exactly the specified commands, also when a name is configured several times. |
| `Reconciling.ReconciledRules` | internal/dns/update/dnsdist.go:205-234 | The server ends up with exactly the desired names, each once if and only if no desired name was configured twice; a rule whose name is both configured and desired stays untouched, and every other rule is a desired one. |
| `Reconciling.OneCommandPerDifference` | internal/dns/update/dnsdist.go:211-231 | With no name configured twice, a name on one side only gets exactly one command, the right one, and any other name gets none. |
| `Reconciling.ReconcileTwice` | internal/dns/update/dnsdist.go:205-234 | A second reconciliation issues no command and changes nothing. |
| `Reconciling.EqualHashNeedsNoCommand` | internal/dns/update/dnsdist.go:155-160 | Skipping a server with the desired hash skips no command. |
| `Reconciling.HashAgreesIffAddressesDid` | internal/dns/update/dnsdist.go:211-231 | After a reconciliation the hash is the desired one if and only if no desired name was configured twice and no rule that was both configured and desired had another address. |
| `Nonces.PutThenGet` | pkg/dnsdist/client.go:219-220 | A number put in four bytes is read back modulo 2^32. |
| `Nonces.GetThenPut` | pkg/dnsdist/client.go:252-256 | Four bytes are the encoding of the number they give. |
| `Nonces.IncrementNonce` | pkg/dnsdist/client.go:252-256 | The in-place increment: the new 24 bytes. |
| `Nonces.AfterCounts` | pkg/dnsdist/client.go:252-256 | After `k` increments the counter has advanced by `k` modulo 2^32 and the other twenty bytes are the same. |
| `Nonces.IncrementCarries` | pkg/dnsdist/client.go:252-256 | An increment, byte by byte: the last of the first four bytes that is not 255 goes up by one, those of the four behind it become 0, and no other byte changes. |
| `Nonces.NonceRepeatsIff` | pkg/dnsdist/client.go:168-190 | One direction uses the same nonce for two messages if and only if a multiple of 2^32 messages lie between them. |
| `Nonces.DirectionsMeetIff` | pkg/dnsdist/client.go:140-147 | The two directions ever share a nonce if and only if client and server presented nonces that agree in the last twenty bytes. |
| `Consoles.FrameReadBackIff` | pkg/dnsdist/mock_server.go:150-175 | A frame is read back as exactly the message sent, whatever follows it on the stream, if and only if its length is below 2^32. |
| `Consoles.PartOfFrameWaits` | pkg/dnsdist/client.go:232-242 | While any byte of a frame is missing the reader waits. |
| `Consoles.ReceiveKeepsStep` | pkg/dnsdist/client.go:179-190 | Reading yields the oldest message not yet received, and keeps writer and reader in step. |
| `Consoles.RunStaysInStep` | pkg/dnsdist/client.go:216-250 | However sends and receives of a direction interleave, messages arrive exactly as sent and in order, nothing fails to decrypt, and each side's nonce has counted exactly the messages that side handled. |
| `ConsoleObjects.ServerSession.Accept` | pkg/dnsdist/mock_server.go:99-132 | The server's half of the handshake: bytes read and written, and both nonces, byte by byte: bytes 0-11 of its read nonce are its own and bytes 12-23 the client's, and the other way round for its write nonce. |
| `ConsoleObjects.Client.ShakeHands` | pkg/dnsdist/client.go:106-147 | The client's half, before the test command: bytes 0-11 of its write nonce are the server's and bytes 12-23 its own, and the other way round for its read nonce; the server's two nonces are the same ones exchanged. |
| `ConsoleObjects.ServerSession.Serve` | pkg/dnsdist/mock_server.go:135-193 | One turn of the command loop: waiting, breaking, or answering with the handler's response and both nonces advanced. |
| `ConsoleObjects.Client.ReceiveResponse` | pkg/dnsdist/client.go:232-249 | The client's reading half of a command, with its error cases. |
| `ConsoleObjects.Client.SendCommand` | pkg/dnsdist/client.go:216-250 | In lockstep, a command is answered with exactly the handler's response, and client and server are in lockstep again, one nonce further in both directions. |
| `ConsoleObjects.Client.Connect` | pkg/dnsdist/client.go:106-159 | After the handshake and the test command both sides are in lockstep, each nonce is the one put together from those halves and incremented once, and it succeeds exactly when the server answers the empty command with nothing. |
| `Nonces.SessionNonces` | pkg/dnsdist/client.go:140-190 | In a session of `n` commands no nonce repeats within a direction if and only if `n` is below 2^32, and none is common to both directions if the presented nonces differ in the last twenty bytes. |
| `ConsoleObjects.Client.Session` | pkg/dnsdist/client.go:106-250 | A session of any number of commands: every one is answered by its handler's response, and both nonces are those put together from the two halves, advanced once for each command and once for the test command. |
| `Pools.EveryJobOnce` | pkg/pool/pool.go:72-165 | At every moment of every interleaving: an accepted job is in exactly one place, it was executed at most once, and reported at most once and only with the outcome of its execution; nothing else has been executed. |
| `Pools.QuietMeansDone` | pkg/pool/pool.go:126-165 | When nothing is under way, every accepted job has been executed and reported exactly once. |
| `Pools.WorkersAreCounted` | pkg/pool/pool.go:111-165 | `numRunningWorkers` is the number of live workers, never below the minimum while the pool is open and all starts are done, and 0 once a stopped pool has closed its channel. |
| `Pools.MinimumIsKept` | pkg/pool/pool.go:143-162 | Once the minimum of workers is running, it stays running through any interleaving of workers and callers, until the pool is stopped or scaled. |
| `Pools.QueuedJobHasWorker` | pkg/pool/pool.go:83-91 | With a minimum of at least one, a queued job always has a live worker: busy, or able to take it. |
| `PoolWorkers.PutStartsWorkerIffFull` | pkg/pool/pool.go:72-91 | Over every interleaving: a call of `Put` never starts more than one worker, and by the time it sends its job, and ever after, it has looked at the buffer and has started exactly one worker if the buffer was full then, and none if it was not. |
| `PoolWorkers.AcceptedIffOpen` | pkg/pool/pool.go:72-81 | In every reachable state a job is accepted exactly when the pool has been started and not stopped; a refused one changes nothing. |
| `PoolWorkers.ScalingReaches` | pkg/pool/pool.go:93-109 | With no other start of a worker under way, `ScaleTo` brings the pool to exactly the target, or leaves it as large as it was: never above both on the way, and there exactly when its last `newWorker` has been called. |
| `PoolWorkers.StartReaches` | pkg/pool/pool.go:51-61 | `Start` starts exactly the minimum of workers, and a second `Start` none. |
| `PoolWorkers.IdleLeavesIffAboveMinimum` | pkg/pool/pool.go:151-162 | In every reachable state an idle worker whose time is up leaves if and only if the pool is above its minimum, and the counter follows. |
| `PoolWorkers.JobsAreFirstInFirstOut` | pkg/pool/pool.go:72-81 | Jobs are received in the order in which they were sent, through the buffer or from hand to hand, and the buffer never holds more than its capacity. |
| `PoolStops.ZeroMinimumStrandsJob` | pkg/pool/pool.go:83-91 | With a minimum of none and any buffer, the first job is accepted and then never taken. |
| `PoolStops.StopIsCleanIff` | pkg/pool/pool.go:63-70 | No continuation after `Stop` panics or leaves a worker uncounted if and only if no `Put` and no start of a worker is under way when it is called. |
| `RoundTrips.RecordKeeps` | internal/checks/roundtrip.go:33-43 | Recording in the ring keeps exactly the last twenty recordings in it, and their sum. |
| `RoundTrips.RoundTripper.EndRecording` | internal/checks/roundtrip.go:33-43 | A recording is appended to the history that the ring stands for. |
| `RoundTrips.RoundTripper.AverageRoundtripTime` | internal/checks/roundtrip.go:45-60 | After any recordings the result is the integer quotient of the sum of the last twenty, or of all when there are fewer, by their number; 0 without any. |
| `RoundTrips.AverageIsWithin` | internal/checks/roundtrip.go:45-60 | The average lies between the shortest and the longest of the last twenty recordings. |
| `RoundTrips.AverageRounds` | internal/checks/roundtrip.go:45-60 | It is the exact mean of the last twenty, or of all when there are fewer, rounded towards zero. |

## Left out

- Mutexes, and the paths on which the code returns without unlocking: only the meaning of atomic steps is
  modelled.
- Failing stores, JSON errors and network errors: store, serialisation and connections succeed, except for
  the error results of the repository and the console protocol that are modelled.
- Two live objects with one service id: objects are identified by id. In the code a removed object can stay behind
  as the `lastActive` of its group while a new object with its id is registered. When another member then
  recovers, the code (internal/manager/manager.go:395 and 488-506) moves the new object in the index but
  schedules the old one, and dereferences a missing scheduler if that of the old object's interval has been
  cleaned up meanwhile. `ManagerUpdates.RunPanicsIff`, `ManagerRuns.ReachableChecks` and the other theorems about
  runs hold up to identity by id only.
- ManagerRuns.RunKeeps: starts from an empty store and with no rules on the servers, although cmd/main.go:48 opens
  the store that is there and the servers keep their rules, and so do all theorems about runs but those of
  `ManagerRestarts`, `ManagerRestartRules`, `ManagerRestartRuns` and `ManagerRevivals`. Not carried over to such a
  start are the theorems on single entries, checks of removed services, recoveries, contents of records, and
  canonical spoofs.
- A synchronisation is not a step of the runs: `Synchronising.Synchronised` is applied to a state between two runs.
  Rules are a set there, so a rule that is announced while it is on the servers already is not counted twice;
  `Reconciling` and `SpoofRuns.OneRulePerGroupOnServers` do count.
- `CalculateInterval` and `GetBaseInterval`: floating-point formulas; their results are parameters of a
  configuration, the former any duration, the latter at least five seconds.
- Configured priorities of `MaxInt`: no theorem about the manager allows them; what happens there is
  `ServiceGroups.FlipElects`.
- Services.HealthyIffLatestWindowSucceeded: keeps the failure threshold fixed, and so does `Services.CounterInvariant`;
  what a changed one leads to is `Services.FailuresTakeDown` and `Services.SuccessesBringUp`.
- Results of checks that complete after their service was removed, or that a service gets because it stays
  scheduled after its removal: the runs have results of registered services only.
- ManagerStops.OnlyRegisteredIffNoneLeft: leaves runs with early returns aside, in which removing takes out the first
  of several entries; what a single removal leaves then is `ManagerStops.RemovedIsCheckedIff`.
- Overrides set through the HTTP interface (`UpdateOverride`, `RemoveOverrideFlag`) and `Failover`: the
  theorems about runs, restarts included, start from a store without overrides, as only that interface sets one.
- `ActiveActiveRoundTrip`, a mode that is never set, beyond its empty branch.
- Spoofs.HashDecides: takes serialising to JSON and SHA-256 together as an injective function.
- Reconciling.Reconcile: takes the rules that `ParseRuleSet` read as exactly the spoof rules of the server,
  and a rule name as naming every rule with that name.
- Consoles.RunStaysInStep: takes secretbox as a pair of functions of which one undoes the other exactly.
- ConsoleObjects.Client.SendCommand: says nothing about messages of 2^32 - 16 bytes or more, for which
  `Consoles.FrameReadBackIff` shows that the framing fails.
- Retries and reconnecting of the dnsdist client, time-outs, and the handshake read that returns early.
- ServiceFairness.ServiceAtMostTwiceBetweenTicks: goes one way only, because a service that returns early once need
  not be ticked too often by that; `UnfairRuns.EarlyReturnsAreUnfair` shows that it can be.
- ServiceFairness.ServiceAtMostThriceBeforeFirstTick: the same.
- Fairness.LoopNeverStalls: takes peek, tick and reschedule as one step, so no entry is pushed between them.
- ManagerRules.OneRulePerGroup: says at most one, not exactly one, because groups of one change their active
  silently and some recoveries are not heard of.
- The worker pool as a class: its methods are goroutines that interfere with one another between their
  statements, so the pool is modelled on values, one action for each stretch between two such points.
- Pools.EveryJobOnce: jobs still queued when the pool stops stay queued, as in the code.
- The order of elements in a slice that is deleted from in place while another reference to it is held:
  sequences are values here, so aliasing of cached groups is not captured.
- Rule-set parsing, health checkers, Lua scripts, the zone transfer, HTTP handlers, tokens, configuration
  loading, logging and metrics: input and output, or thin wrappers around it.
