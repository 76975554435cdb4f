# Waldur site agent: protocols and arithmetic

The site agent keeps two systems in agreement: Waldur, reached over HTTP and a STOMP broker,
and a backend such as SLURM, LDAP or an API gateway. Calls fail, answers get lost, messages are
redelivered and the agent can be killed at any point. This project models the small protocols
that survive this, and the arithmetic of what is reported, and proves what they promise for
every input and every interleaving.

Two forms are used.

- **Protocols with several threads or parties** (`Consumer*`, `ApiKeys*`, `ProjectGroups`) are
  state machines: a label names one atomic region of the code or one move of the environment,
  and a run is any sequence of enabled labels. Theorems are about every run. A class beside each
  machine holds the program's own fields, and its methods are proved to be runs of the machine.
- **Procedures that change state step by step** (`Teardown`, `Membership`, `WatchdogAgent`,
  `UsageReporter`, `ComponentMapping`, `LogBuffer`, `BackendIds`, `Spending`) are classes and
  loops, with the outcome of every foreign call an argument: done, raised before or after taking
  effect, delivered, reply lost, request lost. Contracts hold for all of them.

| file | models |
|---|---|
| `Consumer`, `ConsumerSafety`, `ConsumerOrder`, `ConsumerExact`, `ConsumerListener` | the STOMP consumer: receiver, worker, connection generations, broker |
| `ApiKeys`, `ApiKeysSafe`, `ApiKeysProof`, `ApiKeysReplay`, `ApiKeysConcurrent`, `ApiKeysAgent` | API key commands from sweeps and messages: backend first, acknowledgement second, withdrawal, replay |
| `Teardown`, `Membership` | account teardown, role revocation, the membership pass |
| `Watchdog`, `WatchdogProof`, `WatchdogAgent` | the watchdog's tables and the history they stand for |
| `Spending`, `UsageReport`, `UsageReporter`, `Sums` | daily cents, monthly totals, what a report sends or skips |
| `ProjectGroups` | coalescing of project-group events by one timer |
| `ComponentMapping`, `LogBuffer`, `BackendIds` | the component mapper, the circular log buffer, the choice of backend ids |
| `Wrappers` | an option type |

## What does not hold

- Order of handling is kept **if and only if** the prefetch is 1, the broker has closed a replaced
  session before it serves the new one, and no receiver is left holding a frame of a replaced socket
  (`ConsumerExact.OrderExactly`); for each condition there is a run that breaks the order without it
  (`PrefetchMatters`, `PromptnessMatters`, `HeldFramesMatter`). The module docstring of the listener
  promises per-queue order naming the first only.
- Only messages handled to the end are acknowledged **if and only if** that last condition holds
  (`ConsumerExact.SafeExactly`). `on_message` reads the generation when it runs, so a frame the old
  receiver still holds when the watchdog has reconnected is tagged as current, and its old id
  acknowledges another message.
- Acknowledgements name frames of the session they go out on **if and only if** a socket is replaced
  only after `on_disconnected` ran for it (`ConsumerExact.AcksExactly`). The watchdog calls `reconnect`
  from a thread of its own as soon as a connection reads as down. An id that goes out too early comes
  before the subscription and takes nothing, so this alone costs no message and no order.
- A key command that comes by message may be stale. With one executor client_ids stay unique, no key
  goes astray and no held key is withdrawn, in every run. What Waldur shows stays true when the row
  waits on each command taken up; a late one keeps it true **if and only if** it asks for what the
  row shows already (`ApiKeysReplay.LateCommandExactly`, `LatePauseGoesUnnoticed`).
- When several commands are carried out at once, by a sweep and by message handlers, client_ids still
  stay unique and keys accounted for, since Waldur refuses an id a row holds. A mint can lead to the
  withdrawal of a held key **if and only if** it gives an id some row holds
  (`ApiKeysConcurrent.ReuseExactly`). One executor's list of reserved ids prevents that; with two the
  list can be out of date (`StaleListWithdraws`).
- A pass over project groups that fails to read schedules no other one: the marker is cleared before
  it starts and its error is swallowed. At rest every event was read **if and only if** some pass
  begun since the newest one could read (`ProjectGroups.ReadExactly`, `FailedPassLeavesUnread`).
- With a pull that is not strict, a torn-down person is gone from all resources **if and only if** no
  unreadable one lists them (`Teardown.LenientPullExactly`).
- The comparison that skips `set_usage` tells all amounts apart **if and only if** they are below
  ten million (`UsageReport.CloseExactly`, `LargeChangeGoesUnreported`).
- The amount of a component with one record can fall **if and only if** that record has per-user
  records (`UsageReport.MayFallExactly`, `WithUserRecordsItMayFall`).
- Without project-slug naming an id is tried again on the next attempt **if and only if** it was
  refused by the history, or is the slug and equals the next id anyway (`BackendIds.RepeatsExactly`).
  From a refusal on every answered attempt is the same id, refused again (`RefusalSticks`).
- `mark_offering_user_error_deleting` looks at the state the agent listed, which is out of date
  once the claim went through: a retry of a row listed as ERROR_DELETING that fails stays
  DELETING. Both are states the sweep selects, which is what `Teardown` proves.

## Model

| member | source | states |
|---|---|---|
| `ConsumerSafety.KeepsInv` | waldur_site_agent/event_processing/listener.py:268-392 | unless receivers are left holding frames, every atomic step of receiver, worker, transport and broker, a socket replaced early included, keeps: one live worker, current frames on a connected socket came on it, acks to a served session name finished messages, nothing lost |
| `ConsumerSafety.EveryRunSafe` | waldur_site_agent/event_processing/listener.py:54-62 | in every such run each published message is queued, unacknowledged on a session or acked; acked messages had their handler finish; at most one worker lives |
| `ConsumerSafety.AnyRunKeeps` | waldur_site_agent/event_processing/listener.py:54-62 | whatever the transport does, no message leaves the broker unacknowledged and at most one worker lives |
| `ConsumerSafety.AckNamesItsSession` | waldur_site_agent/event_processing/listener.py:345-367 | an ack that goes out is of a frame of the current generation whose handler finished; on a connected socket it names that frame of that session and no other open message, on one not connected yet that session has sent nothing |
| `ConsumerSafety.KeepsOneWorker` | waldur_site_agent/event_processing/listener.py:282-290 | no interleaving of starts and deaths leaves two live workers |
| `ConsumerSafety.KeepsNothingLost` | waldur_site_agent/event_processing/listener.py:54-62 | no step drops a message from queue, sessions and acked together |
| `ConsumerOrder.KeepsOrdered` | waldur_site_agent/event_processing/listener.py:292-314 | under the three conditions every step keeps: a current frame carries the oldest unacknowledged message and the handled sequence climbs by repeats or single steps |
| `ConsumerOrder.ClimbingCollapses` | waldur_site_agent/event_processing/listener.py:50-52 | a climbing sequence with repeats collapsed is exactly a prefix of the published one |
| `ConsumerExact.OrderExactly` | waldur_site_agent/event_processing/listener.py:92-95 | every run handles a prefix of the published sequence, repeats collapsed, if and only if prefetch is 1, replaced sessions are closed first and no receiver is left holding a frame |
| `ConsumerExact.SafeExactly` | waldur_site_agent/event_processing/listener.py:268-280 | in every run only messages handled to the end are acked, if and only if no receiver is left holding a frame |
| `ConsumerExact.AcksExactly` | waldur_site_agent/event_processing/listener.py:345-367 | in every run each ack to a live session names a frame it sent, if and only if sockets are replaced only after their disconnect was seen |
| `ConsumerExact.PrefetchMatters` | waldur_site_agent/event_processing/listener.py:387-392 | with prefetch 2 or more some run handles 0, 1, 0 |
| `ConsumerExact.PromptnessMatters` | waldur_site_agent/event_processing/listener.py:410-425 | with a lingering session some run handles 0, 1, 0 whatever the prefetch |
| `ConsumerExact.HeldFramesMatter` | waldur_site_agent/event_processing/listener.py:274-278 | with a receiver left holding a frame when its socket is replaced some run acks message 2 unhandled and handles 0, 1, 1, 3 |
| `ConsumerExact.OldIdOnNewSocket` | waldur_site_agent/event_processing/watchdog.py:231-266 | with a socket replaced early some run sends an id of the old session on the new one, which has sent nothing |
| `ConsumerListener.WaldurListener.constructor` | waldur_site_agent/event_processing/listener.py:232-240 | starts in the machine's initial listener state |
| `ConsumerListener.WaldurListener.OnMessage` | waldur_site_agent/event_processing/listener.py:268-280 | tags with the current generation, queues and sees to a worker, as three steps of the machine |
| `ConsumerListener.WaldurListener.EnsureWorker` | waldur_site_agent/event_processing/listener.py:282-290 | starts a worker unless closed or one lives, as the machine's step |
| `ConsumerListener.WaldurListener.DropConnectionGeneration` | waldur_site_agent/event_processing/listener.py:374-376 | every frame received so far is stale: none waiting is current, none taken would be started, none handled would be acked |
| `ConsumerSafety.ClosedForGood` | waldur_site_agent/event_processing/listener.py:369-372 | after a close, in every continuation no worker is started and no dead one comes back |
| `ConsumerSafety.EveryRunStopsClosed` | waldur_site_agent/event_processing/listener.py:369-372 | in every run a stop marker waits only in a closed listener |
| `ConsumerListener.WaldurListener.WorkOne` | waldur_site_agent/event_processing/listener.py:300-314 | one item is taken, checked, handled and acked through the machine's steps |
| `ConsumerListener.WaldurListener.Work` | waldur_site_agent/event_processing/listener.py:292-314 | an open listener's queue is drained with exactly the current frames handled and acked, in order; a closed one's worker ends at once and leaves everything that waits |
| `ApiKeysSafe.KeepsSafe` | waldur_site_agent/common/resource_api_keys.py:308-427 | every step of users, agent, sweep and messages, stale ones included, with every outcome of every call, keeps client_ids unique, minted keys accounted for and withdrawals off held keys |
| `ApiKeysSafe.EveryRunUnique` | waldur_site_agent/common/resource_api_keys.py:211-219 | in every run no client_id is held by two rows, deleted ones included |
| `ApiKeysConcurrent.EveryInterleavingSound` | waldur_site_agent/common/resource_api_keys.py:211-219 | for any number of executors interleaving step by step and whatever is minted: ids are unique, and without faults every key on the backend is held or in an executor's hand |
| `ApiKeysConcurrent.EveryInterleavingSafe` | waldur_site_agent/common/resource_api_keys.py:308-373 | as long as no held id is minted, no interleaving withdraws a held key |
| `ApiKeysConcurrent.ReuseExactly` | waldur_site_agent/common/resource_api_keys.py:319-347 | what follows a mint, itself free of reuse, can withdraw a held key if and only if the minted id was held by a row |
| `ApiKeysConcurrent.StaleListWithdraws` | waldur_site_agent/common/resource_api_keys.py:313-336 | with two executors a list of reserved ids can be out of date, and some run comes to withdraw a key a row holds |
| `ApiKeysProof.KeepsInv` | waldur_site_agent/common/resource_api_keys.py:308-427 | every step that takes up no command its row does not wait on keeps what Waldur shows true as well |
| `ApiKeysProof.SweepsAreTimely` | waldur_site_agent/common/resource_api_keys.py:614-707 | runs of sweeps without messages take up only commands their rows wait on, whatever users do meanwhile |
| `ApiKeysProof.EveryRunTrue` | waldur_site_agent/common/resource_api_keys.py:384-427 | in every run that takes up awaited commands only, from sweeps or messages, whatever Waldur shows as OK, Paused or Deleted the backend already has |
| `ApiKeysSafe.MintedIsHeldOrGone` | waldur_site_agent/common/resource_api_keys.py:308-373 | in every run without a failed re-read, a failed withdrawal, a mint that raised after minting or a kill, redelivered creates included, every key on the backend between commands is held by Waldur under its client_id |
| `ApiKeysSafe.HeldIsNeverWithdrawn` | waldur_site_agent/common/resource_api_keys.py:349-373 | in no run, redelivered creates included, is a key withdrawn that some row holds |
| `ApiKeysProof.DeletedForGood` | waldur_site_agent/common/resource_api_keys.py:536-611 | a deleted row stays as it is and its key never reappears on the backend, in every continuation that takes up awaited commands only |
| `ApiKeysAgent.KeyAgent.Withdraw` | waldur_site_agent/common/resource_api_keys.py:349-354 | is a run of the protocol, for every outcome |
| `ApiKeysAgent.KeyAgent.Create` | waldur_site_agent/common/resource_api_keys.py:308-328 | reading, minting and reporting form a run of the protocol, for every outcome of every call |
| `ApiKeysAgent.KeyAgent.Report` | waldur_site_agent/common/resource_api_keys.py:319-347 | reporting, a refusal of a row still waiting included, re-reading and withdrawing form a run of the protocol |
| `ApiKeysAgent.KeyAgent.Run` | waldur_site_agent/common/resource_api_keys.py:384-427 | backend first, acknowledgement second, as a run of the protocol |
| `ApiKeysAgent.KeyAgent.Execute` | waldur_site_agent/common/resource_api_keys.py:536-611 | any command, awaited or not, with its error report is a run that keeps ids unique and keys accounted for; an awaited one also keeps what Waldur shows true |
| `ApiKeysAgent.KeyAgent.OnMessage` | waldur_site_agent/event_processing/handlers.py:631-666 | the same for a command that comes by message |
| `ApiKeysAgent.KeyAgent.ProcessPending` | waldur_site_agent/common/resource_api_keys.py:652-707 | a whole sweep over the pending commands, some skipped, is a run of the protocol and keeps its invariant |
| `ApiKeysReplay.AnyRunReplays` | waldur_site_agent/common/resource_api_keys.py:614-649 | through any run without user moves, with kills, lost answers, unanswered reads and other keys' commands, a row waiting on any command, creates and deletions without a client_id included, keeps waiting for the same outcome, is fulfilled, or is set erred |
| `ApiKeysReplay.ReplayConverges` | waldur_site_agent/common/resource_api_keys.py:614-649 | after any such run that leaves the row waiting, one attempt that goes through fulfils it: settled as asked, with the key exactly where one attempt at the start would have taken it, or minted as asked |
| `ApiKeysReplay.LateCommandExactly` | waldur_site_agent/common/resource_api_keys.py:536-545 | a command for a row that no longer waits on it keeps the row true if and only if it asks for what the row shows |
| `ApiKeysReplay.LatePauseGoesUnnoticed` | waldur_site_agent/common/resource_api_keys.py:430-438 | the failing case as a run: a late pause by message leaves a working row paused on the backend and no call reports it |
| `Teardown.Provider.Claim` | waldur_site_agent/common/utils.py:1371-1401 | a listed DELETING row is held without asking; otherwise Waldur's compare-and-swap decides, and a lost reply is not a hold |
| `Teardown.Provider.Complete` | waldur_site_agent/common/utils.py:1404-1421 | only a DELETING row becomes DELETED |
| `Teardown.Provider.MarkErrorDeleting` | waldur_site_agent/common/utils.py:1424-1443 | the listed state decides whether Waldur is asked, Waldur's state whether it is taken |
| `Teardown.Provider.RemoveUser` | waldur_site_agent/backend/backends.py:1327-1357 | nothing without an association; otherwise that association goes or the call raises; a lookup that raises does so either way and changes nothing |
| `Teardown.Provider.PullResource` | waldur_site_agent/backend/backends.py:751-773 | an error is raised only during a strict pull, otherwise the resource reads as absent |
| `Teardown.Provider.PullResources` | waldur_site_agent/backend/backends.py:669-720 | a strict pull fails if and only if some resource cannot be read; the strict flag is restored either way |
| `Teardown.ReportExact` | waldur_site_agent/backend/backends.py:669-720 | a report tells of a resource exactly when it was asked for, read and exists |
| `Teardown.Provider.RemoveFromReported` | waldur_site_agent/common/processors.py:2129-2152 | without failure the person is gone from every reported resource, and no other association changes |
| `Teardown.Provider.TearDownClaimed` | waldur_site_agent/common/processors.py:2036-2069 | DELETED only once gone from the report and released; otherwise a state the sweep selects |
| `Teardown.Provider.TeardownUser` | waldur_site_agent/common/processors.py:2008-2069 | a person restored before the claim has nothing touched; a claimable row ends deleted or where the sweep finds it; deleted means gone from the report and released |
| `Teardown.Provider.Sweep` | waldur_site_agent/common/processors.py:2671-2739 | keeps: nobody Waldur shows as deleted has an association on a listed resource or an account left; an unreadable resource stops everything; with no fault every listed row ends deleted |
| `Teardown.PulledThenGone` | waldur_site_agent/common/processors.py:2671-2739 | a person removed from everything a full report lists is gone from every resource asked for |
| `Teardown.LenientPullExactly` | waldur_site_agent/backend/backends.py:751-773 | with a lenient report, gone from every resource asked for if and only if no unreadable one lists the person |
| `Teardown.Provider.RemoveEverywhere` | waldur_site_agent/common/processors.py:2495-2569 | every resource is tried; failure is reported if and only if some lookup or needed removal raised |
| `Teardown.Provider.RoleRevoked` | waldur_site_agent/common/processors.py:2495-2569 | the release is asked for if and only if the strict pull, every lookup and every removal succeeded, and then no association is left |
| `Membership.Confirmed` | waldur_site_agent/common/processors.py:2620-2669 | the released set is within the requested one, and with a readable answer exactly the part the backend confirmed |
| `Membership.Sync.Stale` | waldur_site_agent/common/processors.py:3177-3261 | no team member and no protected account is ever chosen for removal, whichever lists could be read |
| `Membership.Sync.AddUsers` | waldur_site_agent/backend/backends.py:1181-1231 | adds nobody else; without faults adds everyone; reports only users who are there |
| `Membership.Sync.RemoveUsers` | waldur_site_agent/backend/backends.py:1272-1325 | removes nobody else; what it returns is gone; without faults all go |
| `Membership.Sync.Release` | waldur_site_agent/common/processors.py:2578-2618 | only names of the offering's users are released |
| `Membership.Sync.SyncUsers` | waldur_site_agent/common/processors.py:3335-3398 | under any failures nobody in the team or protected is removed and nobody is released whose association remains; without faults the backend has the team plus exactly the protected users it had |
| `Membership.SecondPassIsIdle` | waldur_site_agent/common/processors.py:3335-3398 | a second pass changes nothing and has nobody to add |
| `Membership.Sync.Cycles` | waldur_site_agent/common/processors.py:3335-3398 | after any number of failing passes, one without faults ends where a single such pass would have |
| `WatchdogProof.DownSinceMeans` | waldur_site_agent/event_processing/watchdog.py:231-266 | a recorded time is the first tick seen down since the last recovery; nothing is recorded if and only if every tick down was recovered from |
| `WatchdogProof.FirstDownUnique` | waldur_site_agent/event_processing/watchdog.py:231-266 | that tick is unique |
| `WatchdogProof.FlappingKeepsItsTime` | waldur_site_agent/event_processing/watchdog.py:231-266 | down at the start of every tick keeps the first time although every reconnect succeeds |
| `WatchdogProof.StuckSinceMeans` | waldur_site_agent/event_processing/watchdog.py:268-292 | a recorded handler time is when the handler seen on the first stuck tick since the last clear one ran out of time; nothing is recorded if and only if every stuck tick was followed by a clear one |
| `WatchdogProof.FirstStuckUnique` | waldur_site_agent/event_processing/watchdog.py:268-292 | that tick is unique |
| `WatchdogProof.RetryDelayLaw` | waldur_site_agent/event_processing/watchdog.py:218-227 | the k-th attempt in a row is followed by min(60·2^(k-1), 900) seconds, every delay lies in [60, 900], a refusal pins it to 900 |
| `WatchdogProof.ConsumerRefines` | waldur_site_agent/event_processing/watchdog.py:231-292 | checking a consumer keeps the tables true to the history |
| `WatchdogProof.RetryRefines` | waldur_site_agent/event_processing/watchdog.py:152-227 | a setup retry with any outcome keeps the tables true to the history |
| `WatchdogProof.ReportRefines` | waldur_site_agent/event_processing/watchdog.py:294-304 | reporting outages changes nothing liveness depends on |
| `WatchdogProof.HealthMeans` | waldur_site_agent/event_processing/watchdog.py:306-316 | a time in the liveness table is too old if and only if the history has a source connection down, its handler stuck, or an own setup missing and never refused, for that long |
| `WatchdogProof.NeverInBoth` | waldur_site_agent/event_processing/watchdog.py:152-216 | no item is in both down tables |
| `WatchdogAgent.StompWatchdog.constructor` | waldur_site_agent/event_processing/watchdog.py:73-100 | starts true to an empty history |
| `WatchdogAgent.StompWatchdog.CheckHandler` | waldur_site_agent/event_processing/watchdog.py:268-292 | in-place update is the specified one |
| `WatchdogAgent.StompWatchdog.CheckConsumer` | waldur_site_agent/event_processing/watchdog.py:231-266 | in-place update is the specified one |
| `WatchdogAgent.StompWatchdog.ScheduleSetupRetry` | waldur_site_agent/event_processing/watchdog.py:218-227 | doubled delay up to the maximum, or the fixed one |
| `WatchdogAgent.StompWatchdog.RetrySetup` | waldur_site_agent/event_processing/watchdog.py:152-216 | keeps the tables true to the history with this visit added |
| `WatchdogAgent.StompWatchdog.CheckOfferingSetup` | waldur_site_agent/event_processing/watchdog.py:120-132 | an offering's own consumer, then its targets', each visited when found missing |
| `WatchdogAgent.StompWatchdog.CheckSetups` | waldur_site_agent/event_processing/watchdog.py:102-110 | the loop over the offerings keeps the tables true to the history |
| `WatchdogAgent.StompWatchdog.ReportPersistentOutages` | waldur_site_agent/event_processing/watchdog.py:294-304 | marks exactly the reported items |
| `WatchdogAgent.StompWatchdog.Healthy` | waldur_site_agent/event_processing/watchdog.py:306-316 | false if and only if some liveness-relevant time is at least the limit old |
| `WatchdogAgent.StompWatchdog.Check` | waldur_site_agent/event_processing/watchdog.py:102-118 | a tick is false if and only if the history including this tick withholds liveness, and that history is the one the tick makes |
| `Spending.IsoOrder` | waldur_site_agent/common/spending_limits.py:171-171 | the order of ISO 8601 date strings is the order of the dates |
| `Spending.RoundMonotone` | waldur_site_agent/common/spending_limits.py:175-175 | rounding to cents, ties to even, never reverses an order |
| `Spending.DayItems` | waldur_site_agent/common/spending_limits.py:172-176 | a day's entries make up the difference of the rounded running totals, one for each component, in order |
| `Spending.DailyUsageItems` | waldur_site_agent/common/spending_limits.py:161-177 | after every day the cents sent per component are the rounded running total; each entry is within one cent of the day's usage, and non-negative for non-negative usage; one entry per day and component |
| `Spending.ItemBounds` | waldur_site_agent/common/spending_limits.py:173-176 | a step of the rounded running total is within a cent of the usage |
| `Spending.FillDays` | waldur_site_agent/common/spending_limits.py:141-158 | exactly the days of the month up to today, each with every type, zero where absent |
| `Spending.MonthTotals` | waldur_site_agent/common/spending_limits.py:180-186 | the sum per component, whatever the order of the days |
| `Spending.ReportMonth` | waldur_site_agent/common/resource_api_keys.py:919-926 | filled and sent per day, usage inside the month and up to today adds up to the rounded month total, and to the rounded running total after every day |
| `UsageReport.CloseIsEqual` | waldur_site_agent/common/processors.py:4434-4446 | for cent amounts below ten million, close means equal |
| `UsageReport.CloseExactly` | waldur_site_agent/common/processors.py:4434-4446 | an amount is taken for another no larger one if and only if it is ten million or more |
| `UsageReport.OneReportKeeps` | waldur_site_agent/common/processors.py:4308-4331 | one report in either mode does not lower a sole record without per-user records |
| `UsageReport.NeverDecreases` | waldur_site_agent/common/processors.py:4130-4167 | nor does any sequence of reports in a billing period |
| `UsageReport.MayFallExactly` | waldur_site_agent/common/processors.py:4308-4315 | a report can lower a component's only record if and only if it has per-user records |
| `UsageReport.WithUserRecordsItMayFall` | waldur_site_agent/common/processors.py:4308-4315 | an instance of that: five units recorded with per-user records, one unit reported, and it is sent |
| `UsageReport.SkipIsSubmit` | waldur_site_agent/common/processors.py:4259-4272 | skipping leaves exactly what submitting would have left, and submitting could leave nothing else |
| `UsageReport.LargeChangeGoesUnreported` | waldur_site_agent/common/processors.py:4434-4446 | at ten million a change of one cent is skipped |
| `UsageReport.OmitReaches` | waldur_site_agent/common/processors.py:4322-4356 | in omit mode every submittable component that is not anomalous ends at its new amount and the omitted ones keep theirs |
| `UsageReporter.ByKind` | waldur_site_agent/common/processors.py:4419-4432 | the table of amounts per type, or a refusal exactly when a type comes twice |
| `UsageReporter.UsageMatchesExisting` | waldur_site_agent/common/processors.py:4402-4446 | true if and only if no type comes twice, the types are the same and all amounts are close |
| `UsageReporter.ReportedAmountsMatchExisting` | waldur_site_agent/common/processors.py:4448-4487 | as above, types not reported ignored |
| `UsageReporter.CheckUsageAnomaly` | waldur_site_agent/common/processors.py:4130-4167 | true if and only if usage may not decrease and there are two records of the type or one above the amount |
| `UsageReporter.AggregateRows` | waldur_site_agent/common/processors.py:4311-4315 | exactly the records without per-user records |
| `UsageReporter.ReportProcessor.FindAnomalies` | waldur_site_agent/common/processors.py:4294-4321 | exactly the anomalous components among the aggregate records |
| `UsageReporter.ReportProcessor.Prepare` | waldur_site_agent/common/processors.py:4241-4356 | the decision to skip, refuse or send is the specified one for every store and both modes |
| `UsageReporter.ReportProcessor.SubmitTotalUsage` | waldur_site_agent/common/processors.py:4169-4400 | a report does what was decided for every way its calls go, and is a move that `NeverDecreases` ranges over |
| `ProjectGroups.KeepsInv` | waldur_site_agent/event_processing/handlers.py:1042-1075 | every step of handlers, timers and runs keeps: an uncovered event is still owed a pass, the marked timer is live, any other live timer is about to be cancelled |
| `ProjectGroups.EveryEventIsFollowed` | waldur_site_agent/event_processing/handlers.py:1016-1022 | from every reachable state the agent's own steps end within a bound in any order, and then a pass, able to read or not, began after every event |
| `ProjectGroups.ReadExactly` | waldur_site_agent/event_processing/handlers.py:1064-1092 | at rest, in every run, every event was read if and only if some pass begun since the newest could read; so whenever the last pass could |
| `ProjectGroups.FailedPassLeavesUnread` | waldur_site_agent/event_processing/handlers.py:1068-1092 | a run whose one pass fails to read ends at rest, nothing marked, with its event unread |
| `ProjectGroups.OnePending` | waldur_site_agent/event_processing/handlers.py:1042-1063 | in every reachable state at most one timer can go off that is not about to be cancelled, and it is the marked one |
| `ProjectGroups.WorkShrinks` | waldur_site_agent/event_processing/handlers.py:1042-1075 | every step of the agent's own brings it closer to rest |
| `ProjectGroups.ReconcileTimers.ScheduleReconcile` | waldur_site_agent/event_processing/handlers.py:1042-1063 | schedules if and only if nothing is pending, as a run of the machine |
| `ProjectGroups.ReconcileTimers.RunReconcile` | waldur_site_agent/event_processing/handlers.py:1064-1075 | unmarks, cancels and begins its pass as a run of the machine, after which every event so far has a later pass, and was read if the pass could read |
| `ComponentMapping.Transpose` | waldur_site_agent/common/component_mapping.py:50-80 | an entry is in the forward map if and only if its mirror is in the reverse map |
| `ComponentMapping.BuildMaps` | waldur_site_agent/common/component_mapping.py:50-80 | the forward lists hold exactly the rows of the configured graph and the reverse lists exactly its columns, nothing twice |
| `ComponentMapping.ComponentMapper.constructor` | waldur_site_agent/common/component_mapping.py:50-80 | establishes both maps from the configuration |
| `ComponentMapping.ComponentMapper.IsPassthrough` | waldur_site_agent/common/component_mapping.py:138-141 | comparing two sizes tells whether every component is its own only target |
| `ComponentMapping.ComponentMapper.ConvertLimitsToTarget` | waldur_site_agent/common/component_mapping.py:82-108 | the truncated column sums of what each source adds, whatever the order, unmapped components passing through |
| `ComponentMapping.ComponentMapper.ConvertUsageFromTarget` | waldur_site_agent/common/component_mapping.py:110-136 | the column sums of what each target gives back, unmapped targets ignored, a zero factor giving zero |
| `ComponentMapping.RoundTrip` | waldur_site_agent/common/component_mapping.py:43-47 | there and back, a value v with n targets of its own becomes a value in (n·v − Σ1/f, n·v], and n·v if and only if no target was truncated |
| `ComponentMapping.PassthroughIdentity` | waldur_site_agent/common/component_mapping.py:38-42 | with passthrough components only both conversions are the identity |
| `LogBuffer.LongestFitIsLongest` | waldur_site_agent/common/log_buffer.py:53-70 | no suffix of the added entries that fits is longer than what is kept |
| `LogBuffer.LongestFitUnique` | waldur_site_agent/common/log_buffer.py:53-70 | what is kept is a function of what was added |
| `LogBuffer.CircularLogBuffer.Add` | waldur_site_agent/common/log_buffer.py:53-70 | the buffer stays the longest suffix of all added entries within the limit, and the size field its total |
| `LogBuffer.CircularLogBuffer.GetAndClear` | waldur_site_agent/common/log_buffer.py:83-93 | returns that suffix and starts anew |
| `LogBuffer.CircularLogBuffer.Clear` | waldur_site_agent/common/log_buffer.py:108-112 | starts anew |
| `BackendIds.DecimalRoundTrip` | waldur_site_agent/common/processors.py:694-704 | a written attempt number reads back as itself |
| `BackendIds.CandidatesDistinct` | waldur_site_agent/backend/backends.py:1652-1654 | with project-slug naming no two attempts try the same id, lower-casing included |
| `BackendIds.Creator.CheckUniqueness` | waldur_site_agent/common/processors.py:600-639 | refuses exactly an id the history knows, a failed check counting as unique |
| `BackendIds.Creator.CreateBackendResource` | waldur_site_agent/backend/backends.py:1000-1015 | creates unless the id exists |
| `BackendIds.Creator.CreateResource` | waldur_site_agent/common/processors.py:641-713 | gives up if and only if every attempt's id was taken; otherwise the first id neither refused nor present is made or raised on, and nothing else is created |
| `BackendIds.GivingUpTakesMany` | waldur_site_agent/common/processors.py:662-713 | with project-slug naming giving up takes at least as many taken ids as attempts |
| `BackendIds.RepeatsExactly` | waldur_site_agent/common/processors.py:686-704 | with ordinary naming the next attempt tries the same id if and only if it was refused, or is the slug and equals the next id anyway |
| `BackendIds.RefusalSticks` | waldur_site_agent/common/processors.py:686-695 | from a refusal of any id on, every later answered attempt asks for that id and is refused |
| `BackendIds.RefusalEndsIt` | waldur_site_agent/common/processors.py:686-713 | so a creation refused an id before anything was made gives up once the attempts run out |

## Left out

- Key rotation, the resource-wide pause a create or resume reads, the memo of final reports and the reporting of key usage: they add calls of the kinds already modelled.
- Secrets and model lists of a key: `settings` stands for all that a command carries. A message names a client_id only if its row holds it, as Waldur sends none other.
- The by-day payload of a usage report: a report is modelled with month totals, the days are modelled in `Spending`.
- Records of unset type or unreadable amount in a usage listing, and the debug comparison that only logs.
- `connect_to_stomp_server`, its backoff, the re-registration of a missing queue and the reconnect lock: only the events they deliver are kept.
- Identity-bridge lookups, user attributes, roles, e-mails and the generation of usernames: they do not change who is added or removed.
- Floating point: amounts, factors and times are reals, and amounts kept by Waldur are whole cents.
- Unicode case folding: `lower()` is modelled on the letters A to Z, everything else unchanged.
- Dates past the year 9999, and time zones.
- HTTP and OIDC clients, configuration, telemetry, logging, quotas, home directories, scripts, historical loading and log shipping.
- Assumed of stomp.py: the callbacks of one connection run one at a time.
- That settled rows are true is proved for one executor at a time; several at once are covered by `ApiKeysConcurrent`, which says nothing of row states.
- Assumed of the broker: it processes a subscription after the acks sent before it on the same socket; messages left unacknowledged on a closed session return to the head of the queue in their order.
- Assumed of Waldur: a DELETING row is never restored and one teardown of a row runs at a time; a `set_key` that has not landed when Waldur is read again does not land later, and one naming a client_id that a row of the resource holds is refused; `set_usage` writes one record of each named component and creates it only where there is none.
- Assumed of the watchdog's surroundings: an offering stays critical or not, and a consumer is identified by its connection.
- Shutdown, which drops the timers of project groups, is not modelled.
- ConsumerListener.WaldurListener.Work: runs without interference; interleavings, a close in the middle included, are those of the machine.
- ComponentMapping.RoundTrip: requires positive factors, a non-negative value and no other converted source on the same targets.
- UsageReport.NeverDecreases: requires the record to be the only one of its component and to have no per-user records.
- Membership.Sync.SyncUsers: requires the active offering users to be among the known ones, which both come from Waldur's one table.
