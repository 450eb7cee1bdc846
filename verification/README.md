# Verified model of the Govee integration's protocols

A Dafny model of the concurrent core of the `govee` custom component: what its
coordinator, its command confirmer, its status bursts and its light entity do
between two awaits, and what follows for every interleaving of those steps.

Each stateful component has two parts:

- a specification: a `State`, the `Event`s the environment can choose (readings,
  reports, drops, clock, cancellations, task wake-ups), a total `Step` and `Run`
  over any sequence of events. An event that cannot happen in a state leaves it
  alone, so a theorem about `Run` is about every run;
- a class with the source's own fields, whose methods work in place and are
  proved to compute that specification.

For each protocol two kinds of theorem stand beside the steps: safety (what no run
does) and decisions (what a step does exactly when, read off the events and the
log), so a step is bound to do no more and no less.

One atomic step is the code between two awaits. Logs in the specifications are
history: nothing in a step reads them.

Handlers that are one branch of `Step` (the sweep's loop head, its publish and a
drop, stopping a burst and arming its tick) have contracts but no row below.

| component | specification and theorems | class |
|---|---|---|
| confirm and resend | `ConfirmValues`, `CommandConfirm`, `CommandConfirmSafety`, `CommandConfirmResend`, `CommandConfirmOrder`, `CommandConfirmVerdict`, `CommandConfirmExamples` | `CommandConfirmerClass` |
| status-query blame and quarantine | `StatusQueries`, `StatusQueryDecisions` | `StatusQueryCoordinator` |
| status bursts | `StatusBursts`, `StatusBurstTicks` | `StatusBurstClass` |
| LAN map, misses, suppression | `LanTier` | `LanDeviceMapClass` |
| LAN writes and their confirm | `LanWrites`, `LanWriteCooldown`, `LanBrightness`, `LanReadback`, `LanDecisions` | `LanWriterClass` |
| deferred confirm, power-off flag | `DeferredConfirm`, `CallCourse`, `PowerOffFlag`, `DeferredConfirmExamples` | `ControlDispatcherClass` |
| poll scheduler and interval | `RequestBudget`, `PollScheduler`, `PollStaleness`, `PollStalenessExamples`, `PollKettles`, `PollInterval`, `PollDecisions` | `PollCoordinatorClass` |
| light brightness and effect names | `Scaling`, `LightBrightness`, `EffectNames` | loops as methods |
| segment replay and masks | `SegmentReplay`, `SegmentMask` | loops as methods |
| water-leak polls and clears | `LeakClear`, `LeakReadings` | `WaterDetectorPollerClass` |
| silent-session watchdog | `Watchdog`, `WatchdogActs` | `SilentSessionWatchdogClass` |

`dafny verify dfyconfig.toml` checks the whole project.

## Where the code does less than its comments say

The model follows the code. In each case below the comment's property is false:
the lemmas named give an input or a run that breaks it, and the exact condition
under which it holds.

- A command prepared while an older one for the same field is still being
  dispatched does not stop the older one's resend: its confirm starts later and
  replaces the newer one's (`StaleResendExample`, `StaleResendIff`).
- The deferred LAN confirm captures its generation after the BLE attempt, not
  when the command is stamped, so a newer command issued meanwhile is re-sent
  over (`StaleFallbackIff`, `FallbackOverNewerCommand`).
- The power-off-pending flag never leaks, but it can go early: any deferred
  confirm of the device, or the first of two power-off calls, takes it
  (`FlagGoesExactly`, `OtherKindDropsFlag`, `FirstReturnDropsFlag`); with one
  command at a time it is exact (`FlagIsExactWhenAlone`).
- Every other cycle deferred by the rate-limit headers can keep an idle device
  from ever being polled (`DeferralsCanStarve`): it is a candidate in any 24
  cycles, and handed over exactly when that cycle is not deferred
  (`BoundedStaleness`, `HandedIff`).
- "That poll is never skipped", said of the poll that should tell a kettle's
  unit, holds against local readings only. Over budget it can be held back for
  idleness: when the kettle is off, its last changed cloud read is half an hour
  old and no read has declared its unit (`MustPollHeldBackIff`, `HeldBackRun`).
  A kettle that must be polled because it heats, or that has not been read yet,
  is never held back (`HeatingOrUnreadIsCandidate`).
- A leak tick whose device list was fetched before a clear, but whose iteration
  begins after it, restores the report time the clear forgot; it has asked for
  the alert again by then (`FetchedTickRestoresTime`, `RecordsIff`,
  `ForgottenUntilAskedAgain`).
- A failed leak reading still records the report time, so a dry detector's fresh
  report is not asked about again until it reports anew (`FailedReadingRun`,
  `NothingNewNothingAsked`).
- The LAN brightness round trip is documented as stable from the LAN side; it is
  exactly when the range tops out at 100 or is at least 100 steps wide
  (`LanRoundTripIff`). The confirm tolerance of two steps absorbs the rounding
  exactly up to 500 steps (`EchoConfirmsIff`).
- A light whose brightness range starts below zero can drift up, because `int()`
  truncates towards zero (`HaRoundTrip`, `NegativeMinimumRises`).

Two lemmas mark limits the code does not run into: starting the same prepared
confirm twice would let the first one's cleanup evict the second's entry
(`CleanupEvictsIff`), and LAN entries without an address are exempt from
distinctness (`UnknownAddressesCanCollide`); they are never polled.

## Model

| member | source | states |
|---|---|---|
| ConfirmValues.HonestReportConfirms | custom_components/govee/command_confirm.py:103-158 | a device that reports exactly what a command asked, in any form a push takes, reports that field alone with the wanted value, which matches |
| ConfirmValues.SilentFieldsStayOut | custom_components/govee/command_confirm.py:127-143 | a field is reported exactly when the push carries a usable value for it |
| ConfirmValues.MatchesIff | custom_components/govee/command_confirm.py:146-158 | two values of a field match exactly when they are no further apart than its tolerance (0, 2, 2 on the worst of the three channels, 150); a missing one matches only a missing one |
| ConfirmValues.OneReportOneWish | custom_components/govee/command_confirm.py:146-158 | one report never confirms two commands for a field further apart than twice its tolerance |
| ConfirmValues.SupersedesInOrder | custom_components/govee/command_confirm.py:68-73 | the list a command cancels by names exactly the fields it makes stale |
| CommandConfirmSafety.Conservation | custom_components/govee/command_confirm.py:227-315 | in every reachable state each counter is the number of confirms with that outcome, and the confirms started for a device are the sum of the six counters, the pending ones and those dropped uncounted; a confirm that is pending is suspended or still in the table |
| CommandConfirmResend.AtMostOneQueryAndResend | custom_components/govee/command_confirm.py:279-315 | over every run a started confirm causes at most one status query and at most one resend |
| CommandConfirmResend.OnlyStartCreatesTasks | custom_components/govee/command_confirm.py:227-236 | no step but start creates a confirm, so a resend is never itself confirmed |
| CommandConfirmResend.ResendShowsOldValue | custom_components/govee/command_confirm.py:294-315 | over every run a resend rests on a report that matches the known value from before the command and not the wanted one, and is never a power-on |
| CommandConfirmOrder.ResendIsUpToDate | custom_components/govee/command_confirm.py:202-247 | where each prepared confirm is started at most once: the report behind a resend is the last for its field, and no superseding command was prepared since the confirm started |
| CommandConfirmOrder.StaleResendIff | custom_components/govee/command_confirm.py:202-236 | a resend is outdated by a newer command exactly when that command was prepared before the confirm started |
| CommandConfirmExamples.StaleResendExample | custom_components/govee/command_confirm.py:202-236 | a run in which an older brightness is sent again after a newer one was prepared |
| CommandConfirmOrder.OpenStaysInTable | custom_components/govee/command_confirm.py:279-292 | over every run that starts each prepared confirm at most once, an open confirm is in the table under its key: nothing evicts it while it is pending |
| CommandConfirmVerdict.TurnFollowsReports | custom_components/govee/command_confirm.py:271-315 | over every run that starts each prepared confirm at most once, what a confirm does at each turn (wait, query, resend, or end under which counter) follows from the last report since its start, the two waits and the budget's answer |
| CommandConfirmVerdict.VerdictIff | custom_components/govee/command_confirm.py:279-315 | in such a run a step counts a confirm confirmed, unverified, or skipped for budget, or resends or queries for it, exactly when the last report since its start and the budget's answer say so: a resend needs the old value and a yes, a skip the old value and a no |
| CommandConfirmVerdict.EndsAside | custom_components/govee/command_confirm.py:202-269 | in such a run, aside from its own turns, an open confirm ends superseded exactly when a command making its field stale is prepared or its key is started anew, and uncounted exactly by the unload or by its own unwinding |
| CommandConfirmVerdict.PreparesIff | custom_components/govee/command_confirm.py:161-225 | prepare hands out a confirm exactly for a known plain light, heard over MQTT, whose known state does not already show the command, and never for a power-on; it records the command and the value before it |
| CommandConfirmExamples.CleanupEvictsIff | custom_components/govee/command_confirm.py:290-292 | the finally block of a confirm evicts another one exactly when both confirm the same prepared object |
| CommandConfirmerClass.CommandConfirmer.Cancel | custom_components/govee/command_confirm.py:262-269 | removes the entry, cancels its unfinished task, counts it superseded when asked: the state function, in place |
| CommandConfirmerClass.CommandConfirmer.Prepare | custom_components/govee/command_confirm.py:202-225 | closes every entry the command makes stale, in the source's order, and snapshots the old value or declines |
| CommandConfirmerClass.CommandConfirmer.Start | custom_components/govee/command_confirm.py:227-236 | replaces the entry under the key and creates one task |
| CommandConfirmerClass.CommandConfirmer.OnReport | custom_components/govee/command_confirm.py:238-247 | every reported field reaches the entry under it and no other |
| CommandConfirmerClass.CommandConfirmer.CancelAll | custom_components/govee/command_confirm.py:253-256 | cancels every entry and counts none |
| CommandConfirmerClass.CommandConfirmer.Cleanup | custom_components/govee/command_confirm.py:290-292 | deletes the entry only if it is this very confirm |
| CommandConfirmerClass.CommandConfirmer.Settle | custom_components/govee/command_confirm.py:294-315 | the verdict in place: the state function whose every outcome TurnFollowsReports and VerdictIff fix by the reports and the budget |
| CommandConfirmerClass.CommandConfirmer.BeginTask | custom_components/govee/command_confirm.py:279-286 | the first stretch of a confirm up to its first await |
| CommandConfirmerClass.CommandConfirmer.AfterFirstWait | custom_components/govee/command_confirm.py:282-289 | from the first wait to the query or the second wait |
| CommandConfirmerClass.CommandConfirmer.AfterQuery | custom_components/govee/command_confirm.py:285-289 | from the query to the second wait |
| StatusQueries.StrikeFollowsItsQuery | custom_components/govee/coordinator.py:4168-4220 | over every run each strike is charged to the device queried last, and no query is charged twice |
| StatusQueries.BoundedDisruption | custom_components/govee/coordinator.py:4168-4220 | over every run two strikes mean quarantine or a refused account, and no device gets more than three strikes |
| StatusQueries.ClosedIsLeftAlone | custom_components/govee/coordinator.py:3582-3719 | once a device is quarantined or the account refused, no on-demand query goes to it and no sweep that starts later lists it |
| StatusQueries.SweepQueriesAreListed | custom_components/govee/coordinator.py:3676-3717 | over every run each sweep query goes to a device on the list of the sweep that started last |
| StatusQueries.OnlyOlderSweepsReachClosed | custom_components/govee/coordinator.py:3676-3717 | over every run a sweep query to a closed device belongs to a sweep that started before the closing, so no later sweep reaches it |
| StatusQueries.ThirdStrikeIsAnOlderSweeps | custom_components/govee/coordinator.py:4168-4220 | over every run a third strike is charged to a sweep query sent after the device was closed, whose sweep started, with the device on its list, before the closing |
| StatusQueries.QueriesAreSpaced | custom_components/govee/coordinator.py:4354-4399 | over every run two on-demand queries to a device lie at least REQUEST_STATUS_MIN_INTERVAL apart |
| StatusQueries.ThreeStrikesReachable | custom_components/govee/coordinator.py:4168-4220 | a run in which a device does get three strikes |
| StatusQueryDecisions.ClosedIff | custom_components/govee/coordinator.py:4168-4220 | over every run the account is refused exactly when three models had been struck at some moment with no query answered in between; a device is quarantined exactly when a strike was at least its second and found fewer than three such models |
| StatusQueryDecisions.StrikesIff | custom_components/govee/coordinator.py:4160-4187 | over every run a drop strikes the device of the last query exactly when that query is in its window and not struck yet, with its model; nothing else strikes |
| StatusQueryDecisions.WindowClosesIff | custom_components/govee/coordinator.py:3706-3717 | over every run a query's window closes answered, which clears the suspected models, exactly when nothing was raised and the session is up |
| StatusQueryDecisions.RequestIff | custom_components/govee/coordinator.py:4332-4399 | over every run an on-demand query goes out exactly when no query is in its window, the session is up, device and account are open, and the device was not asked on demand within three seconds |
| StatusQueryDecisions.SweepStartsIff | custom_components/govee/coordinator.py:3676-3684 | over every run a sweep starts exactly when it is on, the account open, the session up and no other running, over the devices outside the quarantine |
| StatusQueryDecisions.SweepCoversItsList | custom_components/govee/coordinator.py:3695-3719 | over every run a sweep goes through its list in order, and ends exactly when the list is through, the session is gone, or a publish raises |
| StatusQueryDecisions.SweepAsksIff | custom_components/govee/coordinator.py:3696-3709 | over every run the next listed device is queried when it has a topic, as soon as no other query is in its window, and passed over when it has none |
| StatusQueryCoordinator.Coordinator.PollTargets | custom_components/govee/coordinator.py:3582-3601 | the devices of the list that are not quarantined, in order |
| StatusQueryCoordinator.Coordinator.RequestStatus | custom_components/govee/coordinator.py:4359-4399 | the on-demand query under the lock: refused, throttled or sent |
| StatusQueryCoordinator.Coordinator.Blame | custom_components/govee/coordinator.py:4168-4220 | strike, quarantine at two, account refusal at three models, in place: the state function that ClosedIff and StrikesIff fix by the log |
| StatusBursts.OneTickPerBurst | custom_components/govee/status_burst.py:47-82 | over every run a device has at most one armed or running tick of the current generation |
| StatusBursts.BurstIsBounded | custom_components/govee/status_burst.py:47-69 | over every run a burst queries at most max(1, ceil(duration / interval)) times, at most 40 |
| StatusBursts.StoppedBurstQueriesOnceMore | custom_components/govee/status_burst.py:58-76 | a stopped or replaced burst sends at most one more query whatever follows |
| StatusBursts.NothingArmedAfterShutdown | custom_components/govee/status_burst.py:78-82 | after shutdown no tick is ever armed again |
| StatusBurstTicks.StartArms | custom_components/govee/status_burst.py:47-56 | over every run a start arms a first tick at once, with the limits clamped, unless shut down; no older tick of the device goes on |
| StatusBurstTicks.ReturnIff | custom_components/govee/status_burst.py:59-69 | over every run a returned tick arms the next one an interval later exactly when its burst is current, not shut down and has time left; otherwise a current burst ends |
| StatusBurstTicks.CurrentUntil | custom_components/govee/status_burst.py:47-82 | over every run a burst that is going loses its currency exactly by a stop or start for its device or the shutdown |
| StatusBurstTicks.TicksRun | custom_components/govee/status_burst.py:58-76 | over every run an armed tick fires exactly when due, a running one queries, and a stop unsubscribes only an armed one |
| StatusBurstClass.StatusBurst.StartBurst | custom_components/govee/status_burst.py:47-56 | clamps, stops the old burst, takes the next generation and arms its first tick |
| StatusBurstClass.StatusBurst.TickReturned | custom_components/govee/status_burst.py:59-67 | a tick after its query: stale, last, or armed again |
| StatusBurstClass.StatusBurst.AsyncShutdown | custom_components/govee/status_burst.py:78-82 | closes and stops every device's burst |
| LanTier.MergeDistinctIff | custom_components/govee/coordinator.py:1884-1914 | the merged map has distinct addresses exactly when the fresh correlation and the kept entries each have |
| LanTier.MergeKeepsDistinct | custom_components/govee/coordinator.py:1884-1914 | distinct old and fresh addresses give a distinct merged map |
| LanTier.RoutingStaysUnambiguous | custom_components/govee/coordinator.py:1631-1914 | over every run with clean scans each known address routes to its own device and every poll asks each readable device |
| LanTier.PushIsUnambiguous | custom_components/govee/coordinator.py:1631-1676 | a push is applied to a device exactly when that device alone has its source address and was correlated within 600 s |
| LanTier.UnknownAddressesCanCollide | custom_components/govee/coordinator.py:1898-1908 | entries without an address are exempt: two of them can share the empty one |
| LanTier.MissesAreTheStreak | custom_components/govee/coordinator.py:1789-1839 | over every run a mapped device's miss counter is its row of unanswered reads, below three |
| LanTier.LeavesOnlyWhenDue | custom_components/govee/coordinator.py:1789-1914 | over every run a device leaves the map only after three unanswered reads in a row, or because another device holds its address |
| LanTier.SuppressedExactlyAtThree | custom_components/govee/coordinator.py:932-989 | over every run a device has a cooldown deadline exactly when its write-miss streak is at least three |
| LanDecisions.MappedIff | custom_components/govee/coordinator.py:1789-1914 | over every run a device is mapped exactly as the last scan that found it said, until a scan finds its address taken or its third read in a row goes unanswered |
| LanDecisions.RowsAreCounted | custom_components/govee/coordinator.py:932-989 | over every run the write-miss count and deadline of a device are those of its unconfirmed writes in a row: ended by a confirm, by leaving the map, or by the first attempt after the deadline, which each miss from the third on sets 300 s ahead |
| LanDeviceMapClass.LanDeviceMap.NoteLanWriteMiss | custom_components/govee/coordinator.py:932-967 | counts a miss and sets the deadline from the third on |
| LanDeviceMapClass.LanDeviceMap.ClearLanWriteMisses | custom_components/govee/coordinator.py:969-972 | drops streak and deadline |
| LanDeviceMapClass.LanDeviceMap.LanWritesSuppressed | custom_components/govee/coordinator.py:974-989 | whether the cooldown runs; an expired one is cleared |
| LanDeviceMapClass.LanDeviceMap.MergeLanCorrelation | custom_components/govee/coordinator.py:1884-1914 | the two loops of the merge compute the specified map and counters |
| LanDeviceMapClass.LanDeviceMap.IpToDevice | custom_components/govee/coordinator.py:1803-1812 | one readable device per address, and every readable address |
| LanDeviceMapClass.LanDeviceMap.ApplyReplies | custom_components/govee/coordinator.py:1816-1833 | counting and demotion, one polled address at a time, give the specified state |
| LanDeviceMapClass.LanDeviceMap.LanDeviceIdForIp | custom_components/govee/coordinator.py:1667-1676 | the device when exactly one has the address, else none |
| LanDeviceMapClass.LanDeviceMap.OnLanDevStatus | custom_components/govee/coordinator.py:1631-1662 | applies the push to its one device or asks for a rescan |
| LanWrites.EchoWindow | custom_components/govee/lan_confirm.py:51-108 | a confirm read starts after send + lag, the added wait is exactly what is left of it, and a read counts exactly when it ends after it |
| LanWrites.UnconfirmedAlwaysCounts | custom_components/govee/coordinator.py:6138-6183 | over every run an unanswered or mismatching confirm read counts as a miss |
| LanWrites.FailuresAreSendFailures | custom_components/govee/coordinator.py:5988-5994 | over every run the LAN transport failures recorded are the sends the socket refused, and nothing else |
| LanDecisions.SendsIff | custom_components/govee/coordinator.py:5938-6036 | over every run an attempt sends exactly when every gate is open and the socket takes it; a refused send is a failure, and a confirm follows exactly for a device that is not write-only |
| LanDecisions.ConfirmReadsIff | custom_components/govee/coordinator.py:6124-6193 | over every run a confirm reads back exactly from its lag after the send on, and its reading ends it and records what was heard |
| LanReadback.ConfirmsIff | custom_components/govee/coordinator.py:6195-6249 | a reply confirms a command exactly when it has the command's field and says the same of it, up to 2 brightness levels or 150 K |
| LanReadback.OneReplyOneWish | custom_components/govee/coordinator.py:6195-6249 | no reply confirms two power states, two colours, brightnesses over 4 levels apart or temperatures over 300 K apart |
| LanReadback.EchoesConfirmIff | custom_components/govee/coordinator.py:6195-6249 | every command in range is confirmed by its own echo exactly when the brightness range is at most 500 steps wide (topping out at 100, when it starts no lower than -2) |
| LanReadback.GridConfirmsIff | custom_components/govee/coordinator.py:6243-6248 | a device that rounds temperatures to its own grid confirms all of them exactly when the grid is no coarser than 301 K |
| LanWriteCooldown.NoSendBeforeDeadline | custom_components/govee/coordinator.py:5967-5974 | over every run no datagram leaves before the deadline while nothing confirms and the device stays mapped |
| LanWriteCooldown.FourSendsSpanACooldown | custom_components/govee/coordinator.py:932-989 | over every run of one-at-a-time writes that never confirm, any four sends in a row span 300 seconds |
| LanWriterClass.LanWriter.TryLanCommand | custom_components/govee/coordinator.py:5897-6049 | the gates in order, the send, and which tail follows |
| LanWriterClass.LanWriter.AsyncSettle | custom_components/govee/lan_confirm.py:51-72 | waits what is left of the lag since the send |
| LanWriterClass.LanWriter.BeginConfirm | custom_components/govee/coordinator.py:6124-6138 | over at once without a client, else the settle |
| LanWriterClass.LanWriter.ConfirmLanWrite | custom_components/govee/coordinator.py:6139-6193 | no reply, mismatch or match: what is counted, recorded and cleared; what matches is fixed by LanReadback.ConfirmsIff |
| LanBrightness.HonestEchoConfirms | custom_components/govee/api/lan_control.py:57-106 | on ranges of at most 500 steps a device that echoes the level it was sent is always confirmed |
| LanBrightness.EchoConfirmsIff | custom_components/govee/coordinator.py:6235-6239 | every honest echo confirms exactly when the range is at most 500 steps wide (or shares the LAN maximum and starts no lower than -2) |
| LanBrightness.LanRoundTripIff | custom_components/govee/api/lan_control.py:57-106 | the LAN-side round trip is stable exactly when the range tops out at 100 or is at least 100 steps wide |
| DeferredConfirm.FallsBackIff | custom_components/govee/coordinator.py:6030-6093 | over every run a failed deferred confirm is superseded exactly when a command of its device and kind was issued since its generation was captured, else it falls back |
| DeferredConfirm.StaleFallbackIff | custom_components/govee/coordinator.py:5551-5600 | a fallback re-sends over a newer command exactly when one was issued between the command and the capture |
| DeferredConfirmExamples.FallbackOverNewerCommand | custom_components/govee/coordinator.py:5579-5602 | a run in which a power-on during a failing BLE attempt is undone by the fallback |
| DeferredConfirm.EachTaskAccounted | custom_components/govee/coordinator.py:6051-6101 | over every run a deferred write enters the cloud at most once and ends confirmed, superseded, fallen back or cut off |
| DeferredConfirm.OutcomeIsFinal | custom_components/govee/coordinator.py:6051-6101 | an outcome never changes |
| DeferredConfirm.OverLanOnce | custom_components/govee/coordinator.py:5988-6101 | over every run a call sends over LAN at most once; no confirm or fallback sends its write over LAN again |
| CallCourse.CallsGoTheirCourse | custom_components/govee/coordinator.py:5572-5616 | over every run and interleaving each call's course follows from its own events: a BLE success or a confirmed write ends it, an unsent or unconfirmed one goes to the cloud, a write-only or deferred send returns |
| CallCourse.DefersIff | custom_components/govee/coordinator.py:6023-6047 | over every run a task is created exactly for a deferred send, with that call's command |
| CallCourse.TaskGoesIff | custom_components/govee/coordinator.py:6079-6101 | over every run a task ends confirmed exactly when its confirm succeeds; a failed one is overtaken exactly when a newer command of its kind was issued since the capture and else goes to the cloud |
| PowerOffFlag.FlagNeverLeaks | custom_components/govee/coordinator.py:5545-5616 | over every run and overlap a pending flag has a live power-off call or a deferred owner, and a deferred owner is a live power-off confirm |
| PowerOffFlag.ClearWhenAllEnded | custom_components/govee/coordinator.py:5611-5616 | when all power-offs of a device have ended both sets are clear of it |
| PowerOffFlag.FlagGoesExactly | custom_components/govee/coordinator.py:6098-6101 | the flag goes in a step exactly when a power-off call returns without a deferred owner, or any deferred confirm of a deferred device ends |
| PowerOffFlag.FlagIsExactWhenAlone | custom_components/govee/coordinator.py:5545-5616 | with one command of a device at a time the flag is up exactly while a power-off runs |
| DeferredConfirmExamples.OtherKindDropsFlag | custom_components/govee/coordinator.py:6098-6101 | a run in which a brightness confirm takes the flag of a running power-off |
| DeferredConfirmExamples.FirstReturnDropsFlag | custom_components/govee/coordinator.py:5611-5616 | a run in which the first of two power-off calls takes the flag of the other |
| ControlDispatcherClass.ControlDispatcher.BeginControl | custom_components/govee/coordinator.py:5545-5555 | marks a power-off and stamps the generation before the first await |
| ControlDispatcherClass.ControlDispatcher.AfterLan | custom_components/govee/coordinator.py:5596-5602 | what the call does after the LAN tier |
| ControlDispatcherClass.ControlDispatcher.StartDeferredConfirm | custom_components/govee/coordinator.py:6030-6047 | hands the flag over and captures the generation |
| ControlDispatcherClass.ControlDispatcher.EndControl | custom_components/govee/coordinator.py:5611-5616 | drops the flag unless a deferred confirm owns it |
| ControlDispatcherClass.ControlDispatcher.AfterConfirm | custom_components/govee/coordinator.py:6079-6093 | confirmed, superseded or on to the cloud |
| ControlDispatcherClass.ControlDispatcher.EndDeferred | custom_components/govee/coordinator.py:6098-6101 | drops mark and flag together |
| RequestBudget.PacingBounds | custom_components/govee/request_budget.py:42-112 | pacing stays between the base interval and the ceiling |
| RequestBudget.PacedSpendFits | custom_components/govee/request_budget.py:42-112 | below the ceiling the polls left in the day cost no more than the budget left |
| RequestBudget.CeilingOverspendsIff | custom_components/govee/request_budget.py:42-112 | where the ceiling binds, the whole polls left in the day cost more than the budget left exactly when there is room for one more than it pays for; one poll more always does |
| RequestBudget.PacedIsLeast | custom_components/govee/request_budget.py:42-112 | the paced interval is the least one between base and ceiling at which the rest of the day fits the budget left, or the ceiling; a budget below one poll waits for five seconds past the reset |
| RequestBudget.ExceedsMeans | custom_components/govee/request_budget.py:240-252 | polling all day at the base interval fits when poll_exceeds_budget says no, and one poll more does not when it says yes |
| PollStaleness.BoundedStaleness | custom_components/govee/coordinator.py:4430-4482 | over every run an enabled device is a candidate in any 24 cycles in a row, so it is handed over in any 24 undeferred ones, and in any 6 under budget |
| PollKettles.MustPollHeldBackIff | custom_components/govee/coordinator.py:4725-4792 | over every history a kettle that must be polled is held back exactly when it is over budget, not due, off and long quiet by its cloud reads, and nothing has told its unit |
| PollKettles.HeatingOrUnreadIsCandidate | custom_components/govee/kettle/manager.py:162-192 | a kettle that must be polled because it heats, or that has never been read, is always a candidate |
| PollKettles.HeldIff | custom_components/govee/coordinator.py:5120-5213 | over every history a state is held from the first push or committed read on, an empty one of a refused first read included |
| PollKettles.HeldBackRun | custom_components/govee/coordinator.py:4701-4792 | a history, a push and one changed cloud read without a unit, after which the poll that should tell the unit is held back |
| PollStalenessExamples.TwentyThreeIsReached | custom_components/govee/coordinator.py:4725-4812 | a run that passes a device over 23 times in a row |
| PollStalenessExamples.DeferralsCanStarve | custom_components/govee/coordinator.py:4650-4699 | for every n a run of n cycles that never hands an enabled idle device over, because the headers defer each cycle it is due |
| PollInterval.IntervalBounds | custom_components/govee/coordinator.py:4647-4699 | over every run the interval is at least the user's, and at most 900 s outside a 429 back-off |
| PollInterval.BackoffFromRefusal | custom_components/govee/coordinator.py:5186-5209 | over every run the interval from the refusal that sets a back-off until it clears is the one set then, not below the earlier one nor the wait asked for |
| PollInterval.BackoffHoldsInterval | custom_components/govee/coordinator.py:4833-4895 | over every run nothing moves the interval while a back-off is in force |
| PollInterval.ClearsExactly | custom_components/govee/coordinator.py:4519-4529 | over every run a back-off clears exactly at the end of a cycle with no refusal and a real read or no cloud-readable device left |
| PollInterval.PollBetweenDeferrals | custom_components/govee/coordinator.py:4663-4699 | over every run some cycle between two header deferrals fetches a non-empty set |
| PollInterval.NextCyclePolls | custom_components/govee/coordinator.py:4663-4670 | the next cycle with candidates after a deferral fetches all of them |
| PollDecisions.CandidateIff | custom_components/govee/coordinator.py:4430-4473 | over every run an enabled device is no candidate exactly when a reading younger than 1.5 intervals covers it for at most the fifth time, or it is off, quiet and not due while over budget; its counters move accordingly |
| PollDecisions.DefersIff | custom_components/govee/coordinator.py:4647-4699 | over every run a cycle is deferred, for the wait to the reset, exactly when it has candidates, no back-off and no unpaid deferral, and the headers leave too few requests before a reset still to come |
| PollDecisions.RefusalSets | custom_components/govee/coordinator.py:5186-5209 | over every run the first refusal sets the interval to the wait asked for, 120 s by default, unless it was longer; later ones leave it |
| PollDecisions.FinishSets | custom_components/govee/coordinator.py:4519-4533 | over every run a cycle's end keeps the interval of a back-off that goes on, and else sets the user's or the paced one |
| PollDecisions.BackToTheUsers | custom_components/govee/coordinator.py:4519-4533 | a back-off that ends with enough budget left gives the poll back the user's interval |
| PollCoordinatorClass.PollCoordinator.LocallyFreshDevices | custom_components/govee/coordinator.py:4768-4813 | the loop covers exactly the fresh devices and moves the skip counters as specified |
| PollCoordinatorClass.PollCoordinator.IdleDevicesToSkip | custom_components/govee/coordinator.py:4725-4766 | the loop holds back exactly the idle devices and advances every counter |
| PollCoordinatorClass.PollCoordinator.DeferForRateLimitHeaders | custom_components/govee/coordinator.py:4647-4699 | one deferral at a time, by the headers |
| PollCoordinatorClass.PollCoordinator.PickCandidates | custom_components/govee/coordinator.py:4430-4473 | freshness, then idleness over budget, leaves exactly the candidates |
| PollCoordinatorClass.PollCoordinator.StartPoll | custom_components/govee/coordinator.py:4430-4493 | a cycle up to the fetch is the specified step |
| PollCoordinatorClass.PollCoordinator.OnRateLimited | custom_components/govee/coordinator.py:5186-5209 | the 429 branch |
| PollCoordinatorClass.PollCoordinator.ApplyBudgetPacing | custom_components/govee/coordinator.py:4833-4895 | paces unless a back-off is in force |
| PollCoordinatorClass.PollCoordinator.FinishPoll | custom_components/govee/coordinator.py:4519-4533 | clears the back-off, then paces unless deferred |
| LightBrightness.InRange | custom_components/govee/light.py:361-373 | both results stay in range; no range gives its minimum and 0 |
| LightBrightness.BothMonotone | custom_components/govee/light.py:361-373 | both conversions are monotone |
| LightBrightness.EndpointsFixed | custom_components/govee/light.py:361-373 | the ends of the two scales map to each other |
| LightBrightness.HaRoundTrip | custom_components/govee/light.py:361-373 | HA to device and back loses less than 255 / range + 1, and rises exactly where a negative level was rounded up over a wide enough step |
| LightBrightness.HaNeverRises | custom_components/govee/light.py:361-373 | with a minimum of zero or more it never rises |
| LightBrightness.NegativeMinimumRises | custom_components/govee/light.py:361-365 | with a negative minimum, up to 127 steps, it rises at 1 |
| LightBrightness.DeviceRoundTrip | custom_components/govee/light.py:361-373 | device to HA and back never rises and loses less than range / 255 + 1, one step on ranges up to 255 |
| EffectNames.Pigeonhole | custom_components/govee/light.py:440-444 | at most as many candidates are taken as there are names |
| EffectNames.FirstFreeIsFirst | custom_components/govee/light.py:440-444 | the name chosen is free and every earlier candidate is taken |
| EffectNames.NamesAreUnique | custom_components/govee/light.py:432-450 | one name per scene, no two alike |
| EffectNames.OwnNameIff | custom_components/govee/light.py:440-444 | a scene keeps its own name exactly when it is not taken |
| EffectNames.UniqueName | custom_components/govee/light.py:440-444 | the counting loop ends with the first free candidate |
| EffectNames.BuildEffectMapping | custom_components/govee/light.py:425-450 | names in order, each leading to its own scene; ids lead to the last scene with them |
| EffectNames.IdInvertsNameIff | custom_components/govee/light.py:447-448 | an id leads back to a scene's name exactly when no later scene has the id |
| SegmentReplay.ReplayEffect | custom_components/govee/coordinator.py:1345-1369 | in any order, exactly the segments of the accepted colours show their tracked colour |
| SegmentReplay.GroupedRefinesPerSegment | custom_components/govee/coordinator.py:1345-1369 | all accepted, the grouped replay equals replaying each segment by itself |
| SegmentReplay.TrackingUnchanged | custom_components/govee/coordinator.py:5558-5565 | recording the replay's own commands leaves the tracking map as it was |
| SegmentReplay.CallsAreColours | custom_components/govee/coordinator.py:1345-1369 | one call per distinct tracked colour |
| SegmentReplay.ReassertSegments | custom_components/govee/coordinator.py:1335-1369 | nothing when a guard says so, else the whole replay within the reserve |
| SegmentReplay.GroupByColor | custom_components/govee/coordinator.py:1345-1347 | the groups partition the tracked segments by colour |
| SegmentReplay.RestoredIff | custom_components/govee/coordinator.py:1319-1369 | after a whole-device write and what the guards leave of the replay, the ring is restored exactly when the replay is not held up by a power-off or the budget, or the tracked segments have the written colour; the black guard costs nothing |
| SegmentReplay.SpendsIff | custom_components/govee/coordinator.py:1319-1369 | calls are spent exactly when segments are tracked, no power-off is pending, twenty calls stay in reserve and it is not black over black |
| SegmentReplay.ColourOnlyRestoresIff | custom_components/govee/coordinator.py:1321-1326 | a guard on the tracked colours alone would restore the ring exactly when the write was black or some tracked segment is not |
| SegmentMask.FoldMask | custom_components/govee/coordinator.py:5681-5684 | bit i of the mask is set exactly when segment i is in the command |
| SegmentMask.MaskDependsOnSetOnly | custom_components/govee/coordinator.py:5681-5684 | two commands have the same mask exactly when they have the same segments |
| SegmentMask.FrameNamesSegments | custom_components/govee/api/ble_packet.py:196-224 | the frame's three mask bytes name exactly the segments below 24 |
| LeakClear.ClearWins | custom_components/govee/coordinator.py:3232-3257 | in every interleaving a value written from a reading after a clear comes from a request issued after it |
| LeakClear.ForgottenUntilAskedAgain | custom_components/govee/coordinator.py:3315-3327 | a report time recorded after a clear comes from an iteration begun after it and not before the alert was asked for again |
| LeakClear.RecordsIff | custom_components/govee/coordinator.py:3237-3257 | over every run a finishing iteration records its report time exactly when it has one and it began after the last clear |
| LeakClear.FetchedTickRestoresTime | custom_components/govee/coordinator.py:3229-3257 | a run in which a tick fetched before the clear restores the forgotten report time |
| LeakClear.NothingNewNothingAsked | custom_components/govee/coordinator.py:3242-3257 | over every run, once a dry detector's report is remembered, nothing asks about it again until a new report or a clear |
| LeakClear.FailedReadingRun | custom_components/govee/coordinator.py:3248-3257 | a run in which the one request about a report fails and its time is remembered all the same |
| LeakReadings.ShowsTheLog | custom_components/govee/coordinator.py:3211-3262 | over every run the detector shows the last value read or cleared and remembers the report time last recorded since the last clear |
| LeakReadings.ReadingIff | custom_components/govee/coordinator.py:3245-3257 | over every run a reading that finishes an iteration begun after the last clear is what the detector shows; a failed or overtaken one changes nothing |
| LeakReadings.AsksIff | custom_components/govee/coordinator.py:3237-3257 | over every run an iteration asks exactly when its report is newer than the one remembered since the last clear or the detector shows wet |
| WaterDetectorPollerClass.WaterDetectorPoller.BeginIteration | custom_components/govee/coordinator.py:3232-3247 | up to the request, other detectors untouched |
| WaterDetectorPollerClass.WaterDetectorPoller.FinishIteration | custom_components/govee/coordinator.py:3246-3257 | from the reply, or the failure, to the recorded time |
| WaterDetectorPollerClass.WaterDetectorPoller.ClearWaterLeak | custom_components/govee/coordinator.py:3306-3327 | the generation moves, the time is forgotten, the leak dropped |
| Watchdog.WatchdogActsInTurn | custom_components/govee/coordinator.py:4092-4160 | over every run it acts only on a session with no message despite queries or readings; one reconnect, then one repair |
| Watchdog.OneReconnectOneRepair | custom_components/govee/coordinator.py:4133-4160 | two reconnects, two repairs, or a repair then a reconnect have evidence between them |
| Watchdog.RepairFollowsReconnect | custom_components/govee/coordinator.py:4133-4160 | a repair follows a reconnect with no evidence between, and since that reconnect a new session came up or its handler was cut off |
| Watchdog.HandlersExclude | custom_components/govee/coordinator.py:4139-4160 | one handler at most is past the guard |
| WatchdogActs.ActsIff | custom_components/govee/coordinator.py:4092-4160 | over every run the log grows by exactly what the table says: a due check of a live session that looks silent, with no handler running, reconnects if that was not done since the last evidence, else raises the repair; messages make it clear both; a long enough refresh acts on two missed pushes |
| WatchdogActs.HandlersMove | custom_components/govee/coordinator.py:4139-4160 | over every run a handler past the guard stops, starts and ends, and each reconnect lets one past it |
| WatchdogActs.RepairRun | custom_components/govee/coordinator.py:4133-4160 | a run of two silent sessions that ends with the repair |
| SilentSessionWatchdogClass.SilentSessionWatchdog.ArmSilenceCheck | custom_components/govee/coordinator.py:4092-4100 | a new session resets the counts and arms the timer |
| SilentSessionWatchdogClass.SilentSessionWatchdog.NoteInbound | custom_components/govee/coordinator.py:4102-4107 | clears the watchdog state |
| SilentSessionWatchdogClass.SilentSessionWatchdog.CheckSilence | custom_components/govee/coordinator.py:4109-4131 | the timer's check |
| SilentSessionWatchdogClass.SilentSessionWatchdog.CheckMissedPushes | custom_components/govee/coordinator.py:2654-2664 | the missed-push check |
| SilentSessionWatchdogClass.SilentSessionWatchdog.NotePushEvidence | custom_components/govee/coordinator.py:2626-2652 | counts a reading the session did not deliver |
| SilentSessionWatchdogClass.SilentSessionWatchdog.HandleSilentSession | custom_components/govee/coordinator.py:4133-4160 | reconnects once, then raises the repair, never twice at a time, in place: the state function whose every action ActsIff fixes |

## Left out

- REST, MQTT, BLE and UDP clients, login and frame builders: their outcomes are events the environment chooses.
- Home Assistant plumbing (entities, registries, forms, repairs, listeners, timers' cancellation handles): library glue.
- asyncio internals: a cancelled task takes no further step of its own but its finally, waits end no earlier than asked, and a background confirm has entered its try before it can be cancelled.
- Object identity: a prepared confirm and a task are numbers in order of creation; `is` compares those.
- The confirmer's nested counter dictionary is one map over (device, counter).
- Floating point: brightness, pacing and clock arithmetic use exact integers, rationals and reals; Python's `round` breaks ties to even.
- CommandConfirmVerdict.VerdictIff: like TurnFollowsReports, EndsAside and ResendIsUpToDate, for runs that start each prepared confirm at most once, as the coordinator does.
- CommandConfirmOrder.ResendIsUpToDate: only for runs that start each prepared confirm at most once, as the coordinator does; without that CleanupEvictsIff applies.
- LanTier.RoutingStaysUnambiguous: only for runs whose scans give distinct addresses; pushes from an address two devices share are refused by LanDeviceMap.OnLanDevStatus.
- A refresh of LAN reads is one step although it awaits its replies: what else writes the device map, the rescan, runs before it in the same poll (`coordinator.py:4547-4548`), and what runs meanwhile touches only the write misses, which a refresh drops but never reads.
- LanWriteCooldown.FourSendsSpanACooldown: for writes that go one at a time, never confirm, are not cut off and whose device stays mapped; a write-only device is never suppressed.
- LightBrightness.HaNeverRises: for a minimum of zero or more; HaRoundTrip gives the exact condition for any minimum.
- A confirm whose LAN client goes away while it settles raises; that is an abort of the confirm.
- SegmentReplay.RestoredIff: for tracked segments the ring has; a segment it does not have is not modelled.
- SegmentReplay.GroupedRefinesPerSegment: the replay by itself; a segment command of the user's that lands between two of its calls is not modelled.
- A device's overlay of a LAN reading and the optimistic update of a command: what is applied is outside the model, only whether and to which device.
- `_fetch_device_state`'s field-by-field preservation and the dispatch table of optimistic updates: many branches, each settled by itself.
- BLE eligibility, the MQTT and REST tiers below LAN, and the H8057 and music special cases: one outcome per tier is an event.
- `device_id` checksums: a number the environment chooses; `_bff_last_time_seen` and the age test of a session: the environment says whether a reading counts.
- The rest of the kettle manager, child power latches, UDP health, DIY state store, fan and humidifier mappings: small latches that would add easy members.
- Scripts, diagnostics, previews and translations: rendering and text.
