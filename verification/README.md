# MoistureLoop: a verified model of its irrigation control core

MoistureLoop waters zones in pulses: a moisture report below a threshold starts a session, each
pulse is followed by a soak, and a fresh report after the soak decides whether another pulse
follows. One zone may water at a time. This project models the code that makes those decisions
and proves what holds of every input, of every run and of every interleaving.

| file | what it models |
|---|---|
| `Vocabulary.dfy` | enumerations, observations, configuration, sessions, events, actions, decisions |
| `StateMachine.dfy` | the pure transition function `decide`; a failed assertion, a raised error or a missing table row is a `Raise` |
| `Accounting.dfy` | the split of an interval over local days and the lazily rolled-over daily counter |
| `SlotManager.dfy`, `SlotRuns.dfy` | the watering slot, its queue and blockers; every interleaving with suspended Store writes |
| `ZoneController.dfy` | one zone's controller: gather facts, decide, apply the decision to its fields and to the slot manager |
| `ZoneInvariant.dfy`, `ZoneLaws.dfy`, `ZoneActions.dfy`, `ZoneDuties.dfy`, `ZoneGuards.dfy` | what single decisions keep, obey, ask for, must not forget and depend on |
| `ZoneRuns.dfy`, `ZoneTheorems.dfy`, `ZoneBudget.dfy`, `ZoneTimers.dfy` | whole runs of one zone, observed by a history; the theorems, the budgets and the timers |
| `Restart.dfy` | what the Store keeps of a zone, and how a restart resumes it |
| `Garden.dfy`, `GardenHazards.dfy` | any number of zones over one slot manager, one action at a time; what becomes of it when its two assumptions fail |
| `Reconciliation.dfy` | the configuration coordinator: latest snapshot wins, reload, shutdown |
| `Merge.dfy` | the conservative merge of daily budgets and histories |
| `StoreModel.dfy`, `Planner.dfy` | safety records and zone histories; the reconciliation transaction |
| `Migration.dfy`, `StoreCodec.dfy`, `RunProtocol.dfy` | schema-1 migration; printer and strict parser; verified writes and run ids |

## Reading the model

- Instants and durations are whole microseconds; moisture and merged budgets are exact reals.
- The time zone is any pair of a date function and a midnight function that agree with each other.
- The clock, reports, actuator assessments, the registry, freshly made ids and the fate of a Store
  write are parameters or nondeterministic steps.
- An `await` is a point where other steps may run. A zone works through the actions of a decision
  one at a time while other zones go on. In `SlotRuns` a blocker operation that awaits the Store is two
  steps; in `Garden`, where the write succeeds, its live effect is one.
- Runs assume what the adapters promise: reports and OFF evidence are not stamped in the future,
  observations are structurally valid, and the setup-only events `StoreIntegrityLost` and
  `ConfigurationInvalid(at_setup=True)` come without an open session.
- One id stands for a zone in the slot queue and for its safety record in the blocker keys.

## Findings

Where a promised property does not hold of the code, the code is modelled as it is, an input shows
the failure, and the exact condition is proved.

- A fault acknowledgement is accepted while accounting is open: the zone becomes IDLE with its
  session, and the next start drops that session without a finish event
  (`ZoneInvariant.AckIsTheOnlyBreach`, `AckedSessionIsDropped`, `AckExample`). Run theorems exclude
  exactly that event.
- The committed reason of a session is not persisted and is restored only for FAULT with
  `ACTUATOR_OFF_TIMEOUT`. A zone that was disabled, or given another fault, while it waits for OFF
  proof loses it, and the OFF proof then raises (`Restart.RestingZoneResumes`, `LostReasonRaises`,
  `SwitchedOffLosesReason`, `LostReasonExample`). A second restart turns restart recovery into an actuator fault and
  charges from the command instead of the intent (`Restart.RestartKeepsReasonExactly`,
  `SecondRestartForgetsRecovery`, `ForgetfulExample`).
- Interference during a soak charges the already closed pulse a second time, in SOAKING and, after
  OFF exhaustion, in FAULT and DISABLED (`ZoneBudget.ChargesAgainExactly`, `ClosedPulseCountsTwice`,
  `ChargedAgainExamples`).
- A request for the slot can be answered with a dead handle (`SlotManagement.RequestAnswers`,
  `SlotRuns.DeadHandleExample`).
- A reload that reported success without unloading would admit an unapplied configuration
  (`Reconciliation.ReloadWithoutUnload`, `OvertakenReload`).
- A committed plan can leave a RETIRED record with a blocker, exactly when a zone flagged it in an
  identity conflict (`Planner.PlaceBlocksExactly`, `PlanBlocksExactly`, `BlockedRetiredExample`).
- Republishing blockers from a Store snapshot takes down a live fence whose write was suspended when
  the snapshot was taken (`GardenHazards.SuspendedFenceIsTakenDown`). The world before tells exactly
  when the garden bears it (`ForeignHandOnFence`); when it does not, two pulses can be open at once
  (`TakenDownFenceOpensTwo`).
- A task that waits for the slot gives it back when the zone is no longer eligible, without looking
  at the pulse. That keeps the garden safe exactly when the zone has no open pulse or its fence is up
  (`GardenHazards.ReleaseWhileOpen`); otherwise two pulses can be open (`EarlyReleaseOpensTwo`).
  Whether such a task can still be waiting while its own zone waters is not modelled.
- Reporting external flow over the integration's own unconfirmed flow overwrites the recorded flow
  owner (`StoreModel.OwnerStaysRight`, `OverwrittenOwnerExample`).

## Model

| member | source | states |
|---|---|---|
| `ZoneInvariant.StartAutoPulseAnswers` | custom_components/moisture_loop/state_machine.py:324-380 | starting a pulse raises nothing and leaves a sound WATERING zone, for a new session and for a continued one |
| `ZoneInvariant.AutoStartAnswers` | custom_components/moisture_loop/state_machine.py:282-321 | evaluating an automatic start answers from every sound IDLE zone and keeps the zone sound |
| `ZoneInvariant.ManualStartAnswers` | custom_components/moisture_loop/state_machine.py:388-476 | a manual start answers from IDLE and FAULT, and a retained fault is always a sensor fault |
| `ZoneInvariant.FinalizeAnswers` | custom_components/moisture_loop/state_machine.py:785-899 | closing WATERING never misses a row and ends in IDLE without a fault, FAULT with one, or DISABLED |
| `ZoneInvariant.WateringAnswers` | custom_components/moisture_loop/state_machine.py:537-634 | every ordinary event in WATERING is answered and keeps the zone sound |
| `ZoneInvariant.RecheckAnswers` | custom_components/moisture_loop/state_machine.py:1123-1154 | a recheck on a qualifying report answers and keeps the zone sound, although it tests neither the switch nor the session's shape |
| `ZoneInvariant.SoakingAnswers` | custom_components/moisture_loop/state_machine.py:969-1045 | every ordinary event in SOAKING is answered, its deadlines being present |
| `ZoneInvariant.DelayedClosureAnswers` | custom_components/moisture_loop/state_machine.py:1407-1430 | a session that waits for OFF proof outside WATERING and SOAKING has a reason to close with |
| `ZoneInvariant.FaultAnswers` | custom_components/moisture_loop/state_machine.py:1310-1399 | every ordinary event in FAULT but an acknowledgement with open accounting is answered and keeps the zone sound |
| `ZoneInvariant.DecideAnswers` | custom_components/moisture_loop/state_machine.py:131-149 | from a sound zone every ordinary event yields a constructible, applicable decision and a sound zone |
| `ZoneInvariant.AckIsTheOnlyBreach` | custom_components/moisture_loop/state_machine.py:1375-1399 | the zone stays sound if and only if the event is not an acknowledgement accepted with accounting open; that one leaves IDLE with the session |
| `ZoneInvariant.AckedSessionIsDropped` | custom_components/moisture_loop/state_machine.py:282-321 | a session left behind in IDLE is overwritten, never closed or announced, if and only if an automatic start succeeds, whichever of the three events leads to it; a manual start is refused because of it |
| `ZoneInvariant.AckExample` | custom_components/moisture_loop/state_machine.py:1375-1399 | a concrete acknowledgement with open accounting that is accepted |
| `ZoneLaws.DecideLawful` | custom_components/moisture_loop/state_machine.py:131-149 | every decision of a sound zone keeps the session's identity and committed reason, starts a pulse only when allowed, charges only the closing OFF, and moves the freshness deadline only forward |
| `ZoneLaws.StaleExactlyWhenDue` | custom_components/moisture_loop/state_machine.py:692-720 | a watchdog callback commits SENSOR_STALE if and only if its token is the armed one and the deadline has passed |
| `ZoneActions.DecideListed` | custom_components/moisture_loop/state_machine.py:131-149 | the finish event accompanies a closure exactly once, TurnOn exactly the four starting rows, the armed token is the session's, and the fence and the slot follow the session |
| `ZoneDuties.DecideDutiful` | custom_components/moisture_loop/state_machine.py:723-741 | every decision writes the intent before TurnOn, asks for OFF when it commits a reason, and on closure gives back the slot and, if a reason was committed, the fence |
| `ZoneGuards.AutoGuardsAreExact` | custom_components/moisture_loop/state_machine.py:282-311 | the recorded guards are exactly the conditions that fail |
| `ZoneGuards.AutoStartsExactly` | custom_components/moisture_loop/state_machine.py:282-321 | an idle zone starts if and only if every condition holds and it owns the free slot, and asks for the slot if and only if only the slot is missing |
| `ZoneGuards.ManualStartsExactly` | custom_components/moisture_loop/state_machine.py:388-476 | a manual start happens if and only if the request, switch, session, fault, actuator, budget, blockers and slot all allow it |
| `ZoneGuards.ManualDurationIsLongest` | custom_components/moisture_loop/state_machine.py:408-419 | the effective duration is the longest within the request and the three limits, and the clamp reasons name exactly the limits below the request |
| `ZoneGuards.RecheckDecides` | custom_components/moisture_loop/state_machine.py:1123-1154 | by whatever event it is reached, a recheck ends the session for the first limit reached, or starts the next pulse, or asks for the slot, each exactly under its condition |
| `ZoneGuards.GraceNeverWaits` | custom_components/moisture_loop/state_machine.py:1099-1120 | at the grace deadline the session closes, continues or asks for the slot |
| `ZoneTimers.DecideTimed` | custom_components/moisture_loop/state_machine.py:324-380 | every decision that leaves a session running arms exactly the deadline it needs: the confirmation on a start, the planned end on a confirmation, nothing otherwise; a due end asks for OFF |
| `ZoneTimers.PulsesAreBounded` | custom_components/moisture_loop/zone_controller.py:1688-1710 | in every run an open, uncommitted pulse has its confirmation deadline or its end timer armed at the right time, or that timer's event is on the way, or OFF was asked for |
| `ZoneRuns.DispatchKeepsInv` | custom_components/moisture_loop/zone_controller.py:1293-1391 | one dispatched event keeps the zone and what was observed of it in step: pulses, watchdog, generations, counter, finish events |
| `ZoneRuns.CommandKeepsInv` | custom_components/moisture_loop/zone_controller.py:2005-2013 | recording the command anchor keeps all of it |
| `ZoneRuns.RunKeepsInv` | custom_components/moisture_loop/zone_controller.py:1293-1391 | the invariant holds at every point of every run |
| `ZoneRuns.ChargeIsClosing` | custom_components/moisture_loop/zone_controller.py:1348-1353 | what is charged is the closing charge of OFF evidence that is not in the future |
| `ZoneTheorems.NewZoneStartsRun` | custom_components/moisture_loop/zone_controller.py:526-550 | a zone as first constructed, disabled and without a session, can start a run |
| `ZoneTheorems.NothingRaises` | custom_components/moisture_loop/state_machine.py:131-149 | in no run does a decision raise, fail its constructor or fail to apply |
| `ZoneTheorems.StatesTellTheTruth` | custom_components/moisture_loop/state_machine.py:879-899 | in every run IDLE has neither fault nor session, FAULT has a fault, and a session outside WATERING and SOAKING has a reason and a fault |
| `ZoneTheorems.FirstRequestOwns` | custom_components/moisture_loop/state_machine.py:723-741 | once a session has a committed reason, every continuation holds it under that reason or has closed it next with that reason; only OFF exhaustion turns it into ACTUATOR_FAULT, and never RESTART_RECOVERY |
| `ZoneTheorems.OneFinishPerClosure` | custom_components/moisture_loop/zone_controller.py:1598-1625 | every closure of every run has exactly one finish event, in order, with its reason and summary |
| `ZoneTheorems.SessionsEndByClosure` | custom_components/moisture_loop/state_machine.py:785-832 | a session disappears only by a closure of that session |
| `ZoneTheorems.TurnOnOnlyWhenAllowed` | custom_components/moisture_loop/state_machine.py:1123-1154 | every TurnOn of every run is decided with the zone enabled, the slot owned, no blocker, the actuator available and proven off, and no pulse open |
| `ZoneTheorems.PulsesAreSpaced` | custom_components/moisture_loop/state_machine.py:759-782 | pulses of a session lie a full soak after confirmed OFF and number its cycle, never above max_cycles |
| `ZoneTheorems.NextPulseRestsOnReport` | custom_components/moisture_loop/state_machine.py:190-199 | each further pulse rests on a VALID, fresh report stamped no earlier than the soak's end and below target |
| `ZoneTheorems.WatchdogFollowsReports` | custom_components/moisture_loop/state_machine.py:653-689 | while an automatic pulse runs uncommitted, deadline and armed token are those of the newest VALID report folded in, under strictly increasing generations |
| `ZoneTheorems.StaleOnlyWhenAgedOut` | custom_components/moisture_loop/state_machine.py:692-720 | in every run a watchdog callback ends the pulse if and only if its token is the current one and the newest report has reached its maximum age |
| `ZoneTheorems.CounterIsRecomputation` | custom_components/moisture_loop/zone_controller.py:1582-1596 | read at any later time, the daily counter equals the overlap of everything ever charged with that day |
| `ZoneBudget.BudgetsHold` | custom_components/moisture_loop/state_machine.py:178-187 | if no charge exceeds its pulse's plan by more than e, every open and closed session stays within max_session + e and every day, past ones included, within max_daily + e |
| `ZoneBudget.RunStaysWithin` | custom_components/moisture_loop/state_machine.py:744-756 | while a pulse is open its planned length still fits both budgets |
| `ZoneBudget.ChargesAgainExactly` | custom_components/moisture_loop/state_machine.py:1216-1254 | a decision charges without an open pulse if and only if OFF evidence its state takes as its own reaches a session with a confirmed OFF, a committed reason and a positive charge from its anchor |
| `ZoneBudget.ChargedAgainFromCommand` | custom_components/moisture_loop/state_machine.py:1407-1430 | in SOAKING, FAULT and DISABLED alike that charge runs from the command of the closed pulse to the new OFF |
| `ZoneBudget.ClosedPulseCountsTwice` | custom_components/moisture_loop/state_machine.py:744-756 | in every run the first charge of that pulse is already on the books when the second is added |
| `ZoneBudget.CountedTwiceEachDay` | custom_components/moisture_loop/models.py:2916-2924 | on every day the total holds the time up to the earlier of the two OFFs twice, and grows by exactly that stretch and what follows it |
| `ZoneBudget.ChargedAgainExamples` | custom_components/moisture_loop/state_machine.py:1216-1254 | concrete instances in SOAKING and, after OFF exhaustion, in FAULT |
| `Accounting.SegmentEnd` | custom_components/moisture_loop/models.py:2885-2913 | a segment is never empty and never passes the end, whatever the zone data |
| `Accounting.SplitByLocalDays` | custom_components/moisture_loop/models.py:2885-2913 | the cursor loop computes the split |
| `Accounting.WalkPartitions` | custom_components/moisture_loop/models.py:2885-2913 | the segments add up to the interval and none is empty |
| `Accounting.DayChargeBounded` | custom_components/moisture_loop/models.py:2916-2924 | one day is never charged more than the interval lasted |
| `Accounting.DayChargeIsOverlap` | custom_components/moisture_loop/models.py:2916-2924 | the charge of a day is the length of the interval's overlap with it |
| `Accounting.DayChargeAdditive` | custom_components/moisture_loop/models.py:2916-2924 | charging adjacent intervals charges what the whole would have |
| `Accounting.ReadAgrees` | custom_components/moisture_loop/zone_controller.py:1582-1587 | the lazy rollover reads as the recomputation of the day it is read on |
| `Accounting.ChargeAgrees` | custom_components/moisture_loop/zone_controller.py:1589-1596 | charging an interval that has ended keeps the counter equal to the recomputation |
| `ZoneControl.ChargedInterval` | custom_components/moisture_loop/zone_controller.py:1348-1353 | a charged interval is not empty |
| `ZoneControl.ZoneController.Current` | custom_components/moisture_loop/zone_controller.py:1582-1587 | the counter is rolled over in place when its date is not today |
| `ZoneControl.ZoneController.ChargeRuntime` | custom_components/moisture_loop/zone_controller.py:1589-1596 | the day's share of the interval, summed over the split, is added to the counter |
| `ZoneControl.ZoneController.Prepare` | custom_components/moisture_loop/zone_controller.py:1299-1324 | the switch flips with its event, and the input is built from the fields |
| `ZoneControl.ZoneController.ApplyFields` | custom_components/moisture_loop/zone_controller.py:1326-1379 | session, state, faults, charge, summary and remembered request are written as the decision says |
| `ZoneControl.ZoneController.Housekeep` | custom_components/moisture_loop/zone_controller.py:1358-1371 | leaving WATERING or SOAKING cancels that state's timers, and a confirmed ON its deadline |
| `ZoneControl.ZoneController.ApplyLocked` | custom_components/moisture_loop/zone_controller.py:1326-1391 | a decision that is not a no-op is applied to the fields and all its actions, in order, to the zone and the slots |
| `ZoneControl.ZoneController.ApplyToZone` | custom_components/moisture_loop/zone_controller.py:1394-1440 | what each action changes in the zone |
| `ZoneControl.ZoneController.ApplyToSlots` | custom_components/moisture_loop/zone_controller.py:1416-1422 | what each action changes in the slot manager |
| `ZoneControl.ZoneController.DecideAndApply` | custom_components/moisture_loop/zone_controller.py:1293-1297 | one event decides on the prepared zone and takes full effect; a raised exception changes nothing else |
| `SlotManagement.SlotManager.TryGrantLocked` | custom_components/moisture_loop/slot_manager.py:310-331 | cancelled handles are dropped from the front and the first live one gets the free, open, unblocked slot |
| `SlotManagement.SlotManager.RequestSlot` | custom_components/moisture_loop/slot_manager.py:238-256 | the owner gets a resolved handle, a queued zone its own handle again, anyone else the tail of the queue |
| `SlotManagement.SlotManager.CancelRequestOf` | custom_components/moisture_loop/slot_manager.py:258-261 | the zone leaves the queue and the others keep their order |
| `SlotManagement.SlotManager.ReleaseBy` | custom_components/moisture_loop/slot_manager.py:263-275 | only the owner can release, and a release offers the slot on |
| `SlotManagement.SlotManager.RequeueTailOf` | custom_components/moisture_loop/slot_manager.py:277-290 | the owner goes to the tail and the slot is offered on |
| `SlotManagement.SlotManager.CloseAdmissionNow` | custom_components/moisture_loop/slot_manager.py:167-182 | grants end and every waiting handle is cancelled |
| `SlotManagement.SlotManager.SetReconciliationStateNow` | custom_components/moisture_loop/slot_manager.py:207-230 | the barrier changes as told, and a clear barrier offers the slot |
| `SlotManagement.SlotManager.BeginAddBlocker` | custom_components/moisture_loop/slot_manager.py:101-120 | the key is live before its write is awaited |
| `SlotManagement.SlotManager.FinishRemoveBlocker` | custom_components/moisture_loop/slot_manager.py:122-140 | a key goes only after its removal was verified, and the slot is offered |
| `SlotManagement.TryGrantKeeps` | custom_components/moisture_loop/slot_manager.py:310-331 | a grant decision keeps the queue well formed and strands no live request |
| `SlotManagement.RequestAnswers` | custom_components/moisture_loop/slot_manager.py:238-256 | the handle returned is dead if and only if the zone had a cancelled handle in the queue |
| `SlotRuns.RunKeepsInv` | custom_components/moisture_loop/slot_manager.py:79-140 | queued zones are distinct, the owner is not queued, no queued handle is granted, and durable keys are live, in every interleaving |
| `SlotRuns.FailClosed` | custom_components/moisture_loop/slot_manager.py:101-140 | at every suspension point what the Store holds is live, nothing is granted while a key is live or admission is shut, and no live request waits on a free slot |
| `SlotRuns.OtherKeysUntouched` | custom_components/moisture_loop/slot_manager.py:101-140 | an operation on one key changes no other, live or durable |
| `SlotRuns.RequestOrder` | custom_components/moisture_loop/slot_manager.py:310-331 | handles are resolved in request order in every run |
| `SlotRuns.DeadHandleExample` | custom_components/moisture_loop/slot_manager.py:246-251 | a zone that asked and whose waiting task was cancelled is handed the dead handle again |
| `Restart.DecideWritesAhead` | custom_components/moisture_loop/state_machine.py:131-149 | a decision that changes anything the Store keeps asks for the write, for every input |
| `Restart.ImageIsCurrent` | custom_components/moisture_loop/zone_controller.py:1519-1538 | in every run the image last written is the zone's own, up to a command anchor still in memory, a rollover of the counter and a switch flipped since |
| `Restart.RestingZoneResumes` | custom_components/moisture_loop/runtime.py:1079-1111 | a resting zone resumes soundly if and only if no session loses its reason |
| `Restart.LostReasonRaises` | custom_components/moisture_loop/state_machine.py:1407-1417 | after a restart the OFF proof raises if and only if the reason was lost |
| `Restart.LostReasonExample` | custom_components/moisture_loop/state_machine.py:1407-1417 | a concrete sound zone whose OFF proof raises after a restart |
| `Restart.SwitchedOffLosesReason` | custom_components/moisture_loop/state_machine.py:1310-1355 | disabling a zone that waits for OFF proof loses the reason at the next restart |
| `Restart.RestartKeepsReasonExactly` | custom_components/moisture_loop/runtime.py:1079-1111 | a restart keeps the reason of a resting session if and only if it is ACTUATOR_FAULT and not lost; restart recovery is always lost or replaced |
| `Restart.SecondRestartForgetsRecovery` | custom_components/moisture_loop/state_machine.py:744-756 | the charge a second restart loses, exactly: the time between intent and command, or the whole pulse if it was never commanded |
| `Restart.ExhaustedRecoveryIsForgotten` | custom_components/moisture_loop/state_machine.py:902-928 | OFF exhaustion during recovery leads to a zone whose next restart forgets the recovery |
| `Restart.ForgetfulExample` | custom_components/moisture_loop/runtime.py:1079-1111 | a concrete zone that loses charge at its second restart |
| `Restart.StartupFromWatering` | custom_components/moisture_loop/state_machine.py:931-962 | startup of a watering zone is answered, announced and carries or closes the pulse |
| `Restart.StartupFromSoaking` | custom_components/moisture_loop/state_machine.py:1257-1303 | startup of a soaking zone is answered, with or without an unsafe fault, and a trusted soak resumes as it was |
| `Restart.ActiveZoneResumes` | custom_components/moisture_loop/runtime.py:2430-2502 | a zone that was watering or soaking resumes as the next step of the same history |
| `Restart.RestingRunResumes` | custom_components/moisture_loop/zone_controller.py:597-640 | a resting zone that loses no reason resumes where it was |
| `Garden.FencedGardenIsSound` | custom_components/moisture_loop/runtime.py:989-1006 | a garden in which startup has fenced exactly what waits for OFF is one to start from |
| `Garden.StartupFences` | custom_components/moisture_loop/state_machine.py:931-962 | startup fences every watering zone it does not close at once |
| `Garden.DispatchKeepsInv` | custom_components/moisture_loop/zone_controller.py:1293-1324 | a decision opens a pulse only while it owns the slot with no blocker, and what it leaves open is covered |
| `Garden.ActKeepsInv` | custom_components/moisture_loop/zone_controller.py:1394-1422 | each action keeps every open pulse covered by the slot or by its fence |
| `Garden.RunKeepsInv` | custom_components/moisture_loop/slot_manager.py:310-331 | the covering invariant holds at every point of every interleaving |
| `Garden.AtMostOneOpenPulse` | custom_components/moisture_loop/state_machine.py:902-928 | at every point at most one zone has an open pulse; it owns the slot or its fence is up, and a quiet zone outside WATERING is fenced |
| `Garden.FenceStandsForWaiting` | custom_components/moisture_loop/state_machine.py:1236-1254 | the fence of a quiet zone stands only for a session that waits for OFF, and outside WATERING exactly for those |
| `Garden.TurnOnFindsNoOpenPulse` | custom_components/moisture_loop/state_machine.py:312-321 | every TurnOn is decided while no zone at all has an open pulse |
| `GardenHazards.SuspendedFenceIsTakenDown` | custom_components/moisture_loop/runtime.py:989-1006 | a concrete interleaving in which a fence that is live and durable is taken down, because the snapshot was read while its write was suspended |
| `GardenHazards.ForeignHandOnFence` | custom_components/moisture_loop/runtime.py:989-1006 | taking down a fence from outside keeps the garden's invariant if and only if the zone could spare it, a condition on the world before: any open pulse owns the slot, or stands first in line for it behind no other blocker, and will not release it; and a waiting session is about to put the fence up |
| `GardenHazards.TakenDownFenceOpensTwo` | custom_components/moisture_loop/runtime.py:989-1006 | a concrete sound garden in which taking down one fence and delivering one grant leaves two pulses open |
| `GardenHazards.ReleaseWhileOpen` | custom_components/moisture_loop/zone_controller.py:1742-1757 | giving back the slot keeps the garden's invariant if and only if the zone has no open pulse or its fence is up |
| `GardenHazards.EarlyReleaseOpensTwo` | custom_components/moisture_loop/zone_controller.py:1742-1757 | a concrete sound garden in which giving back the slot of an open pulse and delivering one grant leaves two pulses open |
| `GardenHazards.SecondPulseOpens` | custom_components/moisture_loop/state_machine.py:282-321 | whenever the slot falls to a zone that may start while another pulse is open and no blocker is left, its start opens a second pulse |
| `Reconciliation.ConfigurationReconciliation.ObserveCurrent` | custom_components/moisture_loop/reconciliation.py:289-311 | a notification raises the generation, captures the snapshot and closes the barrier |
| `Reconciliation.ConfigurationReconciliation.PublishTarget` | custom_components/moisture_loop/reconciliation.py:386-426 | publication adopts the target and then fails, queues the reload or opens the barrier |
| `Reconciliation.ConfigurationReconciliation.FinishThisPass` | custom_components/moisture_loop/reconciliation.py:370-426 | a pass fails, ends, asks for another pass or publishes exactly as specified |
| `Reconciliation.ConfigurationReconciliation.RunLatestLoop` | custom_components/moisture_loop/reconciliation.py:342-426 | the worker's loop computes its specification whatever ran during its awaits |
| `Reconciliation.ConfigurationReconciliation.ClosePublicationNow` | custom_components/moisture_loop/reconciliation.py:541-556 | closing forbids publication and dirties the barrier |
| `Reconciliation.OpenMeansCurrent` | custom_components/moisture_loop/reconciliation.py:386-426 | in every interleaving an open barrier means the applied generation and snapshot are the observed ones, no worker is busy and publication is open |
| `Reconciliation.NeverBack` | custom_components/moisture_loop/reconciliation.py:541-556 | the applied generation never goes back, and nothing reopens the barrier after the close |
| `Reconciliation.PassesBounded` | custom_components/moisture_loop/reconciliation.py:342-385 | the loop makes at most one pass more than there were observations during it |
| `Reconciliation.LoopKeepsInv` | custom_components/moisture_loop/reconciliation.py:342-426 | wherever the loop stops, admission implies currency |
| `Reconciliation.ReloadWithoutUnload` | custom_components/moisture_loop/reconciliation.py:503-514 | a success without unload keeps admission truthful if and only if publication is closed or nothing newer was observed |
| `Reconciliation.OvertakenReload` | custom_components/moisture_loop/reconciliation.py:503-514 | a concrete, reachable overtaken reload that would admit an unapplied configuration |
| `Merge.Deduplicate` | custom_components/moisture_loop/models.py:2053-2063 | the dictionary loop lists each contribution once in id order, or refuses a reused id |
| `Merge.ListedHolds` | custom_components/moisture_loop/models.py:2063-2063 | the listing holds exactly the contributions, in ascending order |
| `Merge.MergeIsValid` | custom_components/moisture_loop/models.py:1765-1783 | the merge of valid records is valid |
| `Merge.MergeRefused` | custom_components/moisture_loop/models.py:2076-2080 | a merge is refused if and only if the dates differ or an id is reused |
| `Merge.MergeIsConservative` | custom_components/moisture_loop/models.py:2066-2091 | the merge is never less than either side and counts a shared contribution once |
| `Merge.MergeCommutes` | custom_components/moisture_loop/models.py:2066-2091 | merging is commutative, refusal included |
| `Merge.MergeAssociates` | custom_components/moisture_loop/models.py:2066-2091 | merging is associative, refusal included |
| `Merge.HistoryMergeIsConservative` | custom_components/moisture_loop/models.py:2094-2135 | a history merge keeps identity and operational state, moves no anchor back and lowers no day's budget |
| `Merge.HistoryMergeCommutes` | custom_components/moisture_loop/models.py:2094-2135 | what crosses a history merge does not depend on the side that continues |
| `Merge.ControllerDayIsValid` | custom_components/moisture_loop/storage.py:790-808 | the controller's counter makes a valid record if and only if it covers the day's known contributions |
| `Planner.IndexTargets` | custom_components/moisture_loop/runtime.py:1170-1195 | the first loop finds exactly the zones whose actuator an earlier zone selected |
| `Planner.TombstoneLoop` | custom_components/moisture_loop/runtime.py:1197-1228 | the loop over stored records computes the tombstones |
| `Planner.PlaceLoop` | custom_components/moisture_loop/runtime.py:1230-1470 | the loop over configured zones computes their placement |
| `Planner.PlanReconciledStore` | custom_components/moisture_loop/runtime.py:1159-1470 | the three loops in turn compute the plan |
| `Planner.RetainRetiresSafely` | custom_components/moisture_loop/runtime.py:1538-1585 | a retained record is retired only with OFF or operator proof, no blocker, no flow owner and no session |
| `Planner.PlaceAllKeeps` | custom_components/moisture_loop/runtime.py:1230-1470 | placing the configured zones keeps all evidence, all sessions and safe retirement |
| `Planner.TombstoneAllKeeps` | custom_components/moisture_loop/runtime.py:1197-1228 | materializing the tombstones keeps all evidence and all sessions and retires safely |
| `Planner.CommittedKeepsEvidence` | custom_components/moisture_loop/runtime.py:1159-1585 | every committed transaction keeps every record with lineage, fault, acknowledgement flag and fence, exactly the open sessions, and retires only on proof, with a blocker if and only if the plan flagged the record |
| `Planner.CommittedKeepsBudgets` | custom_components/moisture_loop/runtime.py:1344-1372 | for every record, the history it points to after a committed transaction is no lower on the day's budget and no earlier on any interval anchor than the one it pointed to before; the same holds of every history that is kept |
| `Planner.PlanKeepsSwitches` | custom_components/moisture_loop/runtime.py:1640-1680 | no transaction switches a zone on or off, and a new zone starts switched off |
| `Planner.PlaceBlocksExactly` | custom_components/moisture_loop/runtime.py:1236-1335 | placing a zone blocks a retired record if and only if it flags it as a claimant, an identity conflict or an unregistered conflict, and leaves it retired |
| `Planner.PlanBlocksExactly` | custom_components/moisture_loop/runtime.py:1159-1470 | a record the plan leaves retired has a blocker if and only if some zone flagged it |
| `Planner.FlaggedIsReported` | custom_components/moisture_loop/runtime.py:1236-1335 | a flagged record is always reported as trouble |
| `Planner.BlockedRetiredExample` | custom_components/moisture_loop/runtime.py:1236-1258 | a concrete committed transaction that leaves a retired record blocked |
| `StoreModel.SetBlockerIsLocal` | custom_components/moisture_loop/storage.py:562-605 | a blocker write changes that key and the flow owner of that record and nothing else |
| `StoreModel.SetBlockerKeepsValidity` | custom_components/moisture_loop/storage.py:562-605 | a blocker write keeps the store valid |
| `StoreModel.OwnerStaysRight` | custom_components/moisture_loop/storage.py:582-595 | the flow owner stays the one the blockers point to if and only if external flow is not reported over unconfirmed flow of our own |
| `StoreModel.OverwrittenOwnerExample` | custom_components/moisture_loop/storage.py:582-595 | a concrete record whose unconfirmed flow of our own is recorded as external |
| `Migration.MigrateStore` | custom_components/moisture_loop/models.py:2142-2278 | the loop over the legacy records computes the migration |
| `Migration.MigratesExactly` | custom_components/moisture_loop/models.py:2142-2278 | migration succeeds if and only if contexts are known, distinct and consistent with their applied configuration, each record's faults and identity are representable and no runtime is negative; the result validates |
| `Migration.MigrationKeepsMeaning` | custom_components/moisture_loop/models.py:2142-2300 | every record, budget, anchor, switch and session is kept, possible flow is fenced, and an unconfigured record is a blocked tombstone |
| `Migration.MigratedDayIsValid` | custom_components/moisture_loop/models.py:2165-2187 | a migrated day is a valid daily record if and only if its runtime is not negative |
| `StoreCodec.SessionRoundTrip` | custom_components/moisture_loop/models.py:1159-1278 | parsing a printed session returns it with the live-only fields reset |
| `StoreCodec.SummaryRoundTrip` | custom_components/moisture_loop/models.py:1293-1358 | parsing a printed session summary returns it |
| `StoreCodec.ShadowRoundTrip` | custom_components/moisture_loop/models.py:2325-2334 | parsing a printed applied configuration, settings and identities included, returns it |
| `StoreCodec.HistoryRoundTrip` | custom_components/moisture_loop/models.py:2378-2423 | parsing a printed history returns it with its session stripped |
| `StoreCodec.RecordRoundTrip` | custom_components/moisture_loop/models.py:2424-2455 | parsing a printed record returns it |
| `StoreCodec.DocumentRoundTrip` | custom_components/moisture_loop/models.py:2494-2544 | strict parsing of a printed store returns the store with only the live-only session fields reset |
| `StoreCodec.PrintsStrippedDocument` | custom_components/moisture_loop/models.py:2366-2457 | printing the parsed store again gives the identical payload |
| `StoreCodec.AdoptedMeansDurable` | custom_components/moisture_loop/storage.py:722-758 | a write reads back if and only if what the disk holds parses to the document's projection, and an intact write always does |
| `RunProtocol.SafetyStore.SaveAndVerify` | custom_components/moisture_loop/storage.py:722-758 | a payload is adopted only if the disk holds it; a failed write changes nothing in memory |
| `RunProtocol.SafetyStore.BeginNewRun` | custom_components/moisture_loop/storage.py:328-346 | the previous ids are returned, the new one is written, and the clean marker is left alone |
| `RunProtocol.SafetyStore.MarkCleanShutdown` | custom_components/moisture_loop/storage.py:348-357 | the marker is the active id |
| `RunProtocol.SafetyStore.Update` | custom_components/moisture_loop/storage.py:359-430 | every other write keeps the run ids |
| `RunProtocol.CleanMeansLatestRunEndedClean` | custom_components/moisture_loop/models.py:1030-1042 | a start sees the previous run as clean only if the latest run that began issued its own marker, and always if that marker was verified |

## Left out

- Entities, buttons, switches, services, diagnostics, Repairs and the config flow: presentation.
- Home Assistant listeners, the scheduler behind the timers, service calls and file I/O: they are events, parameters or a read/write cell.
- The controller's background loop, `_perform_on`, `_await_off_within_budget`, `_await_slot` and the compensation of an ON that was overtaken: only their effects on zone and slots are steps.
- The persist-failure branch of the zone controller: `Restart` and `Garden` take Store writes of a zone as succeeding; failed writes are covered for blockers, for the verified write and for run ids.
- `_possible_flow_owner_for_persist` and the clean-run aggregation at shutdown: a trusted soak is assumed to come from a run without unconfirmed flow of its own.
- Observational detectors, enum property tables, diagnostic texts and the bounds of `ZoneConfig` beyond those the decisions rely on.
- Floating-point rounding, fingerprints, uuid derivation and ISO text: exact reals and integers, injective functions and one-to-one translations stand for them.
- The schema-2 to schema-3 upgrade, the domain prefix of an entity id, the wording of incident details, and the order of a record's blocker list, which is a set here and printed in one order.
- ZoneBudget.BudgetsHold: its hypothesis excludes the charges that `ZoneBudget.ChargesAgainExactly` characterizes, because they count a closed pulse twice.
- Garden.AtMostOneOpenPulse: starts from a garden in which whatever may still flow is fenced; the order of startup across zones is not modelled.
- Garden.RunKeepsInv: assumes that nobody but the zone takes down its fence; republishing the blockers (runtime.py, lines 989-1006) can, for a fence whose write is still suspended, and `GardenHazards.ForeignHandOnFence` says when that is safe. It also assumes that a waiting task that gives the slot back (zone_controller.py, lines 1742-1757) finds no open pulse; `GardenHazards.ReleaseWhileOpen` says when that can be dropped.
- Restart.ImageIsCurrent: a command anchor noted in memory may never be written when the ON is compensated; the image is then current up to that anchor.
- Planner.CommittedKeepsEvidence: does not state that a plan without trouble gives every configured zone an active record; the live synchronization checks that itself.
