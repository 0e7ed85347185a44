/**
 The pure transition function: one normalized event in, one decision out.

 A broken internal contract (a failed `assert`, a raised `ValueError`, a missing row in a
 lookup table) is a `Raise`, so that "the function never raises" is a statement to prove
 and not a modelling convention.
 */
module StateMachine {
  import opened Vocabulary

  // ----- guards -------------------------------------------------------------------------

  predicate FreshValid(inp: Input) {
    inp.observation.classification.Valid? && inp.observation.IsFresh(inp.now, inp.config.maxAge)
  }

  predicate IntervalElapsed(inp: Input) {
    inp.lastSessionEnd.Some? ==> inp.now - inp.lastSessionEnd.value >= inp.config.minInterval
  }

  predicate ActuatorReady(inp: Input) {
    inp.actuator.available && inp.actuator.provenOff
  }

  predicate DailyFits(inp: Input) {
    inp.dailyRuntime + inp.config.pulse <= inp.config.maxDaily
  }

  predicate SessionFits(inp: Input, s: Session) {
    s.runtime + inp.config.pulse <= inp.config.maxSession
  }

  function DailyRemaining(inp: Input): Time {
    inp.config.maxDaily - inp.dailyRuntime
  }

  /** Whether the current observation may decide a recheck. */
  function PostQualifies(inp: Input): Outcome<bool> {
    if inp.session.None? || inp.session.value.recheckNotBefore.None? then
      Ok(false)
    else if !FreshValid(inp) then
      Ok(false)
    else if inp.observation.reportedAt.None? then
      Raise(MissingValue)
    else
      Ok(inp.observation.reportedAt.value >= inp.session.value.recheckNotBefore.value)
  }

  // ----- entry point --------------------------------------------------------------------

  function Decide(inp: Input): Outcome<Decision> {
    if inp.event.StoreIntegrityLost? then
      Ok(IntegrityLost(inp))
    else if inp.event.ConfigurationRejected? && inp.event.atSetup then
      Ok(Misconfigured(inp, 53))
    else
      match inp.state
      case Idle => DecideIdle(inp)
      case Disabled => DecideDisabled(inp)
      case Watering => DecideWatering(inp)
      case Soaking => DecideSoaking(inp)
      case Fault => DecideFault(inp)
  }

  function IntegrityLost(inp: Input): Decision {
    BLANK.(
    row := Some(52),
    newState := Some(Fault),
    actions := [PersistState, EmitFaultSet(RestoredFromUnsafeState, inp.activeFault)],
    fault := Some(RestoredFromUnsafeState))
  }

  function Misconfigured(inp: Input, row: nat): Decision {
    BLANK.(
    row := Some(row),
    newState := Some(Fault),
    actions := [PersistState, EmitFaultSet(ConfigurationInvalid, inp.activeFault)],
    fault := Some(ConfigurationInvalid))
  }

  // ----- IDLE ---------------------------------------------------------------------------

  function DecideIdle(inp: Input): Outcome<Decision> {
    match inp.event
    case AutoEvaluate => EvaluateAutoStart(inp)
    case MoistureReport(_) => EvaluateAutoStart(inp)
    case SlotGranted => EvaluateAutoStart(inp)
    case ManualStartRequested(request) => ManualStart(inp, request, 3)
    case DisableRequested =>
      Ok(BLANK.(row := Some(4), newState := Some(Disabled), actions := [PersistState, ReleaseSlot]))
    case ConfigurationRejected(_) => Ok(Misconfigured(inp, 5))
    case ExternalActuatorOn =>
      if inp.externalOn then Ok(NO_OP)
      else Ok(BLANK.(row := Some(54), newState := Some(Idle),
              actions := [SetExternalOn(true), AddBlocker(ExternalFlow)]))
    case ExternalActuatorOff(_) =>
      if !inp.externalOn then Ok(NO_OP)
      else Ok(BLANK.(row := Some(58), newState := Some(Idle),
              actions := [SetExternalOn(false), RemoveBlocker(ExternalFlow)]))
    case _ => Ok(NO_OP)
  }

  /** Every automatic-start guard that fails, in the order the source records them. */
  function AutoGuardFailures(inp: Input): Outcome<seq<Guard>> {
    var enabled := if inp.enabled then [] else [GuardEnabled];
    var sensor :-
      if !FreshValid(inp) then Ok([GuardFresh])
      else if inp.observation.value.None? then Raise(MissingValue)
      else if inp.observation.value.value < inp.config.startThreshold then Ok([])
      else Ok([GuardStart]);
    var interval := if IntervalElapsed(inp) then [] else [GuardInterval];
    var actuator := if ActuatorReady(inp) then [] else [GuardActuator];
    var daily := if DailyFits(inp) then [] else [GuardDailyFit];
    Ok(enabled + sensor + interval + actuator + daily)
  }

  function EvaluateAutoStart(inp: Input): Outcome<Decision> {
    var failed :- AutoGuardFailures(inp);
    if failed != [] then
      Ok(BLANK.(row := Some(2), newState := Some(Idle),
         actions := if inp.event.SlotGranted? then [ReleaseSlot] else [],
         failedGuards := Some(failed)))
    else if !(inp.slotGranted && inp.blockersEmpty) then
      Ok(BLANK.(actions := [RequestSlot], failedGuards := Some([GuardSlot])))
    else
      StartAutoPulse(inp, None)
  }

  function FreshSession(inp: Input, identity: Identity, mode: Mode, cycle: int): Session {
    Session(
      identity.sessionId, identity.ownerRunId, identity.fingerprint, mode, inp.now, cycle,
      0, false, Measured, Some(inp.now), None, None, None, None, 0, None, None, None, None,
      None, None, [], None, None, None, None)
  }

  /** A first pulse opens a session; a later pulse of the same session clears the soak. */
  function StartAutoPulse(inp: Input, continued: Option<Session>): Outcome<Decision> {
    if inp.observation.reportedAt.None? then
      Raise(MissingValue)
    else if continued.None? && inp.identity.None? then
      Raise(MissingIdentity)
    else
      var freshUntil := inp.observation.reportedAt.value + inp.config.maxAge;
      var generation := if continued.None? then 1 else continued.value.generation + 1;
      var session :=
        match continued
        case None =>
          FreshSession(inp, inp.identity.value, Auto, 1)
            .(freshUntil := Some(freshUntil), generation := generation,
          moistureAtStart := inp.observation.value)
        case Some(s) =>
          s.(cycle := s.cycle + 1, intentAt := Some(inp.now), commandedAt := None,
          confirmedAt := None, endsAt := None, offAt := None, soakEnds := None,
          recheckNotBefore := None, graceDeadline := None,
          freshUntil := Some(freshUntil), generation := generation);
      Ok(BLANK.(
         row := Some(if continued.None? then 1 else 25),
         newState := Some(Watering),
         actions := [PersistState, ArmWatchdog(Token(generation, freshUntil)), TurnOn,
                     ArmTimer(OnConfirmDeadline, inp.now + inp.config.confirmTimeout)]
                    + (if continued.None? then [EmitSessionStarted] else []),
         session := Some(session)))
  }

  // ----- manual watering ----------------------------------------------------------------

  function ManualGuardFailures(inp: Input, request: ManualDuration): seq<Guard> {
    (if request.Finite? && request.duration > 0 then [] else [GuardInvalidDuration])
    + (if inp.enabled then [] else [GuardEnabled])
    + (if inp.session.None? then [] else [GuardActiveSession])
    + (if inp.activeFault.Some? && !inp.activeFault.value.AllowsManual() then [GuardManualSensor] else [])
    + (if ActuatorReady(inp) then [] else [GuardActuator])
    + (if DailyRemaining(inp) <= 0 then [GuardDailyExhausted] else [])
    + (if inp.blockersEmpty then [] else [GuardResourceOccupied])
  }

  function ClampManual(inp: Input, requested: Time): (Time, seq<ClampReason>) {
    (Min(requested, Min(inp.config.manualMax, Min(inp.config.maxSession, DailyRemaining(inp)))),
     (if inp.config.manualMax < requested then [ManualMaxDuration] else [])
     + (if inp.config.maxSession < requested then [SessionMaxRuntime] else [])
     + (if DailyRemaining(inp) < requested then [RemainingDailyBudget] else []))
  }

  function ManualStart(inp: Input, request: ManualDuration, row: nat): Outcome<Decision> {
    var failed := ManualGuardFailures(inp, request);
    if failed != [] then
      Ok(BLANK.(row := if row == 40 then Some(41) else None, newState := Some(inp.state),
         failedGuards := Some(failed)))
    else if !inp.slotGranted then
      Ok(BLANK.(actions := [RequestSlot], failedGuards := Some([GuardSlot])))
    else if inp.identity.None? then
      Raise(MissingIdentity)
    else
      var clamped := ClampManual(inp, request.duration);
      var retained := if row == 40 then inp.activeFault else None;
      if retained.Some? && !retained.value.IsSensorOnly() then
        Raise(NotASensorFault)
      else
        var session :=
          FreshSession(inp, inp.identity.value, Manual, 0)
            .(requested := Some(request.duration), effective := Some(clamped.0),
          clampReasons := clamped.1, retained := retained,
          moistureAtStart := if inp.observation.classification.Valid? then inp.observation.value else None);
        Ok(BLANK.(
           row := Some(row),
           newState := Some(Watering),
           actions := [PersistState, TurnOn,
                       ArmTimer(OnConfirmDeadline, inp.now + inp.config.confirmTimeout),
                       EmitSessionStarted],
           session := Some(session)))
  }

  // ----- DISABLED -----------------------------------------------------------------------

  function DecideDisabled(inp: Input): Outcome<Decision> {
    match inp.event
    case EnableRequested =>
      if inp.activeFault.Some? then
        Ok(BLANK.(row := Some(46), newState := Some(Fault), actions := [PersistState],
           fault := inp.activeFault))
      else
        Ok(BLANK.(row := Some(47), newState := Some(Idle), actions := [PersistState, ScheduleEvaluation]))
    case ExternalActuatorOn =>
      if inp.externalOn then Ok(NO_OP)
      else Ok(BLANK.(row := Some(55), newState := Some(Disabled),
              actions := [SetExternalOn(true), AddBlocker(ExternalFlow)]))
    case ExternalActuatorOff(at) =>
      if inp.externalOn then
        Ok(BLANK.(row := Some(59), newState := Some(Disabled),
           actions := [SetExternalOn(false), RemoveBlocker(ExternalFlow)]))
      else if inp.session.Some? then CloseOpenAccounting(inp, at)
      else Ok(NO_OP)
    case OffConfirmed(at) =>
      if inp.session.Some? then CloseOpenAccounting(inp, at) else Ok(NO_OP)
    case ManualStartRequested(_) => Ok(BLANK.(failedGuards := Some([GuardEnabled])))
    case _ => Ok(NO_OP)
  }

  // ----- WATERING -----------------------------------------------------------------------

  function DecideWatering(inp: Input): Outcome<Decision> {
    if inp.session.None? then
      Raise(MissingSession)
    else
      var s := inp.session.value;
      match inp.event
      case OnConfirmed(at) => OnConfirmation(inp, s, at)
      case OnConfirmTimeout =>
        Ok(if s.pending.Some? || s.confirmedAt.Some? then NO_OP
           else CommitTermination(s, ActuatorFault, Some(ActuatorOnTimeout), true))
      case PulseDeadlineReached =>
        Ok(if s.mode.Auto? && s.pending.None? then BLANK.(actions := [ExecuteOff(false)]) else NO_OP)
      case ManualDeadlineReached =>
        Ok(if s.mode.Manual? && s.pending.None? then CommitTermination(s, ManualComplete, None, false)
           else NO_OP)
      case MoistureReport(observation) => WateringMoisture(inp, s, observation)
      case WatchdogFired(token) => WatchdogCallback(inp, s, token)
      case StopRequested => Ok(CommitFirst(s, UserStop))
      case DisableRequested => Ok(CommitFirst(s, ZoneDisabled))
      case ShutdownRequested => Ok(CommitFirst(s, HomeAssistantShutdown))
      case ConfigEntryReload => Ok(CommitFirst(s, ConfigReload))
      case ConfigChangedPrepare => Ok(CommitFirst(s, ConfigChanged))
      case ActuatorBecameUnavailable =>
        Ok(if s.pending.Some? then NO_OP
           else CommitTermination(s, ActuatorFault, Some(ActuatorUnavailable), true))
      case ExternalActuatorOff(at) =>
        if s.pending.Some? then FinalizeWatering(inp, s, s.pending.value, at, [])
        else FinalizeWatering(inp, s, ExternalActuatorStateChange, at, [ExecuteOff(true)])
      case OffConfirmed(at) =>
        if s.pending.Some? then FinalizeWatering(inp, s, s.pending.value, at, [])
        else if s.mode.Auto? then Ok(PulseOffToSoaking(inp, s, at))
        else FinalizeWatering(inp, s, ManualComplete, at, [])
      case OffNotConfirmed => Ok(OffExhausted(inp, s))
      case StartupPersistedWatering(finding) => StartupWatering(inp, s, finding)
      case ManualStartRequested(_) => Ok(BLANK.(failedGuards := Some([GuardActiveSession])))
      case _ => Ok(NO_OP)
  }

  function OnConfirmation(inp: Input, s: Session, at: Time): Outcome<Decision> {
    if s.mode.Manual? && s.effective.None? then
      Raise(MissingValue)
    else
      var ends := at + if s.mode.Auto? then inp.config.pulse else s.effective.value;
      var timer := if s.mode.Auto? then PulseEnd else ManualEnd;
      Ok(BLANK.(
         actions := [PersistState] + if s.pending.None? then [ArmTimer(timer, ends)] else [],
         session := Some(s.(confirmedAt := Some(at), endsAt := Some(ends)))))
  }

  function WateringMoisture(inp: Input, s: Session, obs: Observation): Outcome<Decision> {
    if s.mode.Manual? then
      Ok(BLANK.(row := Some(12), newState := Some(Watering)))
    else if s.pending.Some? then
      Ok(NO_OP)
    else
      match obs.classification
      case Valid =>
        if obs.reportedAt.None? then Raise(MissingValue)
        else
          var deadline := obs.reportedAt.value + inp.config.maxAge;
          if s.freshUntil.Some? && deadline < s.freshUntil.value then Ok(NO_OP)
          else
            var generation := s.generation + 1;
            Ok(BLANK.(
               row := Some(56),
               newState := Some(Watering),
               actions := [ArmWatchdog(Token(generation, deadline))],
               session := Some(s.(freshUntil := Some(deadline), generation := generation))))
      case Invalid => Ok(CommitTermination(s, SensorFault, Some(SensorInvalid), false))
      case Unavailable => Ok(CommitTermination(s, SensorFault, Some(SensorUnavailable), false))
      case Stale => Ok(NO_OP)
  }

  function WatchdogCallback(inp: Input, s: Session, token: Token): Outcome<Decision> {
    if !s.mode.Auto? || s.pending.Some? then
      Ok(NO_OP)
    else if inp.armed != Some(token) then
      Ok(NO_OP)
    else if s.freshUntil.None? then
      Raise(MissingDeadline)
    else if s.freshUntil.value > inp.now then
      Ok(BLANK.(actions := [ArmWatchdog(Token(s.generation, s.freshUntil.value))]))
    else
      Ok(CommitTermination(s, SensorFault, Some(SensorStale), false))
  }

  /** Commit the first terminal request and ask for the one OFF operation. */
  function CommitTermination(s: Session, reason: Reason, fault: Option<FaultCode>, defensive: bool): Decision {
    BLANK.(
    actions := [PersistState]
               + (if fault.Some? then [EmitFaultSet(fault.value, s.retained)] else [])
               + [ExecuteOff(defensive)],
    fault := fault,
    session := Some(s.(pending := Some(reason))))
  }

  function CommitFirst(s: Session, reason: Reason): Decision {
    if s.pending.Some? then NO_OP else CommitTermination(s, reason, None, false)
  }

  /** The seconds a closing OFF adds to the session. */
  function ClosingCharge(s: Session, offAt: Time, reason: Reason): Time {
    var anchor := if reason.RestartRecovery? then s.intentAt else s.commandedAt;
    if anchor.None? then 0 else Max(0, offAt - anchor.value)
  }

  function CloseRuntime(s: Session, offAt: Time, reason: Reason): Session {
    s.(offAt := Some(offAt), runtime := s.runtime + ClosingCharge(s, offAt, reason))
  }

  function PulseOffToSoaking(inp: Input, s: Session, offAt: Time): Decision {
    var soakEnds := offAt + inp.config.soak;
    var grace := soakEnds + inp.config.maxAge;
    BLANK.(
    row := Some(6),
    newState := Some(Soaking),
    actions := [PersistState, ArmTimer(SoakEnd, soakEnds), ReleaseSlot],
    session := Some(CloseRuntime(s, offAt, TargetReached)
                      .(soakEnds := Some(soakEnds), recheckNotBefore := Some(soakEnds),
                    graceDeadline := Some(grace))))
  }

  function SensorFaultRow(fault: FaultCode): Outcome<nat> {
    match fault
    case SensorUnavailable => Ok(10)
    case SensorInvalid => Ok(11)
    case SensorStale => Ok(57)
    case _ => Raise(UnknownRow)
  }

  function CancellationRow(reason: Reason): Outcome<nat> {
    match reason
    case UserStop => Ok(17)
    case ZoneDisabled => Ok(18)
    case HomeAssistantShutdown => Ok(19)
    case ConfigReload => Ok(20)
    case ConfigChanged => Ok(21)
    case ExternalActuatorStateChange => Ok(16)
    case _ => Raise(UnknownRow)
  }

  function FinalizeRow(inp: Input, reason: Reason): Outcome<nat> {
    match reason
    case RestartRecovery => Ok(48)
    case SensorFault => if inp.activeFault.None? then Raise(MissingValue) else SensorFaultRow(inp.activeFault.value)
    case ActuatorFault => Ok(if inp.activeFault == Some(ActuatorUnavailable) then 13 else 14)
    case _ => CancellationRow(reason)
  }

  datatype Destination = Destination(
    state: State, fault: Option<FaultCode>, actions: seq<Action>, clearFault: bool)

  function PostDestination(inp: Input, closed: Session, reason: Reason): Destination {
    if reason.ZoneDisabled? then
      Destination(Disabled, None, [], false)
    else if reason.SensorFault? || reason.ActuatorFault? then
      Destination(if inp.enabled then Fault else Disabled, inp.activeFault, [], false)
    else if !inp.enabled then
      Destination(Disabled, None, [], false)
    else if inp.activeFault.Some? && inp.activeFault != closed.retained then
      Destination(Fault, inp.activeFault, [], false)
    else if closed.retained.Some? then
      if FreshValid(inp) then Destination(Idle, None, [EmitFaultCleared(closed.retained.value)], true)
      else Destination(Fault, closed.retained, [], false)
    else
      Destination(Idle, None, [], false)
  }

  function FinalizeWatering(inp: Input, s: Session, reason: Reason, offAt: Time, extra: seq<Action>): Outcome<Decision> {
    var closed := CloseRuntime(s, offAt, reason);
    if reason.ManualComplete? then
      Ok(FinalizeManualComplete(inp, closed, extra))
    else
      var row :- FinalizeRow(inp, reason);
      var destination := PostDestination(inp, closed, reason);
      Ok(BLANK.(
         row := Some(row),
         newState := Some(destination.state),
         actions := extra
                    + [PersistState, RemoveBlocker(IntegrationOffUnconfirmed), ReleaseSlot, EmitSessionFinished]
                    + destination.actions,
         reason := Some(reason),
         fault := destination.fault,
         secondaryFault := if reason.ActuatorFault? then closed.retained else None,
         clearFault := destination.clearFault,
         clearSession := true,
         finalSession := Some(closed)))
  }

  function FinalizeManualComplete(inp: Input, closed: Session, extra: seq<Action>): Decision {
    var recovered := closed.retained.Some? && FreshValid(inp);
    var row := if closed.retained.None? then 7 else if recovered then 9 else 8;
    var destination := if row == 8 then Fault else Idle;
    BLANK.(
    row := Some(row),
    newState := Some(if inp.enabled then destination else Disabled),
    actions := extra
               + [PersistState, RemoveBlocker(IntegrationOffUnconfirmed), ReleaseSlot, EmitSessionFinished]
               + (if recovered then [EmitFaultCleared(closed.retained.value)] else []),
    reason := Some(ManualComplete),
    fault := if row == 8 then closed.retained else None,
    clearFault := recovered,
    clearSession := true,
    finalSession := Some(closed))
  }

  /** OFF stayed unproven: the fault supersedes, the accounting stays open. */
  function OffExhausted(inp: Input, s: Session): Decision {
    var restart := s.pending == Some(RestartRecovery);
    var committed := if restart then RestartRecovery else ActuatorFault;
    BLANK.(
    row := Some(if restart then 49 else 15),
    newState := Some(Fault),
    actions := [PersistState, AddBlocker(IntegrationOffUnconfirmed),
                EmitFaultSet(ActuatorOffTimeout, inp.activeFault)],
    reason := Some(committed),
    fault := Some(ActuatorOffTimeout),
    secondaryFault := s.retained,
    session := Some(s.(pending := Some(committed), estimated := true, estimation := OffUnconfirmed)))
  }

  function StartupWatering(inp: Input, s: Session, finding: Finding): Outcome<Decision> {
    var estimation :=
      match finding
      case FoundOff => RestartFoundOffUnknownStop
      case FoundOn => RestartFoundOn
      case Unproven => OffUnconfirmed;
    var recovering := s.(pending := Some(RestartRecovery), estimated := true, estimation := estimation);
    if finding.FoundOff? then
      FinalizeWatering(inp, recovering, RestartRecovery, inp.now, [])
    else
      Ok(BLANK.(
         actions := [PersistState, AddBlocker(IntegrationOffUnconfirmed), ExecuteOff(true)],
         session := Some(recovering)))
  }

  // ----- SOAKING ------------------------------------------------------------------------

  function DecideSoaking(inp: Input): Outcome<Decision> {
    if inp.session.None? then
      Raise(MissingSession)
    else
      var s := inp.session.value;
      if s.pending.Some? then
        match inp.event
        case OffConfirmed(at) => Ok(FinalizeSoakingExternal(inp, s, at))
        case ExternalActuatorOff(at) => Ok(FinalizeSoakingExternal(inp, s, at))
        case OffNotConfirmed => Ok(SoakingOffExhausted(inp, s))
        case _ => Ok(NO_OP)
      else
        match inp.event
        case MoistureReport(observation) => SoakingMoisture(inp, s, observation)
        case SoakDeadlineReached => SoakingEvaluate(inp, s)
        case AutoEvaluate => SoakingEvaluate(inp, s)
        case SlotGranted => SoakingEvaluate(inp, s)
        case GraceDeadlineReached => SoakingGrace(inp, s)
        case ActuatorBecameUnavailable =>
          Ok(FinalizeSoakingFault(s, 32, ActuatorFault, ActuatorUnavailable))
        case ExternalActuatorOn =>
          Ok(BLANK.(
             actions := [PersistState, AddBlocker(IntegrationOffUnconfirmed), ExecuteOff(true)],
             session := Some(s.(pending := Some(ExternalActuatorStateChange), lastRecheck := None))))
        case StopRequested => Ok(FinalizeSoakingCancel(s, 35, UserStop, Idle))
        case DisableRequested => Ok(FinalizeSoakingCancel(s, 36, ZoneDisabled, Disabled))
        case ShutdownRequested =>
          Ok(BLANK.(row := Some(37), newState := Some(Soaking), actions := [PersistState]))
        case ConfigEntryReload => Ok(FinalizeSoakingCancel(s, 38, ConfigReload, Idle))
        case ConfigChangedPrepare => Ok(FinalizeSoakingCancel(s, 39, ConfigChanged, Idle))
        case StartupPersistedSoaking(trusted, runId, unsafeFault) =>
          StartupSoaking(inp, s, trusted, runId, unsafeFault)
        case ManualStartRequested(_) => Ok(BLANK.(failedGuards := Some([GuardActiveSession])))
        case _ => Ok(NO_OP)
  }

  function EffectiveAt(inp: Input, obs: Observation): Time {
    if obs.reportedAt.Some? then obs.reportedAt.value else inp.now
  }

  function SoakingMoisture(inp: Input, s: Session, obs: Observation): Outcome<Decision> {
    if s.soakEnds.None? then
      Raise(MissingDeadline)
    else if EffectiveAt(inp, obs) < s.soakEnds.value then
      Ok(BLANK.(row := Some(22), newState := Some(Soaking)))
    else if obs.classification.Invalid? then
      Ok(FinalizeSoakingFault(s, 29, SensorFault, SensorInvalid))
    else if obs.classification.Unavailable? then
      Ok(FinalizeSoakingFault(s, 30, SensorFault, SensorUnavailable))
    else
      var qualifies :- PostQualifies(inp);
      if qualifies then SoakingRecheck(inp, s) else Ok(NO_OP)
  }

  function SoakingEvaluate(inp: Input, s: Session): Outcome<Decision> {
    if s.soakEnds.None? then
      Raise(MissingDeadline)
    else if inp.now < s.soakEnds.value then
      Ok(NO_OP)
    else
      var qualifies :- PostQualifies(inp);
      if qualifies then
        SoakingRecheck(inp, s)
      else if inp.event.SlotGranted? then
        Ok(BLANK.(actions := [ReleaseSlot], failedGuards := Some([GuardPost])))
      else if inp.event.SoakDeadlineReached? then
        if s.graceDeadline.None? then Raise(MissingDeadline)
        else Ok(BLANK.(row := Some(23), newState := Some(Soaking),
                actions := [ArmTimer(Grace, s.graceDeadline.value)]))
      else
        Ok(NO_OP)
  }

  function SoakingGrace(inp: Input, s: Session): Outcome<Decision> {
    var qualifies :- PostQualifies(inp);
    if qualifies then
      SoakingRecheck(inp, s)
    else if s.soakEnds.None? then
      Raise(MissingDeadline)
    else if inp.observation.classification.Invalid? && EffectiveAt(inp, inp.observation) >= s.soakEnds.value then
      Ok(FinalizeSoakingFault(s, 29, SensorFault, SensorInvalid))
    else if inp.observation.classification.Unavailable? then
      Ok(FinalizeSoakingFault(s, 30, SensorFault, SensorUnavailable))
    else
      Ok(FinalizeSoakingFault(s, 31, SensorFault, SensorStale))
  }

  function SoakingRecheck(inp: Input, s: Session): Outcome<Decision> {
    if inp.observation.value.None? then
      Raise(MissingValue)
    else
      var value := inp.observation.value.value;
      var updated := s.(lastRecheck := Some(value));
      if value >= inp.config.targetThreshold then
        Ok(FinalizeSoakingCompletion(inp, updated, 24, TargetReached))
      else if !(updated.cycle < inp.config.maxCycles) then
        Ok(FinalizeSoakingCompletion(inp, updated, 26, MaxCycles))
      else if !SessionFits(inp, updated) then
        Ok(FinalizeSoakingCompletion(inp, updated, 27, MaxSessionRuntime))
      else if !DailyFits(inp) then
        Ok(FinalizeSoakingCompletion(inp, updated, 28, DailyRuntimeLimit))
      else if !inp.actuator.available then
        Ok(FinalizeSoakingFault(updated, 32, ActuatorFault, ActuatorUnavailable))
      else if !(inp.slotGranted && inp.blockersEmpty && inp.actuator.provenOff) then
        Ok(BLANK.(actions := [RequestSlot], failedGuards := Some([GuardSlot]), session := Some(updated)))
      else
        StartAutoPulse(inp, Some(updated))
  }

  function FinalizeSoakingCompletion(inp: Input, s: Session, row: nat, reason: Reason): Decision {
    BLANK.(
    row := Some(row),
    newState := Some(if inp.enabled then Idle else Disabled),
    actions := [PersistState, ReleaseSlot, EmitSessionFinished],
    reason := Some(reason),
    clearSession := true,
    finalSession := Some(s))
  }

  function FinalizeSoakingFault(s: Session, row: nat, reason: Reason, fault: FaultCode): Decision {
    BLANK.(
    row := Some(row),
    newState := Some(Fault),
    actions := [PersistState, EmitFaultSet(fault, s.retained), ReleaseSlot, EmitSessionFinished],
    reason := Some(reason),
    fault := Some(fault),
    clearSession := true,
    finalSession := Some(s))
  }

  function FinalizeSoakingCancel(s: Session, row: nat, reason: Reason, destination: State): Decision {
    BLANK.(
    row := Some(row),
    newState := Some(destination),
    actions := [PersistState, ExecuteOff(true), ReleaseSlot, EmitSessionFinished],
    reason := Some(reason),
    clearSession := true,
    finalSession := Some(s))
  }

  function FinalizeSoakingExternal(inp: Input, s: Session, offAt: Time): Decision {
    BLANK.(
    row := Some(33),
    newState := Some(if inp.enabled then Idle else Disabled),
    actions := [PersistState, RemoveBlocker(IntegrationOffUnconfirmed), ReleaseSlot, EmitSessionFinished],
    reason := Some(ExternalActuatorStateChange),
    clearSession := true,
    finalSession := Some(CloseRuntime(s, offAt, ExternalActuatorStateChange)))
  }

  function SoakingOffExhausted(inp: Input, s: Session): Decision {
    BLANK.(
    row := Some(34),
    newState := Some(Fault),
    actions := [PersistState, EmitFaultSet(ActuatorOffTimeout, inp.activeFault)],
    reason := Some(ActuatorFault),
    fault := Some(ActuatorOffTimeout),
    secondaryFault := s.retained,
    session := Some(s.(pending := Some(ActuatorFault), estimated := true, estimation := OffUnconfirmed)))
  }

  function StartupSoaking(
    inp: Input, s: Session, trusted: bool, runId: Option<string>, unsafeFault: Option<FaultCode>): Outcome<Decision>
  {
    if trusted then
      if runId.None? then Raise(MissingRunId)
      else if s.soakEnds.None? || s.graceDeadline.None? then Raise(MissingDeadline)
      else
        var timers :=
          if s.soakEnds.value > inp.now then [ArmTimer(SoakEnd, s.soakEnds.value)]
          else if s.graceDeadline.value > inp.now then [ArmTimer(Grace, s.graceDeadline.value)]
          else [];
        Ok(BLANK.(row := Some(50), newState := Some(Soaking), actions := [PersistState] + timers,
           session := Some(s.(ownerRunId := runId.value))))
    else if unsafeFault.Some? then
      Ok(BLANK.(
         row := Some(51),
         newState := Some(Fault),
         actions := [PersistState, EmitFaultSet(unsafeFault.value, inp.activeFault), EmitSessionFinished],
         reason := Some(RestartRecovery),
         fault := unsafeFault,
         clearSession := true,
         finalSession := Some(s)))
    else
      Ok(BLANK.(
         row := Some(51),
         newState := Some(if inp.enabled then Idle else Disabled),
         actions := [PersistState, EmitSessionFinished],
         reason := Some(RestartRecovery),
         clearSession := true,
         finalSession := Some(s)))
  }

  // ----- FAULT --------------------------------------------------------------------------

  function DecideFault(inp: Input): Outcome<Decision> {
    match inp.event
    case ManualStartRequested(request) => ManualStart(inp, request, 40)
    case MoistureReport(_) => Ok(FaultAutoClear(inp))
    case ExternalActuatorOff(at) =>
      if inp.session.Some? then CloseOpenAccounting(inp, at)
      else if inp.externalOn then
        Ok(BLANK.(actions := [SetExternalOn(false), RemoveBlocker(ExternalFlow)]))
      else Ok(FaultAutoClear(inp))
    case OffConfirmed(at) =>
      if inp.session.Some? then CloseOpenAccounting(inp, at) else Ok(NO_OP)
    case ExternalActuatorOn =>
      if inp.externalOn then Ok(NO_OP)
      else Ok(BLANK.(actions := [SetExternalOn(true), AddBlocker(ExternalFlow)]))
    case ClearFaultRequested => Ok(ClearFault(inp))
    case DisableRequested =>
      Ok(BLANK.(row := Some(45), newState := Some(Disabled), actions := [PersistState, ReleaseSlot]))
    case ConfigurationRejected(_) =>
      Ok(if inp.activeFault == Some(ConfigurationInvalid) then NO_OP else Misconfigured(inp, 5))
    case _ => Ok(NO_OP)
  }

  /** The evidence a latched fault needs before it may clear. */
  predicate ConditionResolved(inp: Input, fault: FaultCode) {
    if fault.IsSensorOnly() then FreshValid(inp) else ActuatorReady(inp)
  }

  function ClearedFault(row: nat, fault: FaultCode): Decision {
    BLANK.(row := Some(row), newState := Some(Idle), actions := [PersistState, EmitFaultCleared(fault)],
    clearFault := true)
  }

  function FaultAutoClear(inp: Input): Decision {
    if inp.activeFault.None? || !inp.activeFault.value.AutoClears() || inp.session.Some? then NO_OP
    else if !ConditionResolved(inp, inp.activeFault.value) then NO_OP
    else ClearedFault(42, inp.activeFault.value)
  }

  function ClearFault(inp: Input): Decision {
    if inp.activeFault.None? then NO_OP
    else if inp.activeFault.value.RequiresReconfigure() then
      BLANK.(row := Some(44), newState := Some(Fault), failedGuards := Some([GuardRequiresReconfigure]))
    else if !ConditionResolved(inp, inp.activeFault.value) then
      BLANK.(row := Some(44), newState := Some(Fault), failedGuards := Some([GuardConditionUnresolved]))
    else ClearedFault(43, inp.activeFault.value)
  }

  // ----- delayed OFF proof --------------------------------------------------------------

  function CloseOpenAccounting(inp: Input, offAt: Time): Outcome<Decision> {
    if inp.session.None? then
      Raise(MissingSession)
    else if inp.session.value.pending.None? then
      Raise(MissingReason)
    else
      var reason := inp.session.value.pending.value;
      Ok(BLANK.(
         actions := [PersistState, RemoveBlocker(IntegrationOffUnconfirmed), ReleaseSlot, EmitSessionFinished],
         reason := Some(reason),
         clearSession := true,
         finalSession := Some(CloseRuntime(inp.session.value, offAt, reason))))
  }
}
