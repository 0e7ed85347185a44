/**
 The vocabulary shared by every part of the irrigation controller: the enumerations,
 observations, configuration, sessions, events, actions and decisions.

 Instants and durations are whole microseconds (`Time`), the resolution of the source's
 own timestamps; moisture readings and thresholds are reals.
 */
module Vocabulary {

  type Time = int

  datatype Option<+T> = None | Some(value: T)

  /** What the source raises when an internal contract is broken. */
  datatype Failure =
    | MissingSession
    | MissingIdentity
    | MissingValue
    | MissingDeadline
    | MissingReason
    | UnknownRow
    | NotASensorFault
    | MissingRunId
    | ReusedContribution
    | ConflictingHistory
    | MissingRecord
    | MissingHistory
    | Unconstructible
    | InvalidStore
    | MalformedPayload
    | FutureSchema

  /** A decision, or the exception raised instead of one. */
  datatype Outcome<+T> = Ok(value: T) | Raise(error: Failure) {
    predicate IsFailure() {
      Raise?
    }

    function PropagateFailure<U>(): Outcome<U>
      requires Raise?
    {
      Raise(error)
    }

    function Extract(): T
      requires Ok?
    {
      value
    }
  }

  datatype State = Disabled | Idle | Watering | Soaking | Fault

  datatype Mode = Auto | Manual

  datatype Classification = Valid | Stale | Invalid | Unavailable

  datatype FaultCode =
    | SensorUnavailable
    | SensorStale
    | SensorInvalid
    | ActuatorUnavailable
    | ActuatorOnTimeout
    | ActuatorOffTimeout
    | ConfigurationInvalid
    | RestoredFromUnsafeState
  {
    predicate IsSensorOnly() {
      SensorUnavailable? || SensorStale? || SensorInvalid?
    }

    predicate AllowsManual() {
      IsSensorOnly()
    }

    predicate AutoClears() {
      IsSensorOnly() || ActuatorUnavailable? || ActuatorOnTimeout?
    }

    predicate RequiresUserAck() {
      ActuatorOffTimeout? || RestoredFromUnsafeState?
    }

    predicate RequiresReconfigure() {
      ConfigurationInvalid?
    }
  }

  datatype Reason =
    | TargetReached
    | ManualComplete
    | MaxCycles
    | MaxSessionRuntime
    | DailyRuntimeLimit
    | UserStop
    | ZoneDisabled
    | ExternalActuatorStateChange
    | ConfigReload
    | ConfigChanged
    | HomeAssistantShutdown
    | RestartRecovery
    | SensorFault
    | ActuatorFault

  datatype Estimation =
    | Measured
    | RestartFoundOn
    | RestartFoundOffUnknownStop
    | OffUnconfirmed

  datatype BlockerReason = ExternalFlow | IntegrationOffUnconfirmed | ActuatorNotProvenOff

  datatype ClampReason = ManualMaxDuration | SessionMaxRuntime | RemainingDailyBudget

  datatype Finding = FoundOn | FoundOff | Unproven

  datatype TimerKind = PulseEnd | ManualEnd | SoakEnd | Grace | OnConfirmDeadline

  datatype Observation = Observation(
    value: Option<real>,
    classification: Classification,
    reportedAt: Option<Time>)
  {
    /** Structural validity of an adapter observation that was not stamped after `now`. */
    predicate WellFormed(now: Time) {
      && (classification.Valid? || classification.Stale? ==> value.Some? && reportedAt.Some?)
      && (classification.Unavailable? ==> value.None?)
      && (reportedAt.Some? ==> reportedAt.value <= now)
    }

    /** Fresh means reported no earlier than `now - maxAge`; equality is fresh. */
    predicate IsFresh(now: Time, maxAge: Time) {
      reportedAt.Some? && reportedAt.value >= now - maxAge
    }
  }

  datatype Token = Token(generation: int, deadline: Time)

  datatype Config = Config(
    startThreshold: real,
    targetThreshold: real,
    pulse: Time,
    soak: Time,
    maxCycles: int,
    maxSession: Time,
    maxDaily: Time,
    minInterval: Time,
    maxAge: Time,
    confirmTimeout: Time,
    manualMax: Time)
  {
    /** The bounds every accepted zone configuration meets that the runtime relies on. */
    predicate Sound() {
      && startThreshold < targetThreshold
      && 0 < pulse <= maxSession
      && pulse <= maxDaily
      && 0 < soak
      && 1 <= maxCycles
      && 0 < minInterval
      && 0 < maxAge
      && 0 < confirmTimeout
      && 0 < manualMax
    }
  }

  datatype Identity = Identity(sessionId: string, ownerRunId: string, fingerprint: string)

  datatype Session = Session(
    id: string,
    ownerRunId: string,
    fingerprint: string,
    mode: Mode,
    startedAt: Time,
    cycle: int,
    runtime: Time,
    estimated: bool,
    estimation: Estimation,
    intentAt: Option<Time>,
    commandedAt: Option<Time>,
    confirmedAt: Option<Time>,
    endsAt: Option<Time>,
    freshUntil: Option<Time>,
    generation: int,
    offAt: Option<Time>,
    soakEnds: Option<Time>,
    recheckNotBefore: Option<Time>,
    graceDeadline: Option<Time>,
    requested: Option<Time>,
    effective: Option<Time>,
    clampReasons: seq<ClampReason>,
    moistureAtStart: Option<real>,
    lastRecheck: Option<real>,
    retained: Option<FaultCode>,
    pending: Option<Reason>)
  {
    /** Water may still be flowing from a pulse this session commanded. */
    predicate PulseOpen() {
      intentAt.Some? && offAt.None?
    }
  }

  /** What is kept of a session once it is closed. */
  datatype Summary = Summary(
    mode: Mode,
    reason: Reason,
    runtime: Time,
    estimated: bool,
    estimation: Estimation,
    requested: Option<Time>,
    effective: Option<Time>,
    clampReasons: seq<ClampReason>,
    cycles: int,
    moistureBefore: Option<real>,
    moistureAfter: Option<real>,
    startedAt: Time,
    endedAt: Time)

  /** The Store keeps neither freshness, generation, last recheck nor the committed reason. */
  function Stripped(s: Session): Session {
    s.(freshUntil := None, generation := 0, lastRecheck := None, pending := None)
  }

  /** A requested manual duration as it reaches the guards. */
  datatype ManualDuration = Finite(duration: Time) | NotFinite

  datatype Event =
    | AutoEvaluate
    | ManualStartRequested(request: ManualDuration)
    | StopRequested
    | DisableRequested
    | EnableRequested
    | ClearFaultRequested
    | PulseDeadlineReached
    | ManualDeadlineReached
    | SoakDeadlineReached
    | GraceDeadlineReached
    | WatchdogFired(token: Token)
    | MoistureReport(observation: Observation)
    | OnConfirmed(at: Time)
    | OnConfirmTimeout
    | OffConfirmed(at: Time)
    | OffNotConfirmed
    | ActuatorBecameUnavailable
    | ExternalActuatorOn
    | ExternalActuatorOff(at: Time)
    | ShutdownRequested
    | ConfigEntryReload
    | ConfigChangedPrepare
    | ConfigurationRejected(atSetup: bool)
    | StoreIntegrityLost
    | StartupPersistedWatering(finding: Finding)
    | StartupPersistedSoaking(trusted: bool, currentRunId: Option<string>, unsafeFault: Option<FaultCode>)
    | SlotGranted

  datatype Action =
    | PersistState
    | TurnOn
    | ExecuteOff(defensive: bool)
    | ArmTimer(kind: TimerKind, at: Time)
    | ArmWatchdog(token: Token)
    | RequestSlot
    | ReleaseSlot
    | AddBlocker(reason: BlockerReason)
    | RemoveBlocker(reason: BlockerReason)
    | SetExternalOn(value: bool)
    | EmitSessionStarted
    | EmitSessionFinished
    | EmitFaultSet(fault: FaultCode, superseded: Option<FaultCode>)
    | EmitFaultCleared(fault: FaultCode)
    | ScheduleEvaluation

  datatype Guard =
    | GuardEnabled
    | GuardFresh
    | GuardStart
    | GuardInterval
    | GuardActuator
    | GuardDailyFit
    | GuardSlot
    | GuardPost
    | GuardManualSensor
    | GuardInvalidDuration
    | GuardActiveSession
    | GuardDailyExhausted
    | GuardResourceOccupied
    | GuardRequiresReconfigure
    | GuardConditionUnresolved

  datatype Assessment = Assessment(available: bool, provenOff: bool, observedOn: bool)

  /** Everything one decision may look at. */
  datatype Input = Input(
    now: Time,
    config: Config,
    state: State,
    enabled: bool,
    session: Option<Session>,
    activeFault: Option<FaultCode>,
    secondaryFault: Option<FaultCode>,
    observation: Observation,
    dailyRuntime: Time,
    lastSessionEnd: Option<Time>,
    actuator: Assessment,
    slotGranted: bool,
    blockersEmpty: bool,
    armed: Option<Token>,
    event: Event,
    externalOn: bool,
    identity: Option<Identity>)

  /** The requested effects of one event. `row` is the number of the formal transition, if any. */
  datatype Decision = Decision(
    row: Option<nat>,
    newState: Option<State>,
    actions: seq<Action>,
    reason: Option<Reason>,
    fault: Option<FaultCode>,
    secondaryFault: Option<FaultCode>,
    clearFault: bool,
    session: Option<Session>,
    clearSession: bool,
    finalSession: Option<Session>,
    failedGuards: Option<seq<Guard>>,
    noOp: bool)
  {
    /** The checks the decision and guard-result constructors make. */
    predicate Constructible() {
      && (noOp ==> newState.None? && actions == [])
      && !(session.Some? && clearSession)
      && (finalSession.Some? ==> clearSession)
      && (failedGuards.Some? ==> failedGuards.value != [])
    }
  }

  const BLANK: Decision :=
    Decision(None, None, [], None, None, None, false, None, false, None, None, false)

  const NO_OP: Decision := BLANK.(noOp := true)

  function Max(a: Time, b: Time): Time {
    if a >= b then a else b
  }

  function Min(a: Time, b: Time): Time {
    if a <= b then a else b
  }
}
