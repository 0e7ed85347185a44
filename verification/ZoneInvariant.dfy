/**
 What every event keeps true of a zone, and why the transition function never raises.

 Several branches of the state machine rely on facts they do not test. The invariant here
 collects those facts; one lemma per handler shows that the handler answers and keeps them.
 */
module ZoneInvariant {
  import opened Vocabulary
  import opened StateMachine

  /** The part of a zone the invariant is about. */
  datatype Core = Core(state: State, enabled: bool, session: Option<Session>, activeFault: Option<FaultCode>)

  /** The zone an event meets. The switch has already flipped when its own event is decided. */
  function CoreOf(inp: Input): Core {
    Core(inp.state, inp.enabled || inp.event.DisableRequested?, inp.session, inp.activeFault)
  }

  function CoreAfter(inp: Input, d: Decision): Core {
    Core(
      if d.newState.Some? then d.newState.value else inp.state,
      inp.enabled,
      if d.clearSession then None else if d.session.Some? then d.session else inp.session,
      if d.clearFault then None else if d.fault.Some? then d.fault else inp.activeFault)
  }

  // ----- the environment ----------------------------------------------------------------------

  /** A fault acknowledgement that the state machine accepts although accounting is open. */
  predicate AckWithOpenAccounting(inp: Input) {
    && inp.state.Fault? && inp.event.ClearFaultRequested?
    && inp.session.Some?
    && inp.activeFault.Some? && !inp.activeFault.value.RequiresReconfigure()
    && ConditionResolved(inp, inp.activeFault.value)
  }

  /** Reports and OFF evidence are not stamped in the future. */
  predicate Timely(inp: Input) {
    && inp.observation.WellFormed(inp.now)
    && (inp.event.MoistureReport? ==> inp.event.observation == inp.observation)
    && (inp.event.OnConfirmed? || inp.event.OffConfirmed? || inp.event.ExternalActuatorOff? ==> inp.event.at <= inp.now)
  }

  predicate SetupOnly(event: Event) {
    event.StoreIntegrityLost? || (event.ConfigurationRejected? && event.atSetup)
  }

  predicate StartupOnly(event: Event) {
    event.StartupPersistedWatering? || event.StartupPersistedSoaking?
  }

  /** What the adapters and the runtime promise about a dispatched event. */
  predicate Promised(inp: Input) {
    && Timely(inp)
    && (SetupOnly(inp.event) ==> inp.session.None?)
    && !StartupOnly(inp.event)
  }

  /** An event as the promises and the controller present it. */
  predicate Ordinary(inp: Input) {
    && inp.config.Sound()
    && Promised(inp)
    && inp.identity.Some?
    && 0 <= inp.dailyRuntime
  }

  // ----- the invariant ------------------------------------------------------------------------

  predicate SessionSound(cfg: Config, s: Session) {
    && s.intentAt.Some?
    && 0 <= s.runtime && 0 <= s.generation
    && (s.retained.Some? ==> s.retained.value.IsSensorOnly())
    && (s.mode.Auto? ==> 1 <= s.cycle <= cfg.maxCycles && s.retained.None?)
    && (s.mode.Manual? ==> s.cycle == 0 && s.effective.Some?)
  }

  predicate WateringReason(r: Reason) {
    r.ManualComplete? || r.UserStop? || r.ZoneDisabled? || r.HomeAssistantShutdown? || r.ConfigReload?
    || r.ConfigChanged? || r.RestartRecovery? || r.SensorFault? || r.ActuatorFault?
  }

  predicate WateringSound(c: Core)
    requires c.session.Some?
  {
    var s := c.session.value;
    && s.offAt.None?
    && (s.pending.Some? ==> WateringReason(s.pending.value))
    && WateringFault(s, c.activeFault)
    && (s.pending.None? ==> c.enabled)
    && (s.pending.None? && s.mode.Auto? ==> s.freshUntil.Some?)
  }

  /** The fault that goes with a running session: the one it kept, or the one that ends it. */
  predicate WateringFault(s: Session, fault: Option<FaultCode>) {
    if s.pending == Some(SensorFault) then fault.Some? && fault.value.IsSensorOnly()
    else if s.pending == Some(ActuatorFault) then fault.Some?
    else s.pending == Some(RestartRecovery) || fault == s.retained
  }

  predicate SoakingSound(cfg: Config, c: Core)
    requires c.session.Some?
  {
    var s := c.session.value;
    && s.mode.Auto?
    && c.activeFault.None?
    && s.offAt.Some?
    && s.soakEnds == Some(s.offAt.value + cfg.soak)
    && s.recheckNotBefore == s.soakEnds
    && s.graceDeadline == Some(s.offAt.value + cfg.soak + cfg.maxAge)
    && (s.pending.Some? ==> s.pending.value.ExternalActuatorStateChange?)
    && (s.pending.None? ==> c.enabled)
  }

  /** An open session outside WATERING and SOAKING waits for OFF proof under a latched fault. */
  predicate RetainedSound(c: Core)
    requires c.session.Some?
  {
    && c.activeFault.Some?
    && c.session.value.pending.Some?
    && (c.session.value.pending.value.ActuatorFault? || c.session.value.pending.value.RestartRecovery?)
    && (c.session.value.pending.value.RestartRecovery? ==> c.session.value.offAt.None?)
  }

  predicate CoreInv(cfg: Config, c: Core) {
    && (c.session.Some? ==> SessionSound(cfg, c.session.value))
    && match c.state
       case Watering => c.session.Some? && WateringSound(c)
       case Soaking => c.session.Some? && SoakingSound(cfg, c)
       case Idle => c.session.None? && c.activeFault.None?
       case Fault => c.activeFault.Some? && (c.session.Some? ==> RetainedSound(c))
       case Disabled => c.session.Some? ==> RetainedSound(c)
  }

  /** The decision exists, can be constructed and applied, and the zone stays sound. */
  predicate Answers(inp: Input, o: Outcome<Decision>) {
    && o.Ok?
    && o.value.Constructible()
    && (o.value.noOp ==> o.value == NO_OP)
    && (o.value.clearSession ==> o.value.finalSession.Some? && o.value.reason.Some?)
    && CoreInv(inp.config, CoreAfter(inp, o.value))
  }

  // ----- one lemma per handler ------------------------------------------------------------------

  lemma StartAutoPulseAnswers(inp: Input, continued: Option<Session>)
    requires inp.config.Sound() && inp.identity.Some?
    requires inp.observation.reportedAt.Some?
    requires inp.enabled && inp.activeFault.None?
    requires match continued
             case None => true
             case Some(s) => SessionSound(inp.config, s) && s.mode.Auto? && s.cycle < inp.config.maxCycles && s.pending.None?
    ensures Answers(inp, StartAutoPulse(inp, continued))
  {
  }

  lemma AutoStartAnswers(inp: Input)
    requires Ordinary(inp)
    requires CoreInv(inp.config, CoreOf(inp))
    requires inp.state.Idle?
    ensures Answers(inp, EvaluateAutoStart(inp))
  {
    var failed := AutoGuardFailures(inp).value;
    if failed == [] {
      if inp.slotGranted && inp.blockersEmpty {
        StartAutoPulseAnswers(inp, None);
      }
    }
  }

  lemma ManualStartAnswers(inp: Input, request: ManualDuration, row: nat)
    requires Ordinary(inp)
    requires CoreInv(inp.config, CoreOf(inp))
    requires inp.state.Idle? || inp.state.Fault?
    requires inp.state.Idle? <==> row == 3
    requires inp.state.Fault? <==> row == 40
    ensures Answers(inp, ManualStart(inp, request, row))
  {
  }

  lemma IdleAnswers(inp: Input)
    requires Ordinary(inp) && !SetupOnly(inp.event)
    requires CoreInv(inp.config, CoreOf(inp))
    requires inp.state.Idle?
    ensures Answers(inp, DecideIdle(inp))
  {
    match inp.event
    case AutoEvaluate => AutoStartAnswers(inp);
    case MoistureReport(_) => AutoStartAnswers(inp);
    case SlotGranted => AutoStartAnswers(inp);
    case ManualStartRequested(request) => ManualStartAnswers(inp, request, 3);
    case _ =>
  }

  lemma DisabledAnswers(inp: Input)
    requires Ordinary(inp) && !SetupOnly(inp.event)
    requires CoreInv(inp.config, CoreOf(inp))
    requires inp.state.Disabled?
    ensures Answers(inp, DecideDisabled(inp))
  {
  }

  lemma FinalizeAnswers(inp: Input, s: Session, reason: Reason, offAt: Time, extra: seq<Action>)
    requires WateringFault(s.(pending := Some(reason)), inp.activeFault)
    requires WateringReason(reason) || reason.ExternalActuatorStateChange?
    ensures Answers(inp, FinalizeWatering(inp, s, reason, offAt, extra))
  {
  }

  lemma WateringReportAnswers(inp: Input, s: Session, obs: Observation)
    requires Ordinary(inp)
    requires CoreInv(inp.config, CoreOf(inp))
    requires inp.state.Watering? && inp.session == Some(s)
    requires obs.WellFormed(inp.now) && !inp.event.DisableRequested?
    ensures Answers(inp, WateringMoisture(inp, s, obs))
  {
  }

  lemma WatchdogAnswers(inp: Input, s: Session, token: Token)
    requires Ordinary(inp)
    requires CoreInv(inp.config, CoreOf(inp))
    requires inp.state.Watering? && inp.session == Some(s) && !inp.event.DisableRequested?
    ensures Answers(inp, WatchdogCallback(inp, s, token))
  {
  }

  lemma CommitAnswers(inp: Input, s: Session, reason: Reason, fault: Option<FaultCode>, defensive: bool)
    requires CoreInv(inp.config, CoreOf(inp))
    requires inp.state.Watering? && inp.session == Some(s) && s.pending.None?
    requires WateringReason(reason) && !reason.SensorFault? && (reason.ActuatorFault? <==> fault.Some?)
    ensures Answers(inp, Ok(CommitTermination(s, reason, fault, defensive)))
  {
  }

  lemma SoakEntryAnswers(inp: Input, s: Session, offAt: Time)
    requires CoreInv(inp.config, CoreOf(inp))
    requires inp.state.Watering? && inp.session == Some(s) && s.pending.None? && s.mode.Auto?
    requires !inp.event.DisableRequested?
    ensures Answers(inp, Ok(PulseOffToSoaking(inp, s, offAt)))
  {
  }

  /** OFF evidence ends WATERING. */
  lemma WateringExitAnswers(inp: Input)
    requires Ordinary(inp)
    requires CoreInv(inp.config, CoreOf(inp))
    requires inp.state.Watering?
    requires inp.event.ExternalActuatorOff? || inp.event.OffConfirmed?
    ensures Answers(inp, DecideWatering(inp))
  {
    var s := inp.session.value;
    if s.pending.Some? {
      FinalizeAnswers(inp, s, s.pending.value, inp.event.at, []);
    } else if inp.event.ExternalActuatorOff? {
      FinalizeAnswers(inp, s, ExternalActuatorStateChange, inp.event.at, [ExecuteOff(true)]);
    } else if s.mode.Manual? {
      FinalizeAnswers(inp, s, ManualComplete, inp.event.at, []);
    } else {
      SoakEntryAnswers(inp, s, inp.event.at);
    }
  }

  /** Events that ask a watering zone to stop. */
  predicate EndRequested(e: Event) {
    e.OnConfirmTimeout? || e.ActuatorBecameUnavailable? || e.ManualDeadlineReached? || e.StopRequested?
    || e.DisableRequested? || e.ShutdownRequested? || e.ConfigEntryReload? || e.ConfigChangedPrepare?
  }

  /** A request to end the session is committed unless an earlier one owns it. */
  lemma WateringCommitAnswers(inp: Input)
    requires CoreInv(inp.config, CoreOf(inp))
    requires inp.state.Watering?
    requires EndRequested(inp.event)
    ensures Answers(inp, DecideWatering(inp))
  {
    var s := inp.session.value;
    if s.pending.None? {
      match inp.event
      case OnConfirmTimeout => CommitAnswers(inp, s, ActuatorFault, Some(ActuatorOnTimeout), true);
      case ActuatorBecameUnavailable => CommitAnswers(inp, s, ActuatorFault, Some(ActuatorUnavailable), true);
      case ManualDeadlineReached => CommitAnswers(inp, s, ManualComplete, None, false);
      case StopRequested => CommitAnswers(inp, s, UserStop, None, false);
      case DisableRequested => CommitAnswers(inp, s, ZoneDisabled, None, false);
      case ShutdownRequested => CommitAnswers(inp, s, HomeAssistantShutdown, None, false);
      case ConfigEntryReload => CommitAnswers(inp, s, ConfigReload, None, false);
      case ConfigChangedPrepare => CommitAnswers(inp, s, ConfigChanged, None, false);
    }
  }

  lemma WateringAnswers(inp: Input)
    requires Ordinary(inp) && !SetupOnly(inp.event)
    requires CoreInv(inp.config, CoreOf(inp))
    requires inp.state.Watering?
    ensures Answers(inp, DecideWatering(inp))
  {
    var e := inp.event;
    var s := inp.session.value;
    if e.MoistureReport? {
      WateringReportAnswers(inp, s, e.observation);
    } else if e.WatchdogFired? {
      WatchdogAnswers(inp, s, e.token);
    } else if e.ExternalActuatorOff? || e.OffConfirmed? {
      WateringExitAnswers(inp);
    } else if EndRequested(e) {
      WateringCommitAnswers(inp);
    }
  }

  lemma RecheckAnswers(inp: Input, s: Session)
    requires Ordinary(inp)
    requires CoreInv(inp.config, CoreOf(inp))
    requires inp.state.Soaking? && inp.session == Some(s) && s.pending.None?
    requires FreshValid(inp) && !inp.event.DisableRequested?
    ensures Answers(inp, SoakingRecheck(inp, s))
  {
    var value := inp.observation.value.value;
    var updated := s.(lastRecheck := Some(value));
    if value < inp.config.targetThreshold && updated.cycle < inp.config.maxCycles {
      StartAutoPulseAnswers(inp, Some(updated));
    }
  }

  /** Once interference is committed only OFF evidence moves a soaking zone. */
  lemma InterferedSoakAnswers(inp: Input)
    requires Ordinary(inp)
    requires CoreInv(inp.config, CoreOf(inp))
    requires inp.state.Soaking? && inp.session.value.pending.Some?
    ensures Answers(inp, DecideSoaking(inp))
  {
  }

  /** Events that make a soaking zone look at its report. */
  predicate Evaluates(e: Event) {
    e.MoistureReport? || e.SoakDeadlineReached? || e.AutoEvaluate? || e.SlotGranted? || e.GraceDeadlineReached?
  }

  lemma SoakingWaitAnswers(inp: Input)
    requires Ordinary(inp)
    requires CoreInv(inp.config, CoreOf(inp))
    requires inp.state.Soaking? && inp.session.value.pending.None?
    requires Evaluates(inp.event)
    ensures Answers(inp, DecideSoaking(inp))
  {
    if FreshValid(inp) {
      RecheckAnswers(inp, inp.session.value);
    }
  }

  lemma SoakingAnswers(inp: Input)
    requires Ordinary(inp) && !SetupOnly(inp.event)
    requires CoreInv(inp.config, CoreOf(inp))
    requires inp.state.Soaking?
    ensures Answers(inp, DecideSoaking(inp))
  {
    if inp.session.value.pending.Some? {
      InterferedSoakAnswers(inp);
    } else if Evaluates(inp.event) {
      SoakingWaitAnswers(inp);
    }
  }

  lemma DelayedClosureAnswers(inp: Input, offAt: Time)
    requires CoreInv(inp.config, CoreOf(inp))
    requires inp.state.Fault? || inp.state.Disabled?
    requires inp.session.Some?
    ensures Answers(inp, CloseOpenAccounting(inp, offAt))
  {
  }

  lemma FaultAnswers(inp: Input)
    requires Ordinary(inp) && !SetupOnly(inp.event)
    requires CoreInv(inp.config, CoreOf(inp))
    requires inp.state.Fault?
    requires !AckWithOpenAccounting(inp)
    ensures Answers(inp, DecideFault(inp))
  {
    if inp.event.ManualStartRequested? {
      ManualStartAnswers(inp, inp.event.request, 40);
    } else if (inp.event.OffConfirmed? || inp.event.ExternalActuatorOff?) && inp.session.Some? {
      DelayedClosureAnswers(inp, inp.event.at);
    }
  }

  /** From a sound zone every ordinary event is answered, and the zone stays sound. */
  lemma DecideAnswers(inp: Input)
    requires Ordinary(inp)
    requires CoreInv(inp.config, CoreOf(inp))
    requires !AckWithOpenAccounting(inp)
    ensures Answers(inp, Decide(inp))
  {
    if !SetupOnly(inp.event) {
      match inp.state
      case Idle => IdleAnswers(inp);
      case Disabled => DisabledAnswers(inp);
      case Watering => WateringAnswers(inp);
      case Soaking => SoakingAnswers(inp);
      case Fault => FaultAnswers(inp);
    }
  }

  /**
   The invariant survives an ordinary event exactly when the event is not an acknowledgement
   accepted with accounting open: that one leaves the zone IDLE with the session still open.
   */
  lemma AckIsTheOnlyBreach(inp: Input)
    requires Ordinary(inp)
    requires CoreInv(inp.config, CoreOf(inp))
    ensures Decide(inp).Ok?
    ensures CoreInv(inp.config, CoreAfter(inp, Decide(inp).value)) <==> !AckWithOpenAccounting(inp)
    ensures AckWithOpenAccounting(inp) ==>
              var c := CoreAfter(inp, Decide(inp).value); c.state.Idle? && c.session == inp.session
  {
    if !AckWithOpenAccounting(inp) {
      DecideAnswers(inp);
    }
  }

  /** The events that evaluate an automatic start in IDLE. */
  predicate EvaluatesStart(e: Event) {
    e.AutoEvaluate? || e.MoistureReport? || e.SlotGranted?
  }

  /**
   The session left behind is overwritten, without a finish event, exactly by a successful
   automatic start, whichever event leads to it; a manual start is refused because of it.
   */
  lemma AckedSessionIsDropped(inp: Input)
    requires Ordinary(inp) && inp.state.Idle? && inp.session.Some?
    ensures Decide(inp).Ok?
    ensures var d := Decide(inp).value;
            && (d.session.Some? <==>
                  EvaluatesStart(inp.event) && AutoGuardFailures(inp) == Ok([]) && inp.slotGranted && inp.blockersEmpty)
            && (d.session.Some? ==> d.session.value.id == inp.identity.value.sessionId)
            && !d.clearSession && d.finalSession.None? && EmitSessionFinished !in d.actions
            && (inp.event.ManualStartRequested? ==> d.failedGuards.Some? && GuardActiveSession in d.failedGuards.value)
  {
    assert AutoGuardFailures(inp).Ok?;
  }

  const CONFIG_EXAMPLE: Config := Config(30.0, 60.0, 10, 20, 3, 60, 60, 100, 50, 5, 60)

  const SESSION_EXAMPLE: Session := Session(
    "session", "run", "fingerprint", Auto, 0, 1, 0, true, OffUnconfirmed, Some(0), Some(0), None, None, None, 1,
    None, None, None, None, None, None, [], Some(20.0), None, None, Some(ActuatorFault))

  const ACK_EXAMPLE: Input := Input(
    9, CONFIG_EXAMPLE, Fault, true, Some(SESSION_EXAMPLE), Some(ActuatorOffTimeout), None,
    Observation(Some(20.0), Valid, Some(8)), 0, None, Assessment(true, true, false), false, false, None,
    ClearFaultRequested, false, Some(Identity("next", "run", "fingerprint")))

  /** Such an acknowledgement exists. */
  lemma AckExample()
    ensures Ordinary(ACK_EXAMPLE) && CoreInv(CONFIG_EXAMPLE, CoreOf(ACK_EXAMPLE))
    ensures AckWithOpenAccounting(ACK_EXAMPLE)
    ensures Decide(ACK_EXAMPLE).Ok? && Decide(ACK_EXAMPLE).value.newState == Some(Idle)
  {
  }
}
