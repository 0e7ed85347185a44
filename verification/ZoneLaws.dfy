/**
 What one decision says about sessions, pulses, the freshness watchdog and the requested
 actions. These are the single-step facts behind the statements about whole runs.
 */
module ZoneLaws {
  import opened Vocabulary
  import opened StateMachine
  import opened ZoneInvariant

  /** An ordinary event in a sound zone, acknowledgements with open accounting aside. */
  predicate Regular(inp: Input) {
    Ordinary(inp) && CoreInv(inp.config, CoreOf(inp)) && !AckWithOpenAccounting(inp)
  }

  /** The four transitions that command a pulse. */
  predicate Starts(d: Decision) {
    d.row == Some(1) || d.row == Some(3) || d.row == Some(25) || d.row == Some(40)
  }

  // ----- sessions -------------------------------------------------------------------------------

  /** OFF exhaustion alone may replace a committed reason, and never restart recovery. */
  predicate ReasonKept(before: Session, after: Session, event: Event) {
    before.pending.Some? ==>
      || after.pending == before.pending
      || (event.OffNotConfirmed? && !before.pending.value.RestartRecovery? && after.pending == Some(ActuatorFault))
  }

  /** A session is never swapped for another; it closes with its committed reason if it has one. */
  predicate Continues(inp: Input, d: Decision) {
    && (inp.session.Some? && d.session.Some? ==>
          d.session.value.id == inp.session.value.id && d.session.value.mode == inp.session.value.mode
          && ReasonKept(inp.session.value, d.session.value, inp.event))
    && (d.clearSession ==>
          inp.session.Some? && d.finalSession.Some? && d.finalSession.value.id == inp.session.value.id
          && (inp.session.value.pending.Some? ==> d.reason == inp.session.value.pending))
    && (d.session.Some? && inp.session.None? ==> Starts(d))
    && (d.secondaryFault.Some? ==> d.secondaryFault.value.IsSensorOnly())
  }

  // ----- pulses ---------------------------------------------------------------------------------

  /** What every commanded pulse was decided on. */
  predicate StartLaw(inp: Input, d: Decision) {
    && d.newState == Some(Watering)
    && inp.enabled && inp.slotGranted && inp.blockersEmpty && ActuatorReady(inp)
    && d.session.Some? && !d.clearSession
    && var s := d.session.value;
       && s.intentAt == Some(inp.now) && s.offAt.None? && s.commandedAt.None? && s.pending.None?
       && (d.row == Some(1) || d.row == Some(25) <==> s.mode.Auto?)
       && (d.row == Some(25) <==> inp.session.Some?)
       && (d.row == Some(25) ==> NextPulseLaw(inp, s))
       && (d.row != Some(25) ==> FirstPulseLaw(inp, s))
  }

  /** A further pulse of the session that was soaking. */
  predicate NextPulseLaw(inp: Input, s: Session) {
    && inp.state.Soaking? && inp.session.Some?
    && var before := inp.session.value;
       && before.pending.None? && before.soakEnds.Some?
       && FreshValid(inp)
       && inp.observation.reportedAt.value >= before.soakEnds.value
       && inp.observation.value.Some? && inp.observation.value.value < inp.config.targetThreshold
       && s.mode.Auto? && s.cycle == before.cycle + 1 <= inp.config.maxCycles
       && s.generation == before.generation + 1
       && s.freshUntil == Some(inp.observation.reportedAt.value + inp.config.maxAge)
       && s.runtime == before.runtime
       && SessionFits(inp, before) && DailyFits(inp)
  }

  predicate FirstPulseLaw(inp: Input, s: Session) {
    && (inp.state.Idle? || inp.state.Fault?)
    && s.runtime == 0
    && (s.mode.Auto? ==>
          && FreshValid(inp)
          && inp.observation.value.Some? && inp.observation.value.value < inp.config.startThreshold
          && s.cycle == 1 && s.generation == 1
          && s.freshUntil == Some(inp.observation.reportedAt.value + inp.config.maxAge)
          && DailyFits(inp))
    && (s.mode.Manual? ==>
          && s.cycle == 0 && s.effective.Some?
          && 0 < s.effective.value <= inp.config.maxSession
          && inp.dailyRuntime + s.effective.value <= inp.config.maxDaily)
  }

  /** OFF evidence that closes the pulse of a watering zone. */
  predicate ClosesPulse(inp: Input) {
    inp.state.Watering? && (inp.event.OffConfirmed? || inp.event.ExternalActuatorOff?)
  }

  /** Between starts the pulse keeps its anchors, and only OFF evidence closes it. */
  predicate HoldLaw(inp: Input, d: Decision) {
    && (d.newState == Some(Watering) ==> inp.state.Watering?)
    && (ClosesPulse(inp) ==> d.clearSession || d.session.Some?)
    && (d.session.Some? ==>
          inp.session.Some?
          && var before := inp.session.value;
             var after := d.session.value;
             && after.intentAt == before.intentAt && after.commandedAt == before.commandedAt
             && after.cycle == before.cycle && after.effective == before.effective
             && after.generation == before.generation + (if FoldsReport(inp) then 1 else 0)
             && after.offAt == (if ClosesPulse(inp) then Some(inp.event.at) else before.offAt))
  }

  predicate PulseLaw(inp: Input, d: Decision) {
    if Starts(d) then StartLaw(inp, d) else HoldLaw(inp, d)
  }

  // ----- runtime --------------------------------------------------------------------------------

  /** Runtime grows only by the closing charge of OFF evidence, and is never rewritten otherwise. */
  predicate RuntimeLaw(inp: Input, d: Decision) {
    && (d.session.Some? && inp.session.Some? ==>
          d.session.value.runtime == inp.session.value.runtime
            + if ClosesPulse(inp) then ClosingCharge(inp.session.value, inp.event.at, TargetReached) else 0)
    && (d.session.Some? && inp.session.None? ==> d.session.value.runtime == 0)
    && (d.clearSession ==>
          && inp.session.Some? && d.finalSession.Some? && d.reason.Some?
          && d.finalSession.value.runtime == inp.session.value.runtime
             + (if inp.event.OffConfirmed? || inp.event.ExternalActuatorOff?
                then ClosingCharge(inp.session.value, inp.event.at, d.reason.value) else 0)
          && (d.finalSession.value.runtime > inp.session.value.runtime ==>
                d.finalSession.value.offAt == Some(inp.event.at)))
  }

  // ----- the freshness watchdog -------------------------------------------------------------------

  /** A VALID report that reaches the watchdog of a running automatic pulse. */
  predicate FoldsReport(inp: Input) {
    && inp.state.Watering? && inp.session.Some? && inp.session.value.mode.Auto? && inp.session.value.pending.None?
    && inp.event.MoistureReport? && inp.observation.classification.Valid?
  }

  /** While a pulse runs, only a folded report moves the deadline, and only forward. */
  predicate WatchLaw(inp: Input, d: Decision) {
    (d.row == Some(56) <==> FoldsReport(inp) && d.session.Some?)
    && (!Starts(d) && inp.state.Watering? && d.session.Some? ==>
      && inp.session.Some?
      && var before := inp.session.value;
         var after := d.session.value;
         if FoldsReport(inp) then
           && before.freshUntil.Some? && inp.observation.reportedAt.Some?
           && var deadline := inp.observation.reportedAt.value + inp.config.maxAge;
              && before.freshUntil.value <= deadline
              && after.freshUntil == Some(deadline)
         else after.freshUntil == before.freshUntil)
  }

  /** A folded report that changes nothing is older than the deadline already armed. */
  predicate IgnoreLaw(inp: Input, d: Decision) {
    FoldsReport(inp) && d.session.None? ==>
      && d.noOp && !d.clearSession && d.newState.None?
      && inp.session.value.freshUntil.Some? && inp.observation.reportedAt.Some?
      && inp.observation.reportedAt.value + inp.config.maxAge < inp.session.value.freshUntil.value
  }

  // ----- all of it ----------------------------------------------------------------------------------

  predicate Lawful(inp: Input, d: Decision) {
    Continues(inp, d) && PulseLaw(inp, d) && RuntimeLaw(inp, d) && WatchLaw(inp, d) && IgnoreLaw(inp, d)
  }

  lemma AutoStartLawful(inp: Input)
    requires Regular(inp) && inp.state.Idle?
    requires EvaluateAutoStart(inp).Ok?
    ensures Lawful(inp, EvaluateAutoStart(inp).value)
  {
  }

  lemma ManualStartLawful(inp: Input, request: ManualDuration, row: nat)
    requires Regular(inp)
    requires (inp.state.Idle? && row == 3) || (inp.state.Fault? && row == 40)
    requires ManualStart(inp, request, row).Ok?
    ensures Lawful(inp, ManualStart(inp, request, row).value)
  {
  }

  lemma IdleLawful(inp: Input)
    requires Regular(inp) && inp.state.Idle? && !SetupOnly(inp.event)
    requires DecideIdle(inp).Ok?
    ensures Lawful(inp, DecideIdle(inp).value)
  {
    if inp.event.AutoEvaluate? || inp.event.MoistureReport? || inp.event.SlotGranted? {
      AutoStartLawful(inp);
    } else if inp.event.ManualStartRequested? {
      ManualStartLawful(inp, inp.event.request, 3);
    }
  }

  lemma DisabledLawful(inp: Input)
    requires Regular(inp) && inp.state.Disabled? && !SetupOnly(inp.event)
    requires DecideDisabled(inp).Ok?
    ensures Lawful(inp, DecideDisabled(inp).value)
  {
  }

  lemma FaultLawful(inp: Input)
    requires Regular(inp) && inp.state.Fault? && !SetupOnly(inp.event)
    requires DecideFault(inp).Ok?
    ensures Lawful(inp, DecideFault(inp).value)
  {
    if inp.event.ManualStartRequested? {
      ManualStartLawful(inp, inp.event.request, 40);
    }
  }

  lemma FinalizeLawful(inp: Input, s: Session, reason: Reason, offAt: Time, extra: seq<Action>)
    requires inp.state.Watering? && inp.session == Some(s)
    requires (inp.event.OffConfirmed? || inp.event.ExternalActuatorOff?) && inp.event.at == offAt
    requires s.pending.Some? ==> reason == s.pending.value
    requires s.retained.Some? ==> s.retained.value.IsSensorOnly()
    requires FinalizeWatering(inp, s, reason, offAt, extra).Ok?
    ensures Lawful(inp, FinalizeWatering(inp, s, reason, offAt, extra).value)
  {
  }

  lemma SoakEntryLawful(inp: Input, s: Session, offAt: Time)
    requires Regular(inp)
    requires inp.state.Watering? && inp.session == Some(s) && s.pending.None?
    requires inp.event == OffConfirmed(offAt)
    ensures Lawful(inp, PulseOffToSoaking(inp, s, offAt))
  {
  }

  lemma WateringExitLawful(inp: Input)
    requires Regular(inp) && inp.state.Watering?
    requires inp.event.OffConfirmed? || inp.event.ExternalActuatorOff?
    requires DecideWatering(inp).Ok?
    ensures Lawful(inp, DecideWatering(inp).value)
  {
    var s := inp.session.value;
    if s.pending.Some? {
      FinalizeLawful(inp, s, s.pending.value, inp.event.at, []);
    } else if inp.event.ExternalActuatorOff? {
      FinalizeLawful(inp, s, ExternalActuatorStateChange, inp.event.at, [ExecuteOff(true)]);
    } else if s.mode.Manual? {
      FinalizeLawful(inp, s, ManualComplete, inp.event.at, []);
    } else {
      SoakEntryLawful(inp, s, inp.event.at);
    }
  }

  lemma WateringSensorLawful(inp: Input)
    requires Regular(inp) && inp.state.Watering?
    requires inp.event.MoistureReport? || inp.event.WatchdogFired?
    requires DecideWatering(inp).Ok?
    ensures Lawful(inp, DecideWatering(inp).value)
  {
  }

  lemma CommitLawful(inp: Input, s: Session, reason: Reason, fault: Option<FaultCode>, defensive: bool)
    requires inp.state.Watering? && inp.session == Some(s) && s.pending.None?
    requires EndRequested(inp.event)
    ensures Lawful(inp, CommitTermination(s, reason, fault, defensive))
  {
  }

  lemma WateringCommitLawful(inp: Input)
    requires Regular(inp) && inp.state.Watering?
    requires EndRequested(inp.event)
    requires DecideWatering(inp).Ok?
    ensures Lawful(inp, DecideWatering(inp).value)
  {
    var s := inp.session.value;
    var d := DecideWatering(inp).value;
    if d != NO_OP {
      var reason := d.session.value.pending.value;
      CommitLawful(inp, s, reason, d.fault, reason.ActuatorFault?);
    }
  }

  lemma WateringOtherLawful(inp: Input)
    requires Regular(inp) && inp.state.Watering? && !SetupOnly(inp.event)
    requires !inp.event.MoistureReport? && !inp.event.WatchdogFired?
    requires !inp.event.OffConfirmed? && !inp.event.ExternalActuatorOff?
    requires !EndRequested(inp.event)
    requires DecideWatering(inp).Ok?
    ensures Lawful(inp, DecideWatering(inp).value)
  {
  }

  lemma RecheckLawful(inp: Input)
    requires Regular(inp) && inp.state.Soaking? && inp.session.value.pending.None?
    requires Evaluates(inp.event)
    requires PostQualifies(inp) == Ok(true)
    requires SoakingRecheck(inp, inp.session.value).Ok?
    ensures Lawful(inp, SoakingRecheck(inp, inp.session.value).value)
  {
  }

  lemma SoakingWaitLawful(inp: Input)
    requires Regular(inp) && inp.state.Soaking? && inp.session.value.pending.None?
    requires Evaluates(inp.event)
    requires DecideSoaking(inp).Ok?
    ensures Lawful(inp, DecideSoaking(inp).value)
  {
    if PostQualifies(inp) == Ok(true) && SoakingRecheck(inp, inp.session.value).Ok? {
      RecheckLawful(inp);
    }
  }

  lemma SoakingOtherLawful(inp: Input)
    requires Regular(inp) && inp.state.Soaking? && !SetupOnly(inp.event)
    requires inp.session.value.pending.Some? || !Evaluates(inp.event)
    requires DecideSoaking(inp).Ok?
    ensures Lawful(inp, DecideSoaking(inp).value)
  {
  }

  /** Every decision of a sound zone obeys all the laws. */
  lemma DecideLawful(inp: Input)
    requires Regular(inp)
    ensures Decide(inp).Ok? && Lawful(inp, Decide(inp).value)
  {
    DecideAnswers(inp);
    if !SetupOnly(inp.event) {
      match inp.state
      case Idle => IdleLawful(inp);
      case Disabled => DisabledLawful(inp);
      case Fault => FaultLawful(inp);
      case Watering =>
        if inp.event.OffConfirmed? || inp.event.ExternalActuatorOff? {
          WateringExitLawful(inp);
        } else if inp.event.MoistureReport? || inp.event.WatchdogFired? {
          WateringSensorLawful(inp);
        } else if EndRequested(inp.event) {
          WateringCommitLawful(inp);
        } else {
          WateringOtherLawful(inp);
        }
      case Soaking =>
        if inp.session.value.pending.None? && Evaluates(inp.event) {
          SoakingWaitLawful(inp);
        } else {
          SoakingOtherLawful(inp);
        }
    }
  }

  /** The watchdog ends a pulse exactly when the armed token comes due. */
  lemma StaleExactlyWhenDue(inp: Input, token: Token)
    requires Regular(inp) && inp.state.Watering? && inp.event == WatchdogFired(token)
    requires inp.session.value.mode.Auto? && inp.session.value.pending.None?
    ensures Decide(inp).Ok?
    ensures Decide(inp).value.fault == Some(SensorStale) <==>
            inp.armed == Some(token) && inp.session.value.freshUntil.value <= inp.now
    ensures Decide(inp).value.fault == Some(SensorStale) <==>
            Decide(inp).value.session.Some? && Decide(inp).value.session.value.pending == Some(SensorFault)
  {
    DecideAnswers(inp);
  }
}
