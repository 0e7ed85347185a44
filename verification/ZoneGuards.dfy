/**
 When exactly a zone starts, continues or gives up: the conditions on both sides of each
 decision.
 */
module ZoneGuards {
  import opened Vocabulary
  import opened StateMachine
  import opened ZoneInvariant
  import opened ZoneLaws

  predicate Asks(d: Decision) {
    d.actions == [RequestSlot] && d.failedGuards == Some([GuardSlot])
  }

  predicate FailsOn(d: Decision, g: Guard) {
    d.failedGuards.Some? && g in d.failedGuards.value
  }

  /** Everything an automatic start needs of the zone itself. */
  predicate MayStart(inp: Input) {
    && inp.enabled
    && inp.observation.classification.Valid? && inp.observation.reportedAt.Some? && inp.observation.value.Some?
    && inp.now - inp.observation.reportedAt.value <= inp.config.maxAge
    && inp.observation.value.value < inp.config.startThreshold
    && (inp.lastSessionEnd.Some? ==> inp.now - inp.lastSessionEnd.value >= inp.config.minInterval)
    && inp.actuator.available && inp.actuator.provenOff
    && inp.dailyRuntime + inp.config.pulse <= inp.config.maxDaily
  }

  /** An idle zone starts exactly when it may and holds the free slot; it asks exactly when only the slot is missing. */
  lemma AutoStartsExactly(inp: Input)
    requires Ordinary(inp) && CoreInv(inp.config, CoreOf(inp)) && inp.state.Idle?
    requires inp.event.AutoEvaluate? || inp.event.MoistureReport? || inp.event.SlotGranted?
    ensures Decide(inp).Ok?
    ensures var d := Decide(inp).value;
            && (Starts(d) <==> MayStart(inp) && inp.slotGranted && inp.blockersEmpty)
            && (Asks(d) <==> MayStart(inp) && !(inp.slotGranted && inp.blockersEmpty))
            && (FailsOn(d, GuardEnabled) <==> !inp.enabled)
            && (FailsOn(d, GuardActuator) <==> !(inp.actuator.available && inp.actuator.provenOff))
            && (FailsOn(d, GuardDailyFit) <==> inp.dailyRuntime + inp.config.pulse > inp.config.maxDaily)
  {
    AutoGuardsAreExact(inp);
    assert Decide(inp) == EvaluateAutoStart(inp);
  }

  /** The recorded guards are the conditions that fail. */
  lemma AutoGuardsAreExact(inp: Input)
    requires Ordinary(inp)
    ensures AutoGuardFailures(inp).Ok?
    ensures var guards := AutoGuardFailures(inp).value;
            && (guards == [] <==> MayStart(inp)) && GuardSlot !in guards
            && (GuardEnabled in guards <==> !inp.enabled)
            && (GuardActuator in guards <==> !(inp.actuator.available && inp.actuator.provenOff))
            && (GuardDailyFit in guards <==> inp.dailyRuntime + inp.config.pulse > inp.config.maxDaily)
            && (GuardInterval in guards <==> inp.lastSessionEnd.Some? && inp.now - inp.lastSessionEnd.value < inp.config.minInterval)
  {
  }

  /** Everything a manual start needs of the zone itself. */
  predicate MayStartManually(inp: Input, request: ManualDuration) {
    && request.Finite? && request.duration > 0
    && inp.enabled && inp.session.None?
    && (inp.activeFault.Some? ==> inp.activeFault.value.IsSensorOnly())
    && inp.actuator.available && inp.actuator.provenOff
    && inp.dailyRuntime < inp.config.maxDaily
    && inp.blockersEmpty
  }

  /** `granted` is the longest duration within the request and every limit. */
  predicate Longest(granted: Time, requested: Time, limits: seq<Time>) {
    && granted <= requested && (forall i :: 0 <= i < |limits| ==> granted <= limits[i])
    && (granted == requested || exists i :: 0 <= i < |limits| && granted == limits[i])
  }

  lemma ManualStartsExactly(inp: Input, request: ManualDuration)
    requires Ordinary(inp) && CoreInv(inp.config, CoreOf(inp)) && (inp.state.Idle? || inp.state.Fault?)
    requires inp.event == ManualStartRequested(request)
    ensures Decide(inp).Ok?
    ensures var d := Decide(inp).value;
            && (Starts(d) <==> MayStartManually(inp, request) && inp.slotGranted)
            && (Asks(d) <==> MayStartManually(inp, request) && !inp.slotGranted)
  {
    assert ManualGuardFailures(inp, request) == [] <==> MayStartManually(inp, request);
    ManualStartAnswers(inp, request, if inp.state.Idle? then 3 else 40);
  }

  /** A manual session gets the longest duration the limits allow, and is told which of them bind. */
  lemma ManualDurationIsLongest(inp: Input, requested: Time)
    ensures var (granted, reasons) := ClampManual(inp, requested);
            && Longest(granted, requested, [inp.config.manualMax, inp.config.maxSession, inp.config.maxDaily - inp.dailyRuntime])
            && (ManualMaxDuration in reasons <==> inp.config.manualMax < requested)
            && (SessionMaxRuntime in reasons <==> inp.config.maxSession < requested)
            && (RemainingDailyBudget in reasons <==> inp.config.maxDaily - inp.dailyRuntime < requested)
            && (reasons == [] <==> granted == requested)
  {
    var limits := [inp.config.manualMax, inp.config.maxSession, inp.config.maxDaily - inp.dailyRuntime];
    var granted := ClampManual(inp, requested).0;
    assert granted == requested || granted == limits[0] || granted == limits[1] || granted == limits[2];
  }

  /** The report a recheck may be decided on. */
  predicate Rechecks(inp: Input) {
    && inp.state.Soaking? && inp.session.Some? && inp.session.value.pending.None?
    && inp.session.value.soakEnds.Some?
    && FreshValid(inp) && inp.observation.reportedAt.Some?
    && inp.observation.reportedAt.value >= inp.session.value.soakEnds.value
  }

  /** The first limit that forbids another pulse. */
  function GivesUp(inp: Input, s: Session, moisture: real): Option<Reason> {
    if moisture >= inp.config.targetThreshold then Some(TargetReached)
    else if s.cycle >= inp.config.maxCycles then Some(MaxCycles)
    else if s.runtime + inp.config.pulse > inp.config.maxSession then Some(MaxSessionRuntime)
    else if inp.dailyRuntime + inp.config.pulse > inp.config.maxDaily then Some(DailyRuntimeLimit)
    else if !inp.actuator.available then Some(ActuatorFault)
    else None
  }

  /**
   However a recheck is reached - by the report, a deadline, an evaluation or a grant - it ends
   the session for the first limit reached, or continues with a pulse or a request for the slot.
   */
  lemma RecheckDecides(inp: Input)
    requires Ordinary(inp) && CoreInv(inp.config, CoreOf(inp)) && Rechecks(inp)
    requires Evaluates(inp.event)
    ensures Decide(inp).Ok? && inp.observation.value.Some?
    ensures var d := Decide(inp).value;
            var reason := GivesUp(inp, inp.session.value, inp.observation.value.value);
            && (reason.Some? <==> d.clearSession) && (reason.Some? ==> d.reason == reason)
            && (Starts(d) <==> reason.None? && inp.slotGranted && inp.blockersEmpty && inp.actuator.provenOff)
            && (Asks(d) <==> reason.None? && !(inp.slotGranted && inp.blockersEmpty && inp.actuator.provenOff))
  {
    RecheckAnswers(inp, inp.session.value);
    assert Decide(inp) == SoakingRecheck(inp, inp.session.value);
  }

  /** At the grace deadline a soaking zone never just waits: it closes, goes on, or asks for the slot. */
  lemma GraceNeverWaits(inp: Input)
    requires Ordinary(inp) && CoreInv(inp.config, CoreOf(inp))
    requires inp.state.Soaking? && inp.session.value.pending.None? && inp.event.GraceDeadlineReached?
    ensures Decide(inp).Ok?
    ensures var d := Decide(inp).value; d.clearSession || Starts(d) || Asks(d)
  {
    if Rechecks(inp) {
      RecheckDecides(inp);
    }
  }
}
