/**
 What one decision asks for: which actions accompany which change of the session, the
 state and the watchdog.
 */
module ZoneActions {
  import opened Vocabulary
  import opened StateMachine
  import opened ZoneInvariant
  import opened ZoneLaws

  /** The action stands at position `i` of the list and nowhere else. */
  ghost predicate OnlyAt(actions: seq<Action>, a: Action, i: int) {
    0 <= i < |actions| && forall k :: 0 <= k < |actions| ==> (actions[k] == a <==> k == i)
  }

  ghost predicate Once(actions: seq<Action>, a: Action) {
    exists i :: OnlyAt(actions, a, i)
  }

  /** A session's end is announced exactly once, by the decision that closes it. */
  ghost predicate Announces(d: Decision) {
    if d.clearSession then Once(d.actions, EmitSessionFinished) else EmitSessionFinished !in d.actions
  }

  /** The list arms the given token and no other, or none. */
  ghost predicate Arms(actions: seq<Action>, token: Option<Token>) {
    && (token.Some? ==> ArmWatchdog(token.value) in actions)
    && forall a :: a in actions && a.ArmWatchdog? ==> token == Some(a.token)
  }

  /** The token a decision arms: the deadline and generation the session then carries. */
  function TokenOf(inp: Input, d: Decision): Option<Token> {
    if d.row == Some(1) || d.row == Some(25) || d.row == Some(56) then
      if d.session.Some? && d.session.value.freshUntil.Some? then
        Some(Token(d.session.value.generation, d.session.value.freshUntil.value))
      else None
    else if inp.event.WatchdogFired? && !d.noOp && d.session.None? && inp.session.Some? && inp.session.value.freshUntil.Some? then
      Some(Token(inp.session.value.generation, inp.session.value.freshUntil.value))
    else None
  }

  /** A session whose water may still flow although the zone is not watering. */
  ghost predicate Retained(c: Core) {
    c.session.Some? && !c.state.Watering? && c.session.value.pending.Some?
  }

  const FENCE: BlockerReason := IntegrationOffUnconfirmed

  /** How the blocker and the slot follow the session. */
  ghost predicate FenceLaw(inp: Input, d: Decision) {
    var after := CoreAfter(inp, d);
    && (Retained(after) && !Retained(CoreOf(inp)) ==> AddBlocker(FENCE) in d.actions)
    && (RemoveBlocker(FENCE) in d.actions ==> d.clearSession)
    && (ReleaseSlot in d.actions ==> AddBlocker(FENCE) !in d.actions && !Starts(d))
    && (ReleaseSlot in d.actions && after.session.Some? && after.session.value.PulseOpen() ==> Retained(CoreOf(inp)))
  }

  ghost predicate Listed(inp: Input, d: Decision) {
    && Announces(d)
    && (TurnOn in d.actions <==> Starts(d))
    && Arms(d.actions, TokenOf(inp, d))
    && FenceLaw(inp, d)
  }

  lemma StartListed(inp: Input, continued: Option<Session>)
    requires inp.observation.reportedAt.Some? && inp.identity.Some?
    requires !inp.event.WatchdogFired?
    ensures Listed(inp, StartAutoPulse(inp, continued).value)
  {
  }

  lemma AutoStartListed(inp: Input)
    requires Regular(inp) && inp.state.Idle? && !inp.event.WatchdogFired?
    requires EvaluateAutoStart(inp).Ok?
    ensures Listed(inp, EvaluateAutoStart(inp).value)
  {
    if FreshValid(inp) {
      StartListed(inp, None);
    }
  }

  lemma ManualStartListed(inp: Input, request: ManualDuration, row: nat)
    requires Regular(inp) && inp.event.ManualStartRequested?
    requires (inp.state.Idle? && row == 3) || (inp.state.Fault? && row == 40)
    requires ManualStart(inp, request, row).Ok?
    ensures Listed(inp, ManualStart(inp, request, row).value)
  {
  }

  lemma IdleListed(inp: Input)
    requires Regular(inp) && inp.state.Idle? && !SetupOnly(inp.event)
    requires DecideIdle(inp).Ok?
    ensures Listed(inp, DecideIdle(inp).value)
  {
    if inp.event.AutoEvaluate? || inp.event.MoistureReport? || inp.event.SlotGranted? {
      AutoStartListed(inp);
    } else if inp.event.ManualStartRequested? {
      ManualStartListed(inp, inp.event.request, 3);
    } else {
      IdleOtherListed(inp);
    }
  }

  lemma IdleOtherListed(inp: Input)
    requires Regular(inp) && inp.state.Idle? && !SetupOnly(inp.event)
    requires !inp.event.AutoEvaluate? && !inp.event.MoistureReport? && !inp.event.SlotGranted?
    requires !inp.event.ManualStartRequested?
    ensures Listed(inp, DecideIdle(inp).value)
  {
    QuietListed(inp, DecideIdle(inp).value);
  }

  lemma ClosureListed(inp: Input, offAt: Time)
    requires inp.session.Some? && inp.session.value.pending.Some? && !inp.event.WatchdogFired?
    ensures Listed(inp, CloseOpenAccounting(inp, offAt).value)
  {
    assert OnlyAt(CloseOpenAccounting(inp, offAt).value.actions, EmitSessionFinished, 3);
  }

  lemma DisabledListed(inp: Input)
    requires Regular(inp) && inp.state.Disabled? && !SetupOnly(inp.event)
    requires DecideDisabled(inp).Ok?
    ensures Listed(inp, DecideDisabled(inp).value)
  {
    if inp.session.Some? && (inp.event.OffConfirmed? || inp.event.ExternalActuatorOff?) {
      ClosureListed(inp, inp.event.at);
    } else {
      QuietListed(inp, DecideDisabled(inp).value);
    }
  }

  lemma FaultListed(inp: Input)
    requires Regular(inp) && inp.state.Fault? && !SetupOnly(inp.event)
    requires DecideFault(inp).Ok?
    ensures Listed(inp, DecideFault(inp).value)
  {
    if inp.event.ManualStartRequested? {
      ManualStartListed(inp, inp.event.request, 40);
    } else if inp.session.Some? && (inp.event.OffConfirmed? || inp.event.ExternalActuatorOff?) {
      ClosureListed(inp, inp.event.at);
    } else {
      FaultOtherListed(inp);
    }
  }

  /** Actions that concern neither the pulse, the watchdog, the fence nor the session's end. */
  predicate Quiet(a: Action) {
    && !a.TurnOn? && !a.ArmWatchdog? && !a.EmitSessionFinished?
    && a != AddBlocker(FENCE) && a != RemoveBlocker(FENCE)
  }

  /** A decision about something other than the session. */
  lemma QuietListed(inp: Input, d: Decision)
    requires forall a :: a in d.actions ==> Quiet(a)
    requires !d.clearSession && d.session.None?
    requires !inp.state.Watering? && d.newState != Some(Watering)
    requires inp.event.WatchdogFired? ==> d.noOp
    requires !Starts(d) && d.row != Some(56)
    requires ReleaseSlot in d.actions && inp.session.Some? && inp.session.value.PulseOpen() ==> Retained(CoreOf(inp))
    ensures Listed(inp, d)
  {
  }

  lemma FaultOtherListed(inp: Input)
    requires Regular(inp) && inp.state.Fault? && !SetupOnly(inp.event)
    requires !inp.event.ManualStartRequested?
    requires inp.session.Some? ==> !inp.event.OffConfirmed? && !inp.event.ExternalActuatorOff?
    ensures Listed(inp, DecideFault(inp).value)
  {
    QuietListed(inp, DecideFault(inp).value);
  }

  /** The list every confirmed-OFF exit from WATERING asks for. */
  lemma ExitListed(inp: Input, d: Decision, extra: seq<Action>, cleared: seq<Action>)
    requires d.clearSession && d.row.Some? && 7 <= d.row.value && d.row.value !in {25, 40, 56}
    requires extra == [] || extra == [ExecuteOff(true)]
    requires cleared == [] || (|cleared| == 1 && cleared[0].EmitFaultCleared?)
    requires d.actions
          == extra + [PersistState, RemoveBlocker(FENCE), ReleaseSlot, EmitSessionFinished] + cleared
    requires !inp.event.WatchdogFired?
    ensures Listed(inp, d)
  {
    assert OnlyAt(d.actions, EmitSessionFinished, |extra| + 3);
    assert forall a :: a in d.actions ==> !a.AddBlocker? && !a.TurnOn? && !a.ArmWatchdog?;
  }

  lemma FinalizeListed(inp: Input, s: Session, reason: Reason, offAt: Time, extra: seq<Action>)
    requires extra == [] || extra == [ExecuteOff(true)]
    requires !inp.event.WatchdogFired?
    requires FinalizeWatering(inp, s, reason, offAt, extra).Ok?
    ensures Listed(inp, FinalizeWatering(inp, s, reason, offAt, extra).value)
  {
    var d := FinalizeWatering(inp, s, reason, offAt, extra).value;
    var closed := CloseRuntime(s, offAt, reason);
    if reason.ManualComplete? {
      var recovered := closed.retained.Some? && FreshValid(inp);
      ExitListed(inp, d, extra, if recovered then [EmitFaultCleared(closed.retained.value)] else []);
    } else {
      ExitListed(inp, d, extra, PostDestination(inp, closed, reason).actions);
    }
  }

  lemma SoakEntryListed(inp: Input, s: Session, offAt: Time)
    requires inp.state.Watering? && inp.session == Some(s) && s.pending.None? && !inp.event.WatchdogFired?
    ensures Listed(inp, PulseOffToSoaking(inp, s, offAt))
  {
  }

  lemma CommittedExitListed(inp: Input)
    requires Regular(inp) && inp.state.Watering? && inp.session.value.pending.Some?
    requires inp.event.OffConfirmed? || inp.event.ExternalActuatorOff?
    requires DecideWatering(inp).Ok?
    ensures Listed(inp, DecideWatering(inp).value)
  {
    var s := inp.session.value;
    FinalizeListed(inp, s, s.pending.value, inp.event.at, []);
  }

  lemma UncommittedExitListed(inp: Input)
    requires Regular(inp) && inp.state.Watering? && inp.session.value.pending.None?
    requires inp.event.OffConfirmed? || inp.event.ExternalActuatorOff?
    requires DecideWatering(inp).Ok?
    ensures Listed(inp, DecideWatering(inp).value)
  {
    var s := inp.session.value;
    if inp.event.ExternalActuatorOff? {
      FinalizeListed(inp, s, ExternalActuatorStateChange, inp.event.at, [ExecuteOff(true)]);
    } else if s.mode.Manual? {
      FinalizeListed(inp, s, ManualComplete, inp.event.at, []);
    } else {
      SoakEntryListed(inp, s, inp.event.at);
    }
  }

  lemma CommitListed(inp: Input, s: Session, reason: Reason, fault: Option<FaultCode>, defensive: bool)
    requires inp.state.Watering? && inp.session == Some(s)
    ensures Listed(inp, CommitTermination(s, reason, fault, defensive))
  {
  }

  lemma WateringSensorListed(inp: Input)
    requires Regular(inp) && inp.state.Watering?
    requires inp.event.MoistureReport? || inp.event.WatchdogFired?
    requires DecideWatering(inp).Ok?
    ensures Listed(inp, DecideWatering(inp).value)
  {
    var d := DecideWatering(inp).value;
    if d.fault.Some? {
      CommitListed(inp, inp.session.value, SensorFault, d.fault, false);
    }
  }

  lemma WateringCommitListed(inp: Input)
    requires Regular(inp) && inp.state.Watering?
    requires EndRequested(inp.event)
    requires DecideWatering(inp).Ok?
    ensures Listed(inp, DecideWatering(inp).value)
  {
    var s := inp.session.value;
    var d := DecideWatering(inp).value;
    if d != NO_OP {
      var reason := d.session.value.pending.value;
      CommitListed(inp, s, reason, d.fault, reason.ActuatorFault?);
    }
  }

  lemma WateringOtherListed(inp: Input)
    requires Regular(inp) && inp.state.Watering? && !SetupOnly(inp.event)
    requires !inp.event.MoistureReport? && !inp.event.WatchdogFired?
    requires !inp.event.OffConfirmed? && !inp.event.ExternalActuatorOff?
    requires !EndRequested(inp.event)
    requires DecideWatering(inp).Ok?
    ensures Listed(inp, DecideWatering(inp).value)
  {
  }

  lemma SoakClosureListed(inp: Input, d: Decision)
    requires d.clearSession && d.row.Some? && d.row.value >= 24 && d.row != Some(25) && d.row.value < 40
    requires d.actions == [PersistState, ReleaseSlot, EmitSessionFinished]
             || d.actions == [PersistState, ExecuteOff(true), ReleaseSlot, EmitSessionFinished]
             || d.actions == [PersistState, RemoveBlocker(FENCE), ReleaseSlot, EmitSessionFinished]
             || (exists f, r :: d.actions == [PersistState, EmitFaultSet(f, r), ReleaseSlot, EmitSessionFinished])
    requires !inp.event.WatchdogFired?
    ensures Listed(inp, d)
  {
    assert OnlyAt(d.actions, EmitSessionFinished, |d.actions| - 1);
  }

  lemma RecheckListed(inp: Input)
    requires Regular(inp) && inp.state.Soaking? && inp.session.value.pending.None?
    requires Evaluates(inp.event)
    requires FreshValid(inp)
    requires SoakingRecheck(inp, inp.session.value).Ok?
    ensures Listed(inp, SoakingRecheck(inp, inp.session.value).value)
  {
    var s := inp.session.value;
    var d := SoakingRecheck(inp, s).value;
    if d.clearSession {
      SoakClosureListed(inp, d);
    } else if d.row == Some(25) {
      StartListed(inp, Some(s.(lastRecheck := inp.observation.value)));
    }
  }

  lemma SoakingWaitListed(inp: Input)
    requires Regular(inp) && inp.state.Soaking? && inp.session.value.pending.None?
    requires Evaluates(inp.event)
    requires DecideSoaking(inp).Ok?
    ensures Listed(inp, DecideSoaking(inp).value)
  {
    var d := DecideSoaking(inp).value;
    if PostQualifies(inp) == Ok(true) && d == SoakingRecheck(inp, inp.session.value).value {
      RecheckListed(inp);
    } else if d.clearSession {
      SoakClosureListed(inp, d);
    }
  }

  lemma SoakingOtherListed(inp: Input)
    requires Regular(inp) && inp.state.Soaking? && !SetupOnly(inp.event)
    requires inp.session.value.pending.Some? || !Evaluates(inp.event)
    requires DecideSoaking(inp).Ok?
    ensures Listed(inp, DecideSoaking(inp).value)
  {
    var d := DecideSoaking(inp).value;
    if d.clearSession {
      SoakClosureListed(inp, d);
    }
  }

  /** Every decision of a sound zone asks for what its change of session needs, and no more. */
  lemma DecideListed(inp: Input)
    requires Regular(inp)
    ensures Decide(inp).Ok? && Listed(inp, Decide(inp).value)
  {
    DecideAnswers(inp);
    if !SetupOnly(inp.event) {
      match inp.state
      case Idle => IdleListed(inp);
      case Disabled => DisabledListed(inp);
      case Fault => FaultListed(inp);
      case Watering =>
        if inp.event.OffConfirmed? || inp.event.ExternalActuatorOff? {
          if inp.session.value.pending.Some? {
            CommittedExitListed(inp);
          } else {
            UncommittedExitListed(inp);
          }
        } else if inp.event.MoistureReport? || inp.event.WatchdogFired? {
          WateringSensorListed(inp);
        } else if EndRequested(inp.event) {
          WateringCommitListed(inp);
        } else {
          WateringOtherListed(inp);
        }
      case Soaking =>
        if inp.session.value.pending.None? && Evaluates(inp.event) {
          SoakingWaitListed(inp);
        } else {
          SoakingOtherListed(inp);
        }
    }
  }
}
