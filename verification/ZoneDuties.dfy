/**
 What a decision must not forget: to write the intent before water flows, to ask for OFF when it
 commits a reason, and to give back the slot and the fence when the session closes.
 */
module ZoneDuties {
  import opened Vocabulary
  import opened StateMachine
  import opened ZoneInvariant
  import opened ZoneLaws
  import opened ZoneActions

  predicate AsksOff(actions: seq<Action>) {
    ExecuteOff(true) in actions || ExecuteOff(false) in actions
  }

  /** A terminal request is committed by this decision. */
  predicate Commits(inp: Input, d: Decision) {
    && inp.session.Some? && inp.session.value.pending.None?
    && d.session.Some? && d.session.value.pending.Some?
  }

  predicate Dutiful(inp: Input, d: Decision) {
    && (TurnOn in d.actions ==> d.actions[0] == PersistState)
    && (Commits(inp, d) && !inp.event.OffNotConfirmed? ==> AsksOff(d.actions))
    && (d.clearSession ==> ReleaseSlot in d.actions)
    && (d.clearSession && inp.session.Some? && inp.session.value.pending.Some? ==> RemoveBlocker(FENCE) in d.actions)
    && (AddBlocker(FENCE) in d.actions ==>
          CoreAfter(inp, d).session.Some? && CoreAfter(inp, d).session.value.pending.Some?)
  }

  /** A decision that neither commits, closes, starts nor fences has nothing to forget. */
  lemma PlainDutiful(inp: Input, d: Decision)
    requires forall a :: a in d.actions ==> !a.TurnOn? && a != AddBlocker(FENCE)
    requires !Commits(inp, d) && !d.clearSession
    ensures Dutiful(inp, d)
  {
  }

  lemma PulseDutiful(inp: Input, continued: Option<Session>)
    requires StartAutoPulse(inp, continued).Ok?
    requires continued.Some? ==> continued.value.pending.None?
    ensures Dutiful(inp, StartAutoPulse(inp, continued).value)
  {
  }

  lemma AutoStartDutiful(inp: Input)
    requires EvaluateAutoStart(inp).Ok?
    ensures Dutiful(inp, EvaluateAutoStart(inp).value)
  {
    if StartAutoPulse(inp, None).Ok? {
      PulseDutiful(inp, None);
    }
  }

  lemma ManualDutiful(inp: Input, request: ManualDuration, row: nat)
    requires ManualStart(inp, request, row).Ok?
    ensures Dutiful(inp, ManualStart(inp, request, row).value)
  {
  }

  lemma IdleDutiful(inp: Input)
    requires Regular(inp) && inp.state.Idle? && !SetupOnly(inp.event) && DecideIdle(inp).Ok?
    ensures Dutiful(inp, DecideIdle(inp).value)
  {
    if inp.event.AutoEvaluate? || inp.event.MoistureReport? || inp.event.SlotGranted? {
      AutoStartDutiful(inp);
    } else if inp.event.ManualStartRequested? {
      ManualDutiful(inp, inp.event.request, 3);
    } else {
      PlainDutiful(inp, DecideIdle(inp).value);
    }
  }

  lemma DisabledDutiful(inp: Input)
    requires Regular(inp) && inp.state.Disabled? && !SetupOnly(inp.event) && DecideDisabled(inp).Ok?
    ensures Dutiful(inp, DecideDisabled(inp).value)
  {
  }

  lemma FaultDutiful(inp: Input)
    requires Regular(inp) && inp.state.Fault? && !SetupOnly(inp.event) && DecideFault(inp).Ok?
    ensures Dutiful(inp, DecideFault(inp).value)
  {
    if inp.event.ManualStartRequested? {
      ManualDutiful(inp, inp.event.request, 40);
    }
  }

  lemma FinalizeDutiful(inp: Input, s: Session, reason: Reason, offAt: Time, extra: seq<Action>)
    requires extra == [] || extra == [ExecuteOff(true)]
    requires FinalizeWatering(inp, s, reason, offAt, extra).Ok?
    ensures Dutiful(inp, FinalizeWatering(inp, s, reason, offAt, extra).value)
  {
    var d := FinalizeWatering(inp, s, reason, offAt, extra).value;
    assert d.actions[|extra| + 1] == RemoveBlocker(FENCE) && d.actions[|extra| + 2] == ReleaseSlot;
    assert forall k :: 0 <= k < |d.actions| ==> !d.actions[k].TurnOn? && !d.actions[k].AddBlocker?;
  }

  lemma CommittedExitDutiful(inp: Input)
    requires Regular(inp) && inp.state.Watering? && inp.session.value.pending.Some?
    requires inp.event.OffConfirmed? || inp.event.ExternalActuatorOff?
    requires DecideWatering(inp).Ok?
    ensures Dutiful(inp, DecideWatering(inp).value)
  {
    FinalizeDutiful(inp, inp.session.value, inp.session.value.pending.value, inp.event.at, []);
  }

  lemma ObservedExitDutiful(inp: Input)
    requires Regular(inp) && inp.state.Watering? && inp.session.value.pending.None?
    requires inp.event.ExternalActuatorOff? && DecideWatering(inp).Ok?
    ensures Dutiful(inp, DecideWatering(inp).value)
  {
    FinalizeDutiful(inp, inp.session.value, ExternalActuatorStateChange, inp.event.at, [ExecuteOff(true)]);
  }

  lemma ConfirmedExitDutiful(inp: Input)
    requires Regular(inp) && inp.state.Watering? && inp.session.value.pending.None?
    requires inp.event.OffConfirmed? && DecideWatering(inp).Ok?
    ensures Dutiful(inp, DecideWatering(inp).value)
  {
    if inp.session.value.mode.Manual? {
      FinalizeDutiful(inp, inp.session.value, ManualComplete, inp.event.at, []);
    }
  }

  lemma CommitDutiful(inp: Input, s: Session, reason: Reason, fault: Option<FaultCode>, defensive: bool)
    ensures Dutiful(inp, CommitTermination(s, reason, fault, defensive))
  {
    var d := CommitTermination(s, reason, fault, defensive);
    assert d.actions[|d.actions| - 1] == ExecuteOff(defensive);
  }

  lemma WateringCommitDutiful(inp: Input)
    requires Regular(inp) && inp.state.Watering? && EndRequested(inp.event) && DecideWatering(inp).Ok?
    ensures Dutiful(inp, DecideWatering(inp).value)
  {
    var d := DecideWatering(inp).value;
    if d != NO_OP {
      var reason := d.session.value.pending.value;
      CommitDutiful(inp, inp.session.value, reason, d.fault, reason.ActuatorFault?);
    }
  }

  lemma WateringOtherDutiful(inp: Input)
    requires Regular(inp) && inp.state.Watering? && !SetupOnly(inp.event) && DecideWatering(inp).Ok?
    requires !inp.event.OffConfirmed? && !inp.event.ExternalActuatorOff? && !EndRequested(inp.event)
    ensures Dutiful(inp, DecideWatering(inp).value)
  {
    var d := DecideWatering(inp).value;
    if d.fault.Some? && !inp.event.OffNotConfirmed? {
      CommitDutiful(inp, inp.session.value, SensorFault, d.fault, false);
    }
  }

  lemma RecheckDutiful(inp: Input, s: Session)
    requires inp.session == Some(s) && s.pending.None? && SoakingRecheck(inp, s).Ok?
    ensures Dutiful(inp, SoakingRecheck(inp, s).value)
  {
    var updated := s.(lastRecheck := inp.observation.value);
    if StartAutoPulse(inp, Some(updated)).Ok? {
      PulseDutiful(inp, Some(updated));
    }
  }

  lemma SoakingWaitDutiful(inp: Input)
    requires Regular(inp) && inp.state.Soaking? && inp.session.value.pending.None?
    requires Evaluates(inp.event) && DecideSoaking(inp).Ok?
    ensures Dutiful(inp, DecideSoaking(inp).value)
  {
    if SoakingRecheck(inp, inp.session.value).Ok? {
      RecheckDutiful(inp, inp.session.value);
    }
  }

  lemma InterferedDutiful(inp: Input)
    requires Regular(inp) && inp.state.Soaking? && inp.session.value.pending.Some? && DecideSoaking(inp).Ok?
    ensures Dutiful(inp, DecideSoaking(inp).value)
  {
  }

  lemma SoakingOtherDutiful(inp: Input)
    requires Regular(inp) && inp.state.Soaking? && !SetupOnly(inp.event)
    requires inp.session.value.pending.None? && !Evaluates(inp.event)
    requires DecideSoaking(inp).Ok?
    ensures Dutiful(inp, DecideSoaking(inp).value)
  {
  }

  /** Every decision of a sound zone does its duty. */
  lemma DecideDutiful(inp: Input)
    requires Regular(inp)
    ensures Decide(inp).Ok? && Dutiful(inp, Decide(inp).value)
  {
    DecideAnswers(inp);
    if !SetupOnly(inp.event) {
      match inp.state
      case Idle => IdleDutiful(inp);
      case Disabled => DisabledDutiful(inp);
      case Fault => FaultDutiful(inp);
      case Watering =>
        if inp.event.OffConfirmed? || inp.event.ExternalActuatorOff? {
          if inp.session.value.pending.Some? {
            CommittedExitDutiful(inp);
          } else if inp.event.ExternalActuatorOff? {
            ObservedExitDutiful(inp);
          } else {
            ConfirmedExitDutiful(inp);
          }
        } else if EndRequested(inp.event) {
          WateringCommitDutiful(inp);
        } else {
          WateringOtherDutiful(inp);
        }
      case Soaking =>
        if inp.session.value.pending.Some? {
          InterferedDutiful(inp);
        } else if Evaluates(inp.event) {
          SoakingWaitDutiful(inp);
        } else {
          SoakingOtherDutiful(inp);
        }
    }
  }
}
