/**
 What survives a restart. A decision that changes anything the Store keeps asks for the write
 first, so the last image written is the zone's own; and a restart resumes from that image
 soundly, except where the reason of a session that waits for OFF proof was kept live only.
 */
module Restart {
  import opened Vocabulary
  import opened StateMachine
  import opened Accounting
  import opened ZoneControl
  import opened ZoneInvariant
  import opened ZoneLaws
  import opened ZoneActions
  import opened ZoneRuns
  import opened ZoneTheorems

  // ----- the image on disk --------------------------------------------------------------------------

  function StrippedOf(session: Option<Session>): Option<Session> {
    if session.Some? then Some(Stripped(session.value)) else None
  }

  /** What the Store keeps of a zone beside its switch and its daily counter. */
  datatype Image = Image(
    state: State,
    session: Option<Session>,
    activeFault: Option<FaultCode>,
    secondaryFault: Option<FaultCode>,
    lastSessionEnd: Option<Time>,
    lastAutoStart: Option<Time>,
    summary: Option<Summary>)

  function ImageOf(z: Zone): Image {
    Image(z.state, StrippedOf(z.session), z.activeFault, z.secondaryFault, z.lastSessionEnd, z.lastAutoStart, z.summary)
  }

  /** A decision that asks for no write leaves everything the Store keeps as it was. */
  predicate WriteAhead(inp: Input, d: Decision) {
    PersistState !in d.actions ==>
      && !d.clearSession && !d.clearFault && d.fault.None? && d.secondaryFault.None?
      && (d.newState.Some? ==> d.newState.value == inp.state)
      && (d.session.Some? ==>
            inp.session.Some? && Stripped(d.session.value) == Stripped(inp.session.value)
            && d.session.value.pending == inp.session.value.pending)
  }

  lemma IdleWritesAhead(inp: Input)
    requires inp.state.Idle? && DecideIdle(inp).Ok?
    ensures WriteAhead(inp, DecideIdle(inp).value)
  {
  }

  lemma DisabledWritesAhead(inp: Input)
    requires inp.state.Disabled? && DecideDisabled(inp).Ok?
    ensures WriteAhead(inp, DecideDisabled(inp).value)
  {
  }

  lemma FinalizeWritesAhead(inp: Input, s: Session, reason: Reason, offAt: Time, extra: seq<Action>)
    requires FinalizeWatering(inp, s, reason, offAt, extra).Ok?
    ensures PersistState in FinalizeWatering(inp, s, reason, offAt, extra).value.actions
  {
    assert FinalizeWatering(inp, s, reason, offAt, extra).value.actions[|extra|] == PersistState;
  }

  lemma WateringExitWritesAhead(inp: Input)
    requires inp.state.Watering? && DecideWatering(inp).Ok?
    requires inp.event.OffConfirmed? || inp.event.ExternalActuatorOff?
    ensures PersistState in DecideWatering(inp).value.actions
  {
    var s := inp.session.value;
    var e := inp.event;
    if s.pending.Some? {
      FinalizeWritesAhead(inp, s, s.pending.value, e.at, []);
    } else if e.ExternalActuatorOff? {
      FinalizeWritesAhead(inp, s, ExternalActuatorStateChange, e.at, [ExecuteOff(true)]);
    } else if s.mode.Manual? {
      FinalizeWritesAhead(inp, s, ManualComplete, e.at, []);
    }
  }

  lemma WateringCommitWritesAhead(inp: Input)
    requires inp.state.Watering? && DecideWatering(inp).Ok?
    requires EndRequested(inp.event)
    ensures WriteAhead(inp, DecideWatering(inp).value)
  {
    var d := DecideWatering(inp).value;
    assert d == NO_OP || d.actions[0] == PersistState;
  }

  lemma WateringOtherWritesAhead(inp: Input)
    requires inp.state.Watering? && DecideWatering(inp).Ok? && !EndRequested(inp.event)
    requires !inp.event.OffConfirmed? && !inp.event.ExternalActuatorOff? && !inp.event.StartupPersistedWatering?
    ensures WriteAhead(inp, DecideWatering(inp).value)
  {
  }

  lemma WateringWritesAhead(inp: Input)
    requires inp.state.Watering? && DecideWatering(inp).Ok?
    ensures WriteAhead(inp, DecideWatering(inp).value)
  {
    if inp.event.OffConfirmed? || inp.event.ExternalActuatorOff? {
      WateringExitWritesAhead(inp);
    } else if inp.event.StartupPersistedWatering? {
      StartupWritesAhead(inp, inp.session.value, inp.event.finding);
    } else if EndRequested(inp.event) {
      WateringCommitWritesAhead(inp);
    } else {
      WateringOtherWritesAhead(inp);
    }
  }

  lemma StartupWritesAhead(inp: Input, s: Session, finding: Finding)
    requires StartupWatering(inp, s, finding).Ok?
    ensures PersistState in StartupWatering(inp, s, finding).value.actions
  {
    if finding.FoundOff? {
      var recovering := s.(pending := Some(RestartRecovery), estimated := true, estimation := RestartFoundOffUnknownStop);
      FinalizeWritesAhead(inp, recovering, RestartRecovery, inp.now, []);
    }
  }

  lemma RecheckWritesAhead(inp: Input, s: Session)
    requires inp.session == Some(s) && SoakingRecheck(inp, s).Ok?
    ensures WriteAhead(inp, SoakingRecheck(inp, s).value)
  {
  }

  lemma SoakingWaitWritesAhead(inp: Input)
    requires inp.state.Soaking? && DecideSoaking(inp).Ok?
    requires Evaluates(inp.event)
    ensures WriteAhead(inp, DecideSoaking(inp).value)
  {
    var s := inp.session.value;
    if SoakingRecheck(inp, s).Ok? {
      RecheckWritesAhead(inp, s);
    }
  }

  lemma SoakingWritesAhead(inp: Input)
    requires inp.state.Soaking? && DecideSoaking(inp).Ok?
    ensures WriteAhead(inp, DecideSoaking(inp).value)
  {
    if Evaluates(inp.event) {
      SoakingWaitWritesAhead(inp);
    }
  }

  lemma FaultWritesAhead(inp: Input)
    requires inp.state.Fault? && DecideFault(inp).Ok?
    ensures WriteAhead(inp, DecideFault(inp).value)
  {
  }

  /** Nothing the Store keeps changes without a write. This holds of every input. */
  lemma DecideWritesAhead(inp: Input)
    requires Decide(inp).Ok?
    ensures WriteAhead(inp, Decide(inp).value)
  {
    if !SetupOnly(inp.event) {
      match inp.state
      case Idle => IdleWritesAhead(inp);
      case Disabled => DisabledWritesAhead(inp);
      case Watering => WateringWritesAhead(inp);
      case Soaking => SoakingWritesAhead(inp);
      case Fault => FaultWritesAhead(inp);
    }
  }

  /** Whether a move writes the zone's image. */
  predicate Writes(cfg: Config, cal: Calendar, x: Snapshot, m: Move) {
    match m
    case Command(_, _, written) => written
    case Elapse(_, _) => false
    case Dispatch(s) =>
      DecisionFor(cfg, cal, x.zone, s).Ok? && PersistState in DecisionFor(cfg, cal, x.zone, s).value.actions
  }

  lemma AppliedOnDisk(cal: Calendar, z: Zone, d: Decision, inp: Input)
    requires Agrees(z, inp) && Applicable(d)
    requires WriteAhead(inp, d) && PersistState !in d.actions
    ensures ImageOf(Applied(cal, z, d, inp)) == ImageOf(z)
  {
    var adopted := Adopted(z, d, inp);
    assert ImageOf(adopted) == ImageOf(z);
    var settled := Settled(cal, adopted, d, inp);
    assert settled == adopted.(daily := settled.daily);
    var housekept := Housekept(settled, inp);
    assert housekept == settled.(timers := housekept.timers);
    var applied := Applied(cal, z, d, inp);
    assert applied == housekept.(pendingManual := applied.pendingManual);
  }

  lemma EffectOnDisk(cal: Calendar, z: Zone, d: Decision, inp: Input)
    requires Agrees(z, inp) && Applicable(d)
    requires WriteAhead(inp, d) && PersistState !in d.actions
    ensures ImageOf(Effect(cal, z, d, inp)) == ImageOf(z)
  {
    if !d.noOp {
      AppliedOnDisk(cal, z, d, inp);
      PerformAllOnDisk(Applied(cal, z, d, inp), d.actions, d.reason);
    }
  }

  lemma PerformOnDisk(z: Zone, a: Action, reason: Option<Reason>)
    ensures ImageOf(Perform(z, a, reason)) == ImageOf(z)
  {
  }

  lemma {:induction false} PerformAllOnDisk(z: Zone, actions: seq<Action>, reason: Option<Reason>)
    ensures ImageOf(PerformAll(z, actions, reason)) == ImageOf(z)
    decreases |actions|
  {
    if actions != [] {
      PerformOnDisk(z, actions[0], reason);
      PerformAllOnDisk(Perform(z, actions[0], reason), actions[1..], reason);
    }
  }

  /** The written session is the live one, or the live one before its command anchor was noted. */
  predicate SessionKept(disk: Option<Session>, live: Option<Session>) {
    || disk == live
    || (disk.Some? && live.Some? && disk.value.commandedAt.None?
        && disk.value == live.value.(commandedAt := None))
  }

  /** The written counter is the live one, or the live one was rolled over since. */
  predicate CounterKept(disk: Daily, live: Daily) {
    disk == live || (disk.date < live.date && live.runtime == 0)
  }

  /** What was written at `x` still stands at `y`, and nothing was charged or closed meanwhile. */
  predicate Kept(x: Snapshot, y: Snapshot) {
    && ImageOf(x.zone).(session := None) == ImageOf(y.zone).(session := None)
    && SessionKept(ImageOf(x.zone).session, ImageOf(y.zone).session)
    && CounterKept(x.zone.daily, y.zone.daily)
    && x.history.charges == y.history.charges && x.history.closings == y.history.closings
  }

  predicate Switches(m: Move) {
    m.Dispatch? && (m.s.event.EnableRequested? || m.s.event.DisableRequested?)
  }

  lemma QuietEffect(cal: Calendar, x: Snapshot, z: Zone, inp: Input, d: Decision)
    requires Agrees(z, inp) && Applicable(d) && (d.noOp ==> d == NO_OP)
    requires ImageOf(z) == ImageOf(x.zone)
    requires z.daily == CurrentDaily(cal, x.zone.daily, inp.now) && x.zone.daily.date <= cal.dayOf(inp.now)
    requires WriteAhead(inp, d) && PersistState !in d.actions
    ensures Kept(x, Snapshot(Effect(cal, z, d, inp), NextHistory(x.history, inp, d)))
  {
    EffectOnDisk(cal, z, d, inp);
    assert ChargeOf(inp, d).None?;
    EffectCounter(cal, z, d, inp);
  }

  lemma QuietDispatch(cfg: Config, cal: Calendar, xs: seq<Snapshot>, ms: seq<Move>, k: nat)
    requires IsRun(cfg, cal, xs, ms)
    requires k < |ms| && ms[k].Dispatch? && !Writes(cfg, cal, xs[k], ms[k])
    ensures Kept(xs[k], xs[k + 1])
    ensures xs[k + 1].zone.enabled == xs[k].zone.enabled || Switches(ms[k])
  {
    DispatchInRun(cfg, cal, xs, ms, k);
    var s := ms[k].s;
    var inp := InputFor(cfg, cal, xs[k].zone, s);
    DecideWritesAhead(inp);
    LocalDatesAscend(cal, xs[k].history.clock, s.now);
    QuietEffect(cal, xs[k], Prepared(cal, xs[k].zone, s), inp, Decide(inp).value);
  }

  lemma QuietMove(cfg: Config, cal: Calendar, xs: seq<Snapshot>, ms: seq<Move>, k: nat)
    requires IsRun(cfg, cal, xs, ms)
    requires k < |ms| && !Writes(cfg, cal, xs[k], ms[k])
    ensures Kept(xs[k], xs[k + 1])
    ensures xs[k + 1].zone.enabled == xs[k].zone.enabled || Switches(ms[k])
  {
    if ms[k].Dispatch? {
      QuietDispatch(cfg, cal, xs, ms, k);
    }
  }

  lemma {:induction false} KeptThroughout(xs: seq<Snapshot>, j: nat, k: nat)
    requires j <= k < |xs|
    requires forall i :: j <= i < k ==> Kept(xs[i], xs[i + 1])
    ensures Kept(xs[j], xs[k])
    decreases k
  {
    if j < k {
      KeptThroughout(xs, j, k - 1);
      assert Kept(xs[k - 1], xs[k - 1 + 1]);
    }
  }

  lemma {:induction false} SwitchThroughout(xs: seq<Snapshot>, ms: seq<Move>, j: nat, k: nat)
    requires j <= k < |xs| == |ms| + 1
    requires forall i :: j <= i < k ==> xs[i + 1].zone.enabled == xs[i].zone.enabled || Switches(ms[i])
    ensures xs[k].zone.enabled == xs[j].zone.enabled || exists i :: j <= i < k && Switches(ms[i])
    decreases k
  {
    if j < k {
      SwitchThroughout(xs, ms, j, k - 1);
      assert xs[k - 1 + 1].zone.enabled == xs[k - 1].zone.enabled || Switches(ms[k - 1]);
    }
  }

  /**
   In every run, what the last write stored is what the zone has now: everything but a command
   anchor still in memory, a rollover of the counter, and a switch that was flipped since.
   */
  lemma ImageIsCurrent(cfg: Config, cal: Calendar, xs: seq<Snapshot>, ms: seq<Move>, j: nat, k: nat)
    requires IsRun(cfg, cal, xs, ms)
    requires j <= k < |xs|
    requires forall i :: j <= i < k ==> !Writes(cfg, cal, xs[i], ms[i])
    ensures Kept(xs[j], xs[k])
    ensures xs[k].zone.enabled == xs[j].zone.enabled || exists i :: j <= i < k && Switches(ms[i])
  {
    forall i | j <= i < k
      ensures Kept(xs[i], xs[i + 1])
      ensures xs[i + 1].zone.enabled == xs[i].zone.enabled || Switches(ms[i])
    {
      QuietMove(cfg, cal, xs, ms, i);
    }
    KeptThroughout(xs, j, k);
    SwitchThroughout(xs, ms, j, k);
  }

  // ----- resuming -------------------------------------------------------------------------------------

  /** Faults that belong to the actuator's record rather than to the zone. */
  predicate OnRecord(fault: Option<FaultCode>) {
    && fault.Some?
    && (fault.value.ActuatorUnavailable? || fault.value.ActuatorOnTimeout? || fault.value.ActuatorOffTimeout?
        || fault.value.RestoredFromUnsafeState?)
  }

  function RecordFault(z: Zone): Option<FaultCode> {
    if OnRecord(z.activeFault) then z.activeFault
    else if OnRecord(z.secondaryFault) then z.secondaryFault
    else None
  }

  function ZonePart(fault: Option<FaultCode>): Option<FaultCode> {
    if OnRecord(fault) then None else fault
  }

  /** The reason a restart restores: only OFF exhaustion in FAULT has a known one. */
  function RestoredReason(z: Zone): Option<Reason> {
    if z.state.Fault? && RecordFault(z) == Some(ActuatorOffTimeout) then Some(ActuatorFault) else None
  }

  /** The zone as the next run attaches it. */
  function Resumed(z: Zone): Zone {
    var record := RecordFault(z);
    var zonal := ZonePart(z.activeFault);
    var second := ZonePart(z.secondaryFault);
    z.(session := if z.session.Some? then Some(Stripped(z.session.value).(pending := RestoredReason(z))) else None,
    activeFault := if record.Some? then record else zonal,
    secondaryFault := if record.Some? && second.None? then zonal else second,
    armed := None, timers := map[], externalOn := false, onRequested := false, offRequested := false, pendingManual := None)
  }

  /** What the observer still knows of a resumed zone. */
  function ResumedHistory(h: History): History {
    h.(newest := None, generations := [])
  }

  /** The events that startup dispatches; a soak is trusted only after a run that ended clean. */
  predicate StartsUp(z: Zone, e: Event) {
    match z.state
    case Watering => e.StartupPersistedWatering?
    case Soaking =>
      && e.StartupPersistedSoaking?
      && (e.trusted ==> e.currentRunId.Some? && z.session.Some? && z.session.value.pending.None?)
    case _ => false
  }

  /** The session waits for OFF proof but nothing restores its reason. */
  predicate LosesReason(z: Zone) {
    z.session.Some? && (z.state.Disabled? || z.state.Fault?) && RestoredReason(z).None?
  }

  /**
   A resting zone resumes soundly exactly when no reason is lost. After the loss, the OFF
   proof the session waits for raises.
   */
  lemma RestingZoneResumes(cfg: Config, z: Zone)
    requires CoreInv(cfg, CoreOfZone(z)) && SecondarySound(z)
    requires !z.state.Watering? && !z.state.Soaking?
    ensures CoreInv(cfg, CoreOfZone(Resumed(z))) <==> !LosesReason(z)
  {
  }

  lemma LostReasonRaises(cfg: Config, cal: Calendar, z: Zone, s: Stimulus)
    requires CoreInv(cfg, CoreOfZone(z)) && !z.state.Watering? && !z.state.Soaking? && z.session.Some?
    requires s.event.OffConfirmed?
    ensures DecisionFor(cfg, cal, Resumed(z), s) == Raise(MissingReason) <==> LosesReason(z)
  {
  }

  /** Switching a zone off while it waits for OFF proof is enough to lose the reason. */
  lemma SwitchedOffLosesReason(inp: Input)
    requires inp.state.Fault? && inp.event.DisableRequested? && inp.session.Some?
    requires CoreInv(inp.config, CoreOf(inp))
    ensures Decide(inp).Ok?
    ensures forall z: Zone :: CoreOfZone(z) == CoreAfter(inp, Decide(inp).value) ==> LosesReason(z)
  {
  }

  /**
   A restart keeps the reason a resting session waits with exactly when it is an actuator fault
   and is not lost; restart recovery is never kept.
   */
  lemma RestartKeepsReasonExactly(cfg: Config, z: Zone)
    requires CoreInv(cfg, CoreOfZone(z)) && (z.state.Fault? || z.state.Disabled?) && z.session.Some?
    ensures Resumed(z).session.Some?
    ensures Resumed(z).session.value.pending == z.session.value.pending <==>
            z.session.value.pending == Some(ActuatorFault) && !LosesReason(z)
    ensures z.session.value.pending == Some(RestartRecovery) && !LosesReason(z) <==>
            Resumed(z).session.value.pending.Some? && Resumed(z).session.value.pending != z.session.value.pending
  {
  }

  /** The charge of an OFF at `at` for a session that waits with the given reason. */
  function ChargeAt(s: Session, at: Time): Time {
    if s.pending.Some? then ClosingCharge(s, at, s.pending.value) else 0
  }

  /**
   What a second restart costs: recovery charges from the intent, the actuator fault it turns
   into from the command. With the anchors of every run that is the time between the two, or
   the whole pulse if it was never commanded.
   */
  lemma SecondRestartForgetsRecovery(cfg: Config, z: Zone, at: Time, charges: seq<Interval>)
    requires CoreInv(cfg, CoreOfZone(z)) && (z.state.Fault? || z.state.Disabled?) && z.session.Some?
    requires !LosesReason(z) && AnchorsFit(z.session, charges)
    ensures var s := z.session.value;
            ChargeAt(s, at) - ChargeAt(Resumed(z).session.value, at)
            == if s.pending != Some(RestartRecovery) then 0
               else if s.commandedAt.None? then Max(0, at - s.intentAt.value)
               else Max(0, Min(at, s.commandedAt.value) - s.intentAt.value)
  {
  }

  /** OFF exhaustion during recovery is all it takes: the next restart forgets the recovery. */
  lemma ExhaustedRecoveryIsForgotten(inp: Input)
    requires inp.state.Watering? && inp.event.OffNotConfirmed?
    requires inp.session.Some? && inp.session.value.pending == Some(RestartRecovery)
    requires CoreInv(inp.config, CoreOf(inp))
    ensures Decide(inp).Ok?
    ensures forall z: Zone :: CoreOfZone(z) == CoreAfter(inp, Decide(inp).value) ==>
                                && z.session.Some? && z.session.value.pending == Some(RestartRecovery)
                                && Resumed(z).session.value.pending == Some(ActuatorFault)
  {
  }

  /** A zone switched off while it waits for OFF proof. */
  const SPEECHLESS: Zone := Zone(
    Disabled, false, Some(SESSION_EXAMPLE), Some(ActuatorOffTimeout), None, Daily(0, 0), None, None, None, None, map[],
    false, false, false, None, [])

  /** After a restart the OFF proof it waits for raises. */
  lemma LostReasonExample(cal: Calendar, s: Stimulus)
    requires s.event == OffConfirmed(9)
    ensures CoreInv(CONFIG_EXAMPLE, CoreOfZone(SPEECHLESS)) && LosesReason(SPEECHLESS)
    ensures DecisionFor(CONFIG_EXAMPLE, cal, Resumed(SPEECHLESS), s) == Raise(MissingReason)
  {
    LostReasonRaises(CONFIG_EXAMPLE, cal, SPEECHLESS, s);
  }

  const FORGETFUL: Zone := Zone(
    Fault, true,
    Some(SESSION_EXAMPLE.(intentAt := Some(0), commandedAt := Some(4), pending := Some(RestartRecovery))),
    Some(ActuatorOffTimeout), None, Daily(0, 0), None, None, None, None, map[], false, false, false, None, [])

  /** A sound zone whose second restart costs four microseconds of charge. */
  lemma ForgetfulExample()
    ensures CoreInv(CONFIG_EXAMPLE, CoreOfZone(FORGETFUL)) && !LosesReason(FORGETFUL)
    ensures ChargeAt(FORGETFUL.session.value, 9) == 9 && ChargeAt(Resumed(FORGETFUL).session.value, 9) == 5
  {
  }

  lemma WateringStarts(inp: Input, s: Session, finding: Finding)
    requires inp.config.Sound() && inp.state.Watering? && inp.session == Some(s)
    requires SessionSound(inp.config, s) && s.offAt.None?
    ensures Answers(inp, StartupWatering(inp, s, finding))
    ensures Announces(StartupWatering(inp, s, finding).value)
  {
    if finding.FoundOff? {
      var recovering := s.(pending := Some(RestartRecovery), estimated := true, estimation := RestartFoundOffUnknownStop);
      FinalizeAnswers(inp, recovering, RestartRecovery, inp.now, []);
      var d := StartupWatering(inp, s, finding).value;
      assert OnlyAt(d.actions, EmitSessionFinished, 3);
    }
  }

  lemma SoakingStarts(inp: Input, s: Session, trusted: bool, runId: Option<string>, unsafeFault: Option<FaultCode>)
    requires inp.config.Sound() && inp.state.Soaking? && inp.session == Some(s)
    requires SessionSound(inp.config, s) && s.pending.None? && inp.activeFault.None?
    requires trusted ==> runId.Some? && SoakingSound(inp.config, CoreOf(inp)) && !inp.event.DisableRequested?
    ensures Answers(inp, StartupSoaking(inp, s, trusted, runId, unsafeFault))
    ensures Announces(StartupSoaking(inp, s, trusted, runId, unsafeFault).value)
  {
    if !trusted {
      assert OnlyAt(StartupSoaking(inp, s, trusted, runId, unsafeFault).value.actions, EmitSessionFinished,
                    if unsafeFault.Some? then 2 else 1);
    }
  }

  /** What a startup decision leaves of the pulse: nothing is commanded, and an open pulse keeps its anchors. */
  predicate Carries(inp: Input, d: Decision) {
    && TurnOn !in d.actions && TokenOf(inp, d).None?
    && (forall a :: a in d.actions ==> !a.ArmWatchdog?)
    && (d.clearSession || (d.session.Some? && inp.session.Some?))
    && (d.session.Some? && inp.session.Some? ==>
          && d.session.value.intentAt == inp.session.value.intentAt && d.session.value.offAt == inp.session.value.offAt
          && d.session.value.mode == inp.session.value.mode && d.session.value.cycle == inp.session.value.cycle
          && d.session.value.runtime == inp.session.value.runtime
          && d.session.value.commandedAt == inp.session.value.commandedAt
          && (inp.state.Watering? ==> d.session.value.pending.Some?))
    && (d.clearSession ==> d.finalSession.Some? && !(d.newState == Some(Watering)))
    && (ChargeOf(inp, d).Some? ==> ChargeOf(inp, d).value.end <= inp.now)
    && d.secondaryFault.None?
    && (!inp.state.Watering? ==> d.newState != Some(Watering) && d.newState.Some?)
  }

  lemma WateringCarries(inp: Input, s: Session, finding: Finding)
    requires inp.state.Watering? && inp.session == Some(s) && inp.event.StartupPersistedWatering?
    requires StartupWatering(inp, s, finding).Ok?
    ensures Carries(inp, StartupWatering(inp, s, finding).value)
  {
  }

  lemma SoakingCarries(inp: Input, s: Session, trusted: bool, runId: Option<string>, unsafeFault: Option<FaultCode>)
    requires inp.state.Soaking? && inp.session == Some(s) && inp.event.StartupPersistedSoaking?
    requires StartupSoaking(inp, s, trusted, runId, unsafeFault).Ok?
    ensures Carries(inp, StartupSoaking(inp, s, trusted, runId, unsafeFault).value)
  {
  }

  ghost predicate StartedUp(inp: Input, o: Outcome<Decision>) {
    Answers(inp, o) && Announces(o.value) && Carries(inp, o.value)
  }

  lemma StartupFromWatering(inp: Input)
    requires inp.config.Sound() && inp.state.Watering? && inp.event.StartupPersistedWatering?
    requires inp.session.Some? && SessionSound(inp.config, inp.session.value) && inp.session.value.offAt.None?
    ensures StartedUp(inp, Decide(inp))
  {
    WateringStarts(inp, inp.session.value, inp.event.finding);
    WateringCarries(inp, inp.session.value, inp.event.finding);
  }

  lemma StartupFromSoaking(inp: Input)
    requires inp.config.Sound() && inp.state.Soaking? && inp.event.StartupPersistedSoaking?
    requires inp.activeFault.None?
    requires inp.session.Some? && SessionSound(inp.config, inp.session.value) && inp.session.value.pending.None?
    requires inp.event.trusted ==> inp.event.currentRunId.Some? && SoakingSound(inp.config, CoreOf(inp))
    ensures StartedUp(inp, Decide(inp))
  {
    SoakingStarts(inp, inp.session.value, inp.event.trusted, inp.event.currentRunId, inp.event.unsafeFault);
    SoakingCarries(inp, inp.session.value, inp.event.trusted, inp.event.currentRunId, inp.event.unsafeFault);
  }

  /** The startup decision of a sound zone is answered, announced and carries the pulse. */
  lemma StartupDecision(cfg: Config, cal: Calendar, z: Zone, s: Stimulus)
    requires cfg.Sound() && CoreInv(cfg, CoreOfZone(z)) && SecondarySound(z) && StartsUp(z, s.event)
    ensures StartedUp(InputFor(cfg, cal, Resumed(z), s), DecisionFor(cfg, cal, Resumed(z), s))
    ensures Responded(cfg, cal, Resumed(z), s)
         == Effect(cal, Prepared(cal, Resumed(z), s), DecisionFor(cfg, cal, Resumed(z), s).value,
                   InputFor(cfg, cal, Resumed(z), s))
  {
    var inp := InputFor(cfg, cal, Resumed(z), s);
    if z.state.Watering? {
      StartupFromWatering(inp);
    } else {
      StartupFromSoaking(inp);
    }
  }

  lemma CarriedInv(cfg: Config, cal: Calendar, x: Snapshot, z: Zone, inp: Input, d: Decision)
    requires cal.Sound() && inp.config == cfg && !inp.event.OffConfirmed? && !inp.event.ExternalActuatorOff?
    requires !inp.event.MoistureReport?
    requires SecondarySound(x.zone) && PulsesFit(cfg.soak, x.zone.session, x.history.pulses)
    requires CounterFits(cal, x.zone.daily, x.history.clock, x.history.charges)
    requires AnchorsFit(x.zone.session, x.history.charges)
    requires Finishes(x.zone.log) == Announced(x.history.closings)
    requires Readied(cal, x, z, inp) && x.history.generations == []
    requires Answers(inp, Ok(d)) && Announces(d) && Carries(inp, d)
    ensures Inv(cfg, cal, Snapshot(Effect(cal, z, d, inp), NextHistory(x.history, inp, d)))
  {
    EffectCore(cal, z, d, inp);
    CounterPartKept(cal, x, z, inp, d);
    LogPartKept(cal, x, z, inp, d);
  }

  lemma ResumeReadies(cfg: Config, cal: Calendar, x: Snapshot, s: Stimulus)
    requires x.history.clock <= s.now && !s.event.EnableRequested? && !s.event.DisableRequested?
    ensures var y := Snapshot(Resumed(x.zone), ResumedHistory(x.history));
            Readied(cal, y, Prepared(cal, y.zone, s), InputFor(cfg, cal, y.zone, s))
    ensures SecondarySound(x.zone) ==> SecondarySound(Resumed(x.zone))
    ensures PulsesFit(cfg.soak, x.zone.session, x.history.pulses) ==>
              PulsesFit(cfg.soak, Resumed(x.zone).session, x.history.pulses)
  {
  }

  /** A zone that was watering or soaking resumes as the next step of the same history. */
  lemma ActiveZoneResumes(cfg: Config, cal: Calendar, x: Snapshot, s: Stimulus)
    requires cfg.Sound() && cal.Sound()
    requires Inv(cfg, cal, x) && x.history.clock <= s.now && StartsUp(x.zone, s.event)
    ensures var y := Snapshot(Resumed(x.zone), ResumedHistory(x.history));
            var o := DecisionFor(cfg, cal, y.zone, s);
            && Answers(InputFor(cfg, cal, y.zone, s), o)
            && Inv(cfg, cal, Snapshot(Responded(cfg, cal, y.zone, s),
                                      NextHistory(y.history, InputFor(cfg, cal, y.zone, s), o.value)))
  {
    var y := Snapshot(Resumed(x.zone), ResumedHistory(x.history));
    StartupDecision(cfg, cal, x.zone, s);
    ResumeReadies(cfg, cal, x, s);
    CarriedInv(cfg, cal, y, Prepared(cal, y.zone, s), InputFor(cfg, cal, y.zone, s), DecisionFor(cfg, cal, y.zone, s).value);
  }

  /** A resting zone that loses no reason resumes where it was. */
  lemma RestingRunResumes(cfg: Config, cal: Calendar, x: Snapshot)
    requires Inv(cfg, cal, x) && !x.zone.state.Watering? && !x.zone.state.Soaking?
    requires !LosesReason(x.zone)
    ensures Inv(cfg, cal, Snapshot(Resumed(x.zone), ResumedHistory(x.history)))
  {
    RestingZoneResumes(cfg, x.zone);
  }
}
