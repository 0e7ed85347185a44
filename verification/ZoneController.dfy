/**
 One zone's controller: it gathers the facts of an event, asks the state machine for a
 decision, and writes the decision back into its own fields and into the shared slots.

 `Zone` is the value the controller's fields amount to. The class works on the fields and
 is proved to compute the functions on values.
 */
module ZoneControl {
  import opened Vocabulary
  import opened StateMachine
  import opened Accounting
  import opened SlotManagement

  datatype Emission =
    | Started(id: string, mode: Mode)
    | Finished(reason: Option<Reason>, summary: Option<Summary>)
    | FaultSet(fault: FaultCode, superseded: Option<FaultCode>)
    | FaultCleared(fault: FaultCode)

  datatype Zone = Zone(
    state: State,
    enabled: bool,
    session: Option<Session>,
    activeFault: Option<FaultCode>,
    secondaryFault: Option<FaultCode>,
    daily: Daily,
    lastSessionEnd: Option<Time>,
    lastAutoStart: Option<Time>,
    summary: Option<Summary>,
    armed: Option<Token>,
    timers: map<TimerKind, Time>,
    externalOn: bool,
    onRequested: bool,
    offRequested: bool,
    pendingManual: Option<ManualDuration>,
    log: seq<Emission>)

  /** What the world contributes to one event. */
  datatype Stimulus = Stimulus(
    now: Time,
    observation: Observation,
    actuator: Assessment,
    slotGranted: bool,
    blockersEmpty: bool,
    identity: Identity,
    event: Event)

  /** The enable switch flips in the same critical section that dispatches its event. */
  function Switched(z: Zone, event: Event): Zone {
    if event.EnableRequested? then z.(enabled := true)
    else if event.DisableRequested? then z.(enabled := false)
    else z
  }

  /** Looking at the daily counter rolls it over. */
  function Rolled(cal: Calendar, z: Zone, now: Time): Zone {
    z.(daily := CurrentDaily(cal, z.daily, now))
  }

  function BuildInput(cfg: Config, z: Zone, s: Stimulus): Input {
    Input(s.now, cfg, z.state, z.enabled, z.session, z.activeFault, z.secondaryFault, s.observation,
          z.daily.runtime, z.lastSessionEnd, s.actuator, s.slotGranted, s.blockersEmpty, z.armed, s.event,
          z.externalOn, Some(s.identity))
  }

  /** A closure carries the closed session and a reason; the controller asserts as much. */
  predicate Applicable(d: Decision) {
    d.clearSession ==> d.finalSession.Some? && d.reason.Some?
  }

  function RuntimeOf(s: Option<Session>): Time {
    if s.Some? then s.value.runtime else 0
  }

  function WithSession(z: Zone, d: Decision, inp: Input): Zone {
    z.(session := if d.clearSession then None else if d.session.Some? then d.session else z.session,
    lastAutoStart := if d.session.Some? && inp.session.None? && d.session.value.mode.Auto?
    then Some(d.session.value.startedAt) else z.lastAutoStart)
  }

  function WithFaults(z: Zone, d: Decision): Zone {
    z.(activeFault := if d.clearFault then None else if d.fault.Some? then d.fault else z.activeFault,
    secondaryFault := if d.secondaryFault.Some? then d.secondaryFault else z.secondaryFault)
  }

  /** The session, state and faults a decision hands over. */
  function Adopted(z: Zone, d: Decision, inp: Input): Zone {
    WithFaults(WithSession(z, d, inp), d).(state := if d.newState.Some? then d.newState.value else z.state)
  }

  function ClosedBy(d: Decision): Option<Session> {
    if d.clearSession then d.finalSession else None
  }

  /** The interval runtime growth is charged for, if the session grew. */
  function ChargedInterval(grown: Option<Session>, inp: Input): (r: Option<Interval>)
    ensures r.Some? ==> r.value.start < r.value.end
  {
    if grown.None? || grown.value.runtime <= RuntimeOf(inp.session) then None
    else
      var end := if grown.value.offAt.Some? then grown.value.offAt.value else inp.now;
      Some(Interval(end - (grown.value.runtime - RuntimeOf(inp.session)), end))
  }

  /** Runtime growth of the open session, or of the one just closed, is charged to local days. */
  function Settled(cal: Calendar, z: Zone, d: Decision, inp: Input): Zone {
    match ChargedInterval(if z.session.Some? then z.session else ClosedBy(d), inp)
    case None => z
    case Some(i) => z.(daily := ChargeDaily(cal, z.daily, inp.now, i.end - i.start, i.end))
  }

  function SummaryOf(closed: Session, reason: Reason, now: Time): Summary {
    Summary(closed.mode, reason, closed.runtime, closed.estimated, closed.estimation, closed.requested,
            closed.effective, closed.clampReasons, closed.cycle, closed.moistureAtStart, closed.lastRecheck,
            closed.startedAt, if closed.offAt.Some? then closed.offAt.value else now)
  }

  /** A closed session leaves its summary, and its end resets the minimum interval. */
  function Summarized(z: Zone, d: Decision, now: Time): Zone
    requires Applicable(d)
  {
    if !d.clearSession then z
    else
      var summary := SummaryOf(d.finalSession.value, d.reason.value, now);
      z.(summary := Some(summary), lastSessionEnd := Some(summary.endedAt))
  }

  /** The timers that the state just left, or a confirmed ON, leave without a purpose. */
  function Expired(from: State, state: State, session: Option<Session>): set<TimerKind> {
    (if from.Watering? && !state.Watering? then {PulseEnd, ManualEnd, OnConfirmDeadline} else {})
    + (if from.Soaking? && !state.Soaking? then {SoakEnd, Grace} else {})
    + (if session.Some? && session.value.confirmedAt.Some? then {OnConfirmDeadline} else {})
  }

  function Housekept(z: Zone, inp: Input): Zone {
    z.(timers := z.timers - Expired(inp.state, z.state, z.session))
  }

  /** A manual request that must wait for the slot is remembered with its duration. */
  function Remembered(z: Zone, d: Decision, inp: Input): Zone {
    if inp.event.ManualStartRequested? && RequestSlot in d.actions then
      z.(pendingManual := Some(inp.event.request))
    else z
  }

  /** Everything a decision changes before its actions run. */
  function Applied(cal: Calendar, z: Zone, d: Decision, inp: Input): Zone
    requires Applicable(d)
  {
    Remembered(Housekept(Summarized(Settled(cal, Adopted(z, d, inp), d, inp), d, inp.now), inp), d, inp)
  }

  /** What an action changes in the zone itself. */
  function Perform(z: Zone, a: Action, reason: Option<Reason>): Zone {
    match a
    case TurnOn => z.(onRequested := true)
    case ExecuteOff(_) => z.(offRequested := true)
    case ArmWatchdog(token) => z.(armed := Some(token))
    case ArmTimer(kind, at) => z.(timers := z.timers[kind := at])
    case SetExternalOn(value) => z.(externalOn := value)
    case EmitSessionStarted =>
      if z.session.Some? then z.(log := z.log + [Started(z.session.value.id, z.session.value.mode)]) else z
    case EmitSessionFinished => z.(log := z.log + [Finished(reason, z.summary)])
    case EmitFaultSet(fault, superseded) => z.(log := z.log + [FaultSet(fault, superseded)])
    case EmitFaultCleared(fault) => z.(log := z.log + [FaultCleared(fault)])
    case _ => z
  }

  function PerformAll(z: Zone, actions: seq<Action>, reason: Option<Reason>): Zone
    decreases |actions|
  {
    if actions == [] then z else PerformAll(Perform(z, actions[0], reason), actions[1..], reason)
  }

  /** What an action changes in the shared slots, Store writes succeeding. */
  function PerformOnSlots(s: Slots, id: string, a: Action): (r: Slots)
    requires s.WellFormed()
    ensures r.WellFormed()
  {
    match a
    case ReleaseSlot =>
      TryGrantKeeps(s.(owner := None));
      CancelRequestKeeps(Release(s, id), id);
      CancelRequest(Release(s, id), id)
    case AddBlocker(reason) => FinishAdd(BeginAdd(s, Key(id, reason)), Key(id, reason), true)
    case RemoveBlocker(reason) =>
      var key := Key(id, reason);
      if key in s.blockers then
        TryGrantKeeps(s.(blockers := s.blockers - {key}, unpersisted := s.unpersisted - {key}));
        FinishRemove(s, key, true)
      else s
    case _ => s
  }

  function PerformAllOnSlots(s: Slots, id: string, actions: seq<Action>): (r: Slots)
    requires s.WellFormed()
    ensures r.WellFormed()
    decreases |actions|
  {
    if actions == [] then s else PerformAllOnSlots(PerformOnSlots(s, id, actions[0]), id, actions[1..])
  }

  /** The zone as the state machine sees it for this stimulus. */
  function Prepared(cal: Calendar, z: Zone, s: Stimulus): Zone {
    Rolled(cal, Switched(z, s.event), s.now)
  }

  function DecisionFor(cfg: Config, cal: Calendar, z: Zone, s: Stimulus): Outcome<Decision> {
    Decide(BuildInput(cfg, Prepared(cal, z, s), s))
  }

  /** A decision carried out in full. */
  function Effect(cal: Calendar, z: Zone, d: Decision, inp: Input): Zone
    requires Applicable(d)
  {
    if d.noOp then z else PerformAll(Applied(cal, z, d, inp), d.actions, d.reason)
  }

  /** One event, from dispatch to the last of its actions. */
  function Stepped(cfg: Config, cal: Calendar, z: Zone, s: Stimulus): Zone
    requires DecisionFor(cfg, cal, z, s).Ok? && Applicable(DecisionFor(cfg, cal, z, s).value)
  {
    var ready := Prepared(cal, z, s);
    var inp := BuildInput(cfg, ready, s);
    var d := Decide(inp).value;
    Effect(cal, ready, d, inp)
  }

  // ----- the controller ---------------------------------------------------------------------

  class ZoneController {
    const id: string
    const cfg: Config
    const cal: Calendar
    const slots: SlotManager

    var state: State
    var enabled: bool
    var session: Option<Session>
    var activeFault: Option<FaultCode>
    var secondaryFault: Option<FaultCode>
    var daily: Daily
    var lastSessionEnd: Option<Time>
    var lastAutoStart: Option<Time>
    var summary: Option<Summary>
    var armed: Option<Token>
    var timers: map<TimerKind, Time>
    var externalOn: bool
    var onRequested: bool
    var offRequested: bool
    var pendingManual: Option<ManualDuration>
    var log: seq<Emission>

    ghost function View(): Zone
      reads this
    {
      Zone(state, enabled, session, activeFault, secondaryFault, daily, lastSessionEnd, lastAutoStart, summary,
           armed, timers, externalOn, onRequested, offRequested, pendingManual, log)
    }

    /** A zone that was never configured before starts switched off. */
    constructor (id: string, cfg: Config, cal: Calendar, slots: SlotManager, today: int)
      ensures this.id == id && this.cfg == cfg && this.cal == cal && this.slots == slots
      ensures View() == Zone(Disabled, false, None, None, None, Daily(today, 0), None, None, None, None,
                             map[], false, false, false, None, [])
    {
      this.id, this.cfg, this.cal, this.slots := id, cfg, cal, slots;
      state, enabled, session := Disabled, false, None;
      activeFault, secondaryFault := None, None;
      daily := Daily(today, 0);
      lastSessionEnd, lastAutoStart, summary, armed, timers := None, None, None, None, map[];
      externalOn, onRequested, offRequested := false, false, false;
      pendingManual, log := None, [];
    }

    method Current(now: Time) returns (current: Daily)
      modifies this`daily
      ensures current == daily == CurrentDaily(cal, old(daily), now)
    {
      var today := cal.dayOf(now);
      if daily.date != today {
        daily := Daily(today, 0);
      }
      current := daily;
    }

    method ChargeRuntime(now: Time, delta: Time, end: Time)
      requires 0 <= delta
      modifies this`daily
      ensures daily == ChargeDaily(cal, old(daily), now, delta, end)
    {
      var current := Current(now);
      var segments := SplitByLocalDays(cal, end - delta, end);
      var charge := 0;
      for i := 0 to |segments|
        invariant charge + OnDay(segments[i..], current.date) == OnDay(segments, current.date)
      {
        assert segments[i..][1..] == segments[i + 1..];
        if segments[i].day == current.date {
          charge := charge + segments[i].length;
        }
      }
      if charge > 0 {
        daily := Daily(current.date, current.runtime + charge);
      }
    }

    method Emit(e: Emission)
      modifies this`log
      ensures log == old(log) + [e]
    {
      log := log + [e];
    }

    /** The events an action asks for. */
    method ApplyEmission(a: Action, reason: Option<Reason>)
      requires a.EmitSessionStarted? || a.EmitSessionFinished? || a.EmitFaultSet? || a.EmitFaultCleared?
      modifies this`log
      ensures View() == Perform(old(View()), a, reason)
    {
      match a
      case EmitSessionStarted =>
        if session.Some? {
          Emit(Started(session.value.id, session.value.mode));
        }
      case EmitSessionFinished => Emit(Finished(reason, summary));
      case EmitFaultSet(fault, superseded) => Emit(FaultSet(fault, superseded));
      case EmitFaultCleared(fault) => Emit(FaultCleared(fault));
    }

    method ApplyToZone(a: Action, reason: Option<Reason>)
      modifies this
      ensures View() == Perform(old(View()), a, reason)
    {
      match a
      case TurnOn => onRequested := true;
      case ExecuteOff(_) => offRequested := true;
      case ArmWatchdog(token) => armed := Some(token);
      case ArmTimer(kind, at) => timers := timers[kind := at];
      case SetExternalOn(value) => externalOn := value;
      case EmitSessionStarted => ApplyEmission(a, reason);
      case EmitSessionFinished => ApplyEmission(a, reason);
      case EmitFaultSet(_, _) => ApplyEmission(a, reason);
      case EmitFaultCleared(_) => ApplyEmission(a, reason);
      case _ =>
    }

    method ApplyToSlots(a: Action)
      requires slots.View().WellFormed()
      modifies slots
      ensures slots.View() == PerformOnSlots(old(slots.View()), id, a)
    {
      match a
      case ReleaseSlot =>
        var released := slots.ReleaseBy(id);
        slots.CancelRequestOf(id);
      case AddBlocker(reason) =>
        var writes := slots.BeginAddBlocker(Key(id, reason));
        if writes {
          slots.FinishAddBlocker(Key(id, reason), true);
        }
      case RemoveBlocker(reason) =>
        if Key(id, reason) in slots.blockers {
          slots.FinishRemoveBlocker(Key(id, reason), true);
        }
      case _ =>
    }

    method AdoptSession(d: Decision, inp: Input)
      modifies this
      ensures View() == WithSession(old(View()), d, inp)
    {
      if d.session.Some? && inp.session.None? && d.session.value.mode.Auto? {
        lastAutoStart := Some(d.session.value.startedAt);
      }
      if d.session.Some? {
        session := d.session;
      }
      if d.clearSession {
        session := None;
      }
    }

    method AdoptFaults(d: Decision)
      modifies this
      ensures View() == WithFaults(old(View()), d)
    {
      if d.fault.Some? {
        activeFault := d.fault;
      }
      if d.clearFault {
        activeFault := None;
      }
      if d.secondaryFault.Some? {
        secondaryFault := d.secondaryFault;
      }
    }

    /** Take over the session, state and faults of a decision. */
    method Adopt(d: Decision, inp: Input)
      modifies this
      ensures View() == Adopted(old(View()), d, inp)
    {
      AdoptSession(d, inp);
      AdoptFaults(d);
      if d.newState.Some? {
        state := d.newState.value;
      }
    }

    method Settle(d: Decision, inp: Input)
      modifies this
      ensures View() == Settled(cal, old(View()), d, inp)
    {
      var grown := if session.Some? then session else ClosedBy(d);
      if grown.Some? && grown.value.runtime > RuntimeOf(inp.session) {
        var end := if grown.value.offAt.Some? then grown.value.offAt.value else inp.now;
        ChargeRuntime(inp.now, grown.value.runtime - RuntimeOf(inp.session), end);
      }
    }

    method Summarize(d: Decision, now: Time)
      requires Applicable(d)
      modifies this
      ensures View() == Summarized(old(View()), d, now)
    {
      if d.clearSession {
        summary := Some(SummaryOf(d.finalSession.value, d.reason.value, now));
        lastSessionEnd := Some(summary.value.endedAt);
      }
    }

    method Housekeep(inp: Input)
      modifies this
      ensures View() == Housekept(old(View()), inp)
    {
      timers := timers - Expired(inp.state, state, session);
    }

    /** The synchronous part of applying a decision. */
    method ApplyFields(d: Decision, inp: Input)
      requires Applicable(d)
      modifies this
      ensures View() == Applied(cal, old(View()), d, inp)
    {
      Adopt(d, inp);
      Settle(d, inp);
      Summarize(d, inp.now);
      Housekeep(inp);
      if inp.event.ManualStartRequested? && RequestSlot in d.actions {
        pendingManual := Some(inp.event.request);
      }
    }

    method ApplyLocked(d: Decision, inp: Input)
      requires Applicable(d)
      requires slots.View().WellFormed()
      modifies this, slots
      ensures View() == Effect(cal, old(View()), d, inp)
      ensures d.noOp ==> slots.View() == old(slots.View())
      ensures !d.noOp ==> slots.View() == PerformAllOnSlots(old(slots.View()), id, d.actions)
    {
      if d.noOp {
        return;
      }
      ApplyFields(d, inp);
      ghost var before := View();
      for i := 0 to |d.actions|
        invariant slots.View().WellFormed()
        invariant PerformAll(View(), d.actions[i..], d.reason) == PerformAll(before, d.actions, d.reason)
        invariant PerformAllOnSlots(slots.View(), id, d.actions[i..])
               == PerformAllOnSlots(old(slots.View()), id, d.actions)
      {
        assert d.actions[i..][0] == d.actions[i] && d.actions[i..][1..] == d.actions[i + 1..];
        ApplyToZone(d.actions[i], d.reason);
        ApplyToSlots(d.actions[i]);
      }
    }

    /** Gather the facts of an event. */
    method Facts(now: Time, observation: Observation, actuator: Assessment, identity: Identity, event: Event)
      returns (s: Stimulus)
      ensures s == Stimulus(now, observation, actuator, slots.owner == Some(id), slots.blockers == {}, identity, event)
    {
      s := Stimulus(now, observation, actuator, slots.owner == Some(id), slots.blockers == {}, identity, event);
    }

    /** Everything about the zone that happens before the decision. */
    method Prepare(s: Stimulus) returns (inp: Input)
      modifies this
      ensures View() == Prepared(cal, old(View()), s)
      ensures inp == BuildInput(cfg, View(), s)
    {
      if s.event.EnableRequested? {
        enabled := true;
      } else if s.event.DisableRequested? {
        enabled := false;
      }
      var current := Current(s.now);
      inp := Input(s.now, cfg, state, enabled, session, activeFault, secondaryFault, s.observation,
                   current.runtime, lastSessionEnd, s.actuator, s.slotGranted, s.blockersEmpty,
                   armed, s.event, externalOn, Some(s.identity));
    }

    /** Dispatch one event under the zone lock. Raising leaves the slots alone. */
    method DecideAndApply(s: Stimulus) returns (outcome: Outcome<Decision>)
      requires slots.View().WellFormed()
      requires DecisionFor(cfg, cal, View(), s).Ok? ==> Applicable(DecisionFor(cfg, cal, View(), s).value)
      modifies this, slots
      ensures outcome == DecisionFor(cfg, cal, old(View()), s)
      ensures outcome.Ok? ==> View() == Stepped(cfg, cal, old(View()), s)
      ensures outcome.Ok? && !outcome.value.noOp ==>
                slots.View() == PerformAllOnSlots(old(slots.View()), id, outcome.value.actions)
      ensures outcome.Raise? || outcome.value.noOp ==> slots.View() == old(slots.View())
    {
      var inp := Prepare(s);
      outcome := Decide(inp);
      if outcome.Ok? {
        ApplyLocked(outcome.value, inp);
      }
    }
  }
}
