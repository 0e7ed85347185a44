/**
 No pulse without a bound. In every run an open pulse that nothing has ended yet has its
 confirmation deadline or its end timer armed, unless that timer has fired and its event is on the
 way, or OFF has been asked for already.
 */
module ZoneTimers {
  import opened Vocabulary
  import opened StateMachine
  import opened Accounting
  import opened ZoneControl
  import opened ZoneInvariant
  import opened ZoneLaws
  import opened ZoneActions
  import opened ZoneDuties
  import opened ZoneRuns
  import opened ZoneTheorems

  /** The timer whose event this is. */
  function KindOf(e: Event): Option<TimerKind> {
    match e
    case PulseDeadlineReached => Some(PulseEnd)
    case ManualDeadlineReached => Some(ManualEnd)
    case SoakDeadlineReached => Some(SoakEnd)
    case GraceDeadlineReached => Some(Grace)
    case OnConfirmTimeout => Some(OnConfirmDeadline)
    case _ => None
  }

  /** Timer events on their way, and whether OFF was asked for since the pulse began. */
  datatype Watch = Watch(fired: set<TimerKind>, asked: bool)

  function WatchAfter(w: Watch, inp: Input, d: Decision): Watch {
    Watch(
      w.fired - (if KindOf(inp.event).Some? then {KindOf(inp.event).value} else {}),
      if TurnOn in d.actions then false else w.asked || AsksOff(d.actions))
  }

  function NextWatch(cfg: Config, cal: Calendar, x: Snapshot, m: Move, w: Watch): Watch {
    match m
    case Dispatch(s) =>
      var o := DecisionFor(cfg, cal, x.zone, s);
      if o.Ok? then WatchAfter(w, InputFor(cfg, cal, x.zone, s), o.value) else w
    case Elapse(_, kind) => w.(fired := w.fired + {kind})
    case Command(_, _, _) => w
  }

  function EndOf(s: Session): TimerKind {
    if s.mode.Auto? then PulseEnd else ManualEnd
  }

  /** A watering session that no reason has ended yet. */
  predicate Running(c: Core) {
    c.state.Watering? && c.session.Some? && c.session.value.pending.None?
  }

  predicate Armed(timers: map<TimerKind, Time>, kind: TimerKind, at: Time) {
    kind in timers && timers[kind] == at
  }

  /** What bounds a running pulse. */
  predicate Bounded(cfg: Config, s: Session, timers: map<TimerKind, Time>, w: Watch) {
    if s.confirmedAt.None? then
      s.intentAt.Some?
      && (Armed(timers, OnConfirmDeadline, s.intentAt.value + cfg.confirmTimeout) || OnConfirmDeadline in w.fired)
    else
      s.endsAt.Some? && (Armed(timers, EndOf(s), s.endsAt.value) || EndOf(s) in w.fired || w.asked)
  }

  predicate Timed(cfg: Config, c: Core, timers: map<TimerKind, Time>, w: Watch) {
    Running(c) ==> Bounded(cfg, c.session.value, timers, w)
  }

  // ----- what a decision arms --------------------------------------------------------------------------

  /** The list arms this timer, and no other. */
  ghost predicate ArmsOnly(actions: seq<Action>, kind: TimerKind, at: Time) {
    ArmTimer(kind, at) in actions && forall a :: a in actions && a.ArmTimer? ==> a == ArmTimer(kind, at)
  }

  ghost predicate ArmsNone(actions: seq<Action>) {
    forall a :: a in actions ==> !a.ArmTimer?
  }

  /** How the timers follow a session that runs after the decision. */
  ghost predicate TimerLaw(inp: Input, d: Decision) {
    Running(CoreAfter(inp, d)) ==>
      var s := CoreAfter(inp, d).session.value;
      if Starts(d) then
        s.confirmedAt.None? && ArmsOnly(d.actions, OnConfirmDeadline, inp.now + inp.config.confirmTimeout)
      else if inp.event.OnConfirmed? then
        s.confirmedAt.Some? && s.endsAt.Some? && ArmsOnly(d.actions, EndOf(s), s.endsAt.value)
      else
        && inp.session.Some? && ArmsNone(d.actions)
        && s.confirmedAt == inp.session.value.confirmedAt && s.endsAt == inp.session.value.endsAt
        && (inp.event.OnConfirmTimeout? ==> s.confirmedAt.Some?)
        && (KindOf(inp.event) == Some(EndOf(s)) ==> AsksOff(d.actions))
  }

  lemma PulseTimed(inp: Input, continued: Option<Session>)
    requires StartAutoPulse(inp, continued).Ok?
    ensures TimerLaw(inp, StartAutoPulse(inp, continued).value)
  {
    var d := StartAutoPulse(inp, continued).value;
    assert d.actions[3] == ArmTimer(OnConfirmDeadline, inp.now + inp.config.confirmTimeout);
  }

  lemma ManualTimed(inp: Input, request: ManualDuration, row: nat)
    requires !inp.state.Watering? && row in {3, 40} && ManualStart(inp, request, row).Ok?
    ensures TimerLaw(inp, ManualStart(inp, request, row).value)
  {
    var d := ManualStart(inp, request, row).value;
    if Starts(d) {
      assert d.actions[2] == ArmTimer(OnConfirmDeadline, inp.now + inp.config.confirmTimeout);
    }
  }

  lemma IdleTimed(inp: Input)
    requires inp.state.Idle? && DecideIdle(inp).Ok?
    ensures TimerLaw(inp, DecideIdle(inp).value)
  {
    if inp.event.ManualStartRequested? {
      ManualTimed(inp, inp.event.request, 3);
    } else if StartAutoPulse(inp, None).Ok? {
      PulseTimed(inp, None);
    }
  }

  lemma FaultTimed(inp: Input)
    requires inp.state.Fault? && DecideFault(inp).Ok?
    ensures TimerLaw(inp, DecideFault(inp).value)
  {
    if inp.event.ManualStartRequested? {
      ManualTimed(inp, inp.event.request, 40);
    }
  }

  lemma RecheckTimed(inp: Input, s: Session)
    requires inp.state.Soaking? && SoakingRecheck(inp, s).Ok?
    ensures TimerLaw(inp, SoakingRecheck(inp, s).value)
  {
    var updated := s.(lastRecheck := inp.observation.value);
    if StartAutoPulse(inp, Some(updated)).Ok? {
      PulseTimed(inp, Some(updated));
    }
  }

  lemma SoakingTimed(inp: Input)
    requires Regular(inp) && inp.state.Soaking? && !SetupOnly(inp.event) && DecideSoaking(inp).Ok?
    ensures TimerLaw(inp, DecideSoaking(inp).value)
  {
    if SoakingRecheck(inp, inp.session.value).Ok? {
      RecheckTimed(inp, inp.session.value);
    }
  }

  lemma ConfirmedTimed(inp: Input)
    requires Regular(inp) && inp.state.Watering? && inp.event.OnConfirmed? && DecideWatering(inp).Ok?
    ensures TimerLaw(inp, DecideWatering(inp).value)
  {
    var d := DecideWatering(inp).value;
    if inp.session.value.pending.None? {
      assert d.actions[1] == ArmTimer(EndOf(d.session.value), d.session.value.endsAt.value);
    }
  }

  lemma WateringTimed(inp: Input)
    requires Regular(inp) && inp.state.Watering? && !SetupOnly(inp.event) && DecideWatering(inp).Ok?
    requires !inp.event.OnConfirmed? && !inp.event.OffConfirmed? && !inp.event.ExternalActuatorOff?
    ensures TimerLaw(inp, DecideWatering(inp).value)
  {
  }

  lemma WateringExitTimed(inp: Input)
    requires Regular(inp) && inp.state.Watering? && DecideWatering(inp).Ok?
    requires inp.event.OffConfirmed? || inp.event.ExternalActuatorOff?
    ensures !Running(CoreAfter(inp, DecideWatering(inp).value))
  {
  }

  /** Every decision of a sound zone arms what its running session needs, and nothing else. */
  lemma DecideTimed(inp: Input)
    requires Regular(inp)
    ensures Decide(inp).Ok? && TimerLaw(inp, Decide(inp).value)
  {
    DecideAnswers(inp);
    if !SetupOnly(inp.event) {
      match inp.state
      case Idle => IdleTimed(inp);
      case Disabled =>
      case Fault => FaultTimed(inp);
      case Soaking => SoakingTimed(inp);
      case Watering =>
        if inp.event.OnConfirmed? {
          ConfirmedTimed(inp);
        } else if inp.event.OffConfirmed? || inp.event.ExternalActuatorOff? {
          WateringExitTimed(inp);
        } else {
          WateringTimed(inp);
        }
    }
  }

  // ----- what carrying it out leaves armed ---------------------------------------------------------------

  lemma PerformTimers(z: Zone, a: Action, reason: Option<Reason>)
    ensures Perform(z, a, reason).timers == if a.ArmTimer? then z.timers[a.kind := a.at] else z.timers
  {
  }

  lemma {:induction false} PerformAllArmsNone(z: Zone, actions: seq<Action>, reason: Option<Reason>)
    requires ArmsNone(actions)
    ensures PerformAll(z, actions, reason).timers == z.timers
    decreases |actions|
  {
    if actions != [] {
      assert actions[0] in actions;
      PerformTimers(z, actions[0], reason);
      PerformAllArmsNone(Perform(z, actions[0], reason), actions[1..], reason);
    }
  }

  lemma {:induction false} PerformAllArmsOne(z: Zone, actions: seq<Action>, reason: Option<Reason>, kind: TimerKind, at: Time)
    requires forall a :: a in actions && a.ArmTimer? ==> a == ArmTimer(kind, at)
    requires ArmTimer(kind, at) in actions || Armed(z.timers, kind, at)
    ensures Armed(PerformAll(z, actions, reason).timers, kind, at)
    decreases |actions|
  {
    if actions != [] {
      assert actions[0] in actions;
      PerformTimers(z, actions[0], reason);
      assert forall a :: a in actions ==> a == actions[0] || a in actions[1..];
      PerformAllArmsOne(Perform(z, actions[0], reason), actions[1..], reason, kind, at);
    }
  }

  lemma SummarizedTimers(cal: Calendar, z: Zone, d: Decision, inp: Input)
    requires Agrees(z, inp) && Applicable(d)
    ensures var r := Summarized(Settled(cal, Adopted(z, d, inp), d, inp), d, inp.now);
            CoreOfZone(r) == CoreAfter(inp, d) && r.timers == z.timers
  {
    AdoptedCore(z, d, inp);
    SettledCore(cal, Adopted(z, d, inp), d, inp);
  }

  lemma AppliedTimers(cal: Calendar, z: Zone, d: Decision, inp: Input)
    requires Agrees(z, inp) && Applicable(d)
    ensures var c := CoreAfter(inp, d);
            Applied(cal, z, d, inp).timers == z.timers - Expired(inp.state, c.state, c.session)
  {
    SummarizedTimers(cal, z, d, inp);
  }

  /** The timers after a decision that arms nothing. */
  lemma QuietTimers(cal: Calendar, z: Zone, d: Decision, inp: Input)
    requires Agrees(z, inp) && Applicable(d) && (d.noOp ==> d == NO_OP) && ArmsNone(d.actions)
    requires Running(CoreAfter(inp, d))
    ensures forall k :: k in z.timers && !(k == OnConfirmDeadline && CoreAfter(inp, d).session.value.confirmedAt.Some?)
                        && inp.state.Watering? ==>
                          Armed(Effect(cal, z, d, inp).timers, k, z.timers[k])
  {
    if !d.noOp {
      AppliedTimers(cal, z, d, inp);
      PerformAllArmsNone(Applied(cal, z, d, inp), d.actions, d.reason);
    }
  }

  lemma ArmedTimers(cal: Calendar, z: Zone, d: Decision, inp: Input, kind: TimerKind, at: Time)
    requires Applicable(d) && !d.noOp && ArmsOnly(d.actions, kind, at)
    ensures Armed(Effect(cal, z, d, inp).timers, kind, at)
  {
    PerformAllArmsOne(Applied(cal, z, d, inp), d.actions, d.reason, kind, at);
  }

  // ----- runs -------------------------------------------------------------------------------------------------

  lemma EffectTimed(cal: Calendar, z: Zone, inp: Input, d: Decision, w: Watch)
    requires Regular(inp) && Obeys(inp, d) && Answers(inp, Ok(d)) && TimerLaw(inp, d)
    requires Agrees(z, inp) && Timed(inp.config, Core(inp.state, inp.enabled, inp.session, inp.activeFault), z.timers, w)
    ensures Timed(inp.config, CoreAfter(inp, d), Effect(cal, z, d, inp).timers, WatchAfter(w, inp, d))
  {
    var c := CoreAfter(inp, d);
    if Running(c) {
      var s := c.session.value;
      if Starts(d) {
        ArmedTimers(cal, z, d, inp, OnConfirmDeadline, inp.now + inp.config.confirmTimeout);
      } else if inp.event.OnConfirmed? {
        ArmedTimers(cal, z, d, inp, EndOf(s), s.endsAt.value);
      } else {
        assert Running(Core(inp.state, inp.enabled, inp.session, inp.activeFault));
        QuietTimers(cal, z, d, inp);
      }
    }
  }

  ghost predicate IsWatched(cfg: Config, cal: Calendar, xs: seq<Snapshot>, ms: seq<Move>, ws: seq<Watch>) {
    && |ws| == |xs| == |ms| + 1
    && Timed(cfg, CoreOfZone(xs[0].zone), xs[0].zone.timers, ws[0])
    && forall k :: 0 <= k < |ms| ==> ws[k + 1] == NextWatch(cfg, cal, xs[k], ms[k], ws[k])
  }

  lemma EffectStaysTimed(cal: Calendar, z: Zone, inp: Input, d: Decision, w: Watch)
    requires Regular(inp) && Obeys(inp, d) && Answers(inp, Ok(d)) && TimerLaw(inp, d)
    requires Agrees(z, inp) && Timed(inp.config, CoreOfZone(z), z.timers, w)
    ensures var r := Effect(cal, z, d, inp); Timed(inp.config, CoreOfZone(r), r.timers, WatchAfter(w, inp, d))
  {
    EffectTimed(cal, z, inp, d, w);
    EffectCore(cal, z, d, inp);
  }

  /** A dispatch, taken apart: what is asked, what is answered, and the zone it meets. */
  lemma Taken(cfg: Config, cal: Calendar, x: Snapshot, s: Stimulus, w: Watch) returns (inp: Input, d: Decision, ready: Zone)
    requires cfg.Sound() && Inv(cfg, cal, x) && Allowed(cfg, cal, x, Dispatch(s))
    ensures inp.config == cfg && Regular(inp) && Obeys(inp, d) && Answers(inp, Ok(d)) && TimerLaw(inp, d)
    ensures Agrees(ready, inp) && ready.state == x.zone.state && ready.session == x.zone.session && ready.timers == x.zone.timers
    ensures Next(cfg, cal, x, Dispatch(s)).zone == Effect(cal, ready, d, inp)
    ensures NextWatch(cfg, cal, x, Dispatch(s), w) == WatchAfter(w, inp, d)
  {
    DispatchIsRegular(cfg, cal, x, s);
    DispatchFacts(cfg, cal, x.zone, s);
    inp, ready := InputFor(cfg, cal, x.zone, s), Prepared(cal, x.zone, s);
    DecideTimed(inp);
    d := DecisionFor(cfg, cal, x.zone, s).value;
  }

  lemma DispatchTimed(cfg: Config, cal: Calendar, x: Snapshot, s: Stimulus, w: Watch)
    requires cfg.Sound() && Inv(cfg, cal, x) && Allowed(cfg, cal, x, Dispatch(s))
    requires Timed(cfg, CoreOfZone(x.zone), x.zone.timers, w)
    ensures var y := Next(cfg, cal, x, Dispatch(s)).zone;
            Timed(cfg, CoreOfZone(y), y.timers, NextWatch(cfg, cal, x, Dispatch(s), w))
  {
    var inp, d, ready := Taken(cfg, cal, x, s, w);
    EffectStaysTimed(cal, ready, inp, d, w);
  }

  lemma OtherTimed(cfg: Config, cal: Calendar, x: Snapshot, m: Move, w: Watch)
    requires !m.Dispatch? && Timed(cfg, CoreOfZone(x.zone), x.zone.timers, w)
    ensures var y := Next(cfg, cal, x, m); Timed(cfg, CoreOfZone(y.zone), y.zone.timers, NextWatch(cfg, cal, x, m, w))
  {
  }

  /** In every run, every pulse that nothing has ended yet is bounded. */
  lemma {:induction false} PulsesAreBounded(cfg: Config, cal: Calendar, xs: seq<Snapshot>, ms: seq<Move>, ws: seq<Watch>, k: nat)
    requires IsRun(cfg, cal, xs, ms) && IsWatched(cfg, cal, xs, ms, ws)
    requires k < |xs|
    ensures Timed(cfg, CoreOfZone(xs[k].zone), xs[k].zone.timers, ws[k])
  {
    if k > 0 {
      PulsesAreBounded(cfg, cal, xs, ms, ws, k - 1);
      RunKeepsInv(cfg, cal, xs, ms, k - 1);
      match ms[k - 1]
      case Dispatch(s) => DispatchTimed(cfg, cal, xs[k - 1], s, ws[k - 1]);
      case _ => OtherTimed(cfg, cal, xs[k - 1], ms[k - 1], ws[k - 1]);
    }
  }
}
