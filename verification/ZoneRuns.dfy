/**
 Whole runs of one zone, for every resource view, clock, report and command the world may
 offer. A history observes each run from outside: the pulses commanded, the reports that
 reached the watchdog, the intervals charged and the sessions closed. The theorems relate
 the zone to that history.
 */
module ZoneRuns {
  import opened Vocabulary
  import opened StateMachine
  import opened Accounting
  import opened ZoneControl
  import opened ZoneInvariant
  import opened ZoneLaws
  import opened ZoneActions

  // ----- moves ------------------------------------------------------------------------------------

  /**
   An event; the note that the ON service was called, which may or may not be written at once;
   or a timer that fires, whose event is dispatched later.
   */
  datatype Move = Dispatch(s: Stimulus) | Command(now: Time, at: Time, written: bool) | Elapse(now: Time, kind: TimerKind)

  function InputFor(cfg: Config, cal: Calendar, z: Zone, s: Stimulus): Input {
    BuildInput(cfg, Prepared(cal, z, s), s)
  }

  /** A raised exception aborts the dispatch; nothing of a decision is applied. */
  function Responded(cfg: Config, cal: Calendar, z: Zone, s: Stimulus): Zone {
    var o := DecisionFor(cfg, cal, z, s);
    if o.Ok? && Applicable(o.value) then Stepped(cfg, cal, z, s) else Prepared(cal, z, s)
  }

  /** The command anchor is recorded once per pulse. */
  function Anchored(z: Zone, at: Time): Zone {
    if z.session.Some? && z.session.value.commandedAt.None? then
      z.(session := Some(z.session.value.(commandedAt := Some(at))))
    else z
  }

  function ZoneAfter(cfg: Config, cal: Calendar, z: Zone, m: Move): Zone {
    match m
    case Dispatch(s) => Responded(cfg, cal, z, s)
    case Command(_, at, _) => Anchored(z, at)
    case Elapse(_, kind) => z.(timers := z.timers - {kind})
  }

  // ----- what an observer writes down ---------------------------------------------------------------

  datatype Pulse = Pulse(intent: Time, off: Option<Time>)

  /** A closed session: who, and what its finish event is to say. */
  datatype Closing = Closing(id: string, reason: Reason, summary: Summary)

  /**
   `pulses`, `newest` and `generations` are about the current session: the pulses commanded,
   the newest VALID report of the running pulse, and the watchdog generations armed.
   */
  datatype History = History(
    clock: Time,
    pulses: seq<Pulse>,
    newest: Option<Time>,
    generations: seq<int>,
    charges: seq<Interval>,
    closings: seq<Closing>)

  function NextPulses(pulses: seq<Pulse>, inp: Input, d: Decision): seq<Pulse> {
    var n := |pulses|;
    if TurnOn in d.actions then (if inp.session.None? then [] else pulses) + [Pulse(inp.now, None)]
    else if ClosesPulse(inp) && n > 0 then pulses[..n - 1] + [pulses[n - 1].(off := Some(inp.event.at))]
    else pulses
  }

  function NextNewest(newest: Option<Time>, inp: Input, d: Decision): Option<Time> {
    if TurnOn in d.actions then inp.observation.reportedAt
    else if FoldsReport(inp) && inp.observation.reportedAt.Some? then
      if newest.Some? then Some(Max(newest.value, inp.observation.reportedAt.value)) else inp.observation.reportedAt
    else newest
  }

  function NextGenerations(generations: seq<int>, inp: Input, d: Decision): seq<int> {
    var kept := if TurnOn in d.actions && inp.session.None? then [] else generations;
    var token := TokenOf(inp, d);
    if token.Some? && (kept == [] || kept[|kept| - 1] != token.value.generation) then kept + [token.value.generation]
    else kept
  }

  function ChargeOf(inp: Input, d: Decision): Option<Interval> {
    var c := CoreAfter(inp, d);
    ChargedInterval(if c.session.Some? then c.session else ClosedBy(d), inp)
  }

  function ClosingOf(inp: Input, d: Decision): Option<Closing> {
    if d.clearSession && d.finalSession.Some? && d.reason.Some? then
      Some(Closing(d.finalSession.value.id, d.reason.value, SummaryOf(d.finalSession.value, d.reason.value, inp.now)))
    else None
  }

  function Listing<T>(o: Option<T>): seq<T> {
    if o.Some? then [o.value] else []
  }

  function NextHistory(h: History, inp: Input, d: Decision): History {
    History(
      inp.now,
      NextPulses(h.pulses, inp, d),
      NextNewest(h.newest, inp, d),
      NextGenerations(h.generations, inp, d),
      h.charges + Listing(ChargeOf(inp, d)),
      h.closings + Listing(ClosingOf(inp, d)))
  }

  function HistoryAfter(cfg: Config, cal: Calendar, z: Zone, h: History, m: Move): History {
    match m
    case Dispatch(s) =>
      var o := DecisionFor(cfg, cal, z, s);
      if o.Ok? then NextHistory(h, InputFor(cfg, cal, z, s), o.value) else h.(clock := s.now)
    case Command(now, _, _) => h.(clock := now)
    case Elapse(now, _) => h.(clock := now)
  }

  // ----- runs -----------------------------------------------------------------------------------------

  datatype Snapshot = Snapshot(zone: Zone, history: History)

  /** What the world may do next: time moves on, and the environment keeps its promises. */
  predicate Allowed(cfg: Config, cal: Calendar, x: Snapshot, m: Move) {
    match m
    case Dispatch(s) =>
      && x.history.clock <= s.now
      && Promised(InputFor(cfg, cal, x.zone, s))
      && !AckWithOpenAccounting(InputFor(cfg, cal, x.zone, s))
    case Command(now, at, _) =>
      && x.history.clock <= now && at <= now
      && (x.zone.session.Some? ==>
            && x.zone.session.value.offAt.None?
            && x.zone.session.value.intentAt.Some?
            && x.zone.session.value.intentAt.value <= at)
    case Elapse(now, kind) =>
      x.history.clock <= now && kind in x.zone.timers && x.zone.timers[kind] <= now
  }

  function Next(cfg: Config, cal: Calendar, x: Snapshot, m: Move): Snapshot {
    Snapshot(ZoneAfter(cfg, cal, x.zone, m), HistoryAfter(cfg, cal, x.zone, x.history, m))
  }

  ghost predicate IsRun(cfg: Config, cal: Calendar, xs: seq<Snapshot>, ms: seq<Move>) {
    && cfg.Sound() && cal.Sound()
    && |xs| == |ms| + 1
    && Inv(cfg, cal, xs[0])
    && forall k :: 0 <= k < |ms| ==> Allowed(cfg, cal, xs[k], ms[k]) && xs[k + 1] == Next(cfg, cal, xs[k], ms[k])
  }

  // ----- the invariant of runs ------------------------------------------------------------------------

  function CoreOfZone(z: Zone): Core {
    Core(z.state, z.enabled, z.session, z.activeFault)
  }

  predicate Agrees(z: Zone, inp: Input) {
    z.state == inp.state && z.enabled == inp.enabled && z.session == inp.session && z.activeFault == inp.activeFault
  }

  /** Consecutive pulses of a session lie at least a full soak after confirmed OFF. */
  ghost predicate Spaced(soak: Time, pulses: seq<Pulse>) {
    forall k :: 0 <= k < |pulses| - 1 ==>
                  pulses[k].off.Some? && pulses[k + 1].intent >= pulses[k].off.value + soak
  }

  /** The session's anchors are those of the last pulse commanded, and its cycle counts them. */
  ghost predicate PulsesFit(soak: Time, session: Option<Session>, pulses: seq<Pulse>) {
    session.Some? ==>
      && var s := session.value;
         && pulses != []
         && s.intentAt.Some?
         && pulses[|pulses| - 1] == Pulse(s.intentAt.value, s.offAt)
         && (s.mode.Auto? ==> |pulses| == s.cycle)
         && (s.mode.Manual? ==> |pulses| == 1)
         && Spaced(soak, pulses)
  }

  ghost predicate Increasing(s: seq<int>) {
    forall i, j :: 0 <= i < j < |s| ==> s[i] < s[j]
  }

  /** The watchdog of a running automatic pulse. */
  predicate Guarded(c: Core) {
    c.state.Watering? && c.session.Some? && c.session.value.mode.Auto? && c.session.value.pending.None?
  }

  /** The armed token is the newest report's deadline under the session's latest generation. */
  predicate WatchFits(maxAge: Time, c: Core, armed: Option<Token>, newest: Option<Time>) {
    Guarded(c) ==>
      && newest.Some?
      && c.session.value.freshUntil == Some(newest.value + maxAge)
      && armed == Some(Token(c.session.value.generation, newest.value + maxAge))
  }

  ghost predicate GenerationsFit(session: Option<Session>, generations: seq<int>) {
    session.Some? && session.value.mode.Auto? ==>
      && Increasing(generations)
      && (generations != [] ==> generations[|generations| - 1] == session.value.generation)
  }

  ghost predicate CounterFits(cal: Calendar, daily: Daily, clock: Time, charges: seq<Interval>) {
    && daily.date <= cal.dayOf(clock)
    && 0 <= daily.runtime
    && CounterAgrees(cal, daily, charges)
  }

  /** A pulse is commanded after its intent, and a closed one has been charged from its command to its OFF. */
  ghost predicate AnchorsFit(session: Option<Session>, charges: seq<Interval>) {
    session.Some? && session.value.commandedAt.Some? ==>
      var s := session.value;
      && s.intentAt.Some? && s.intentAt.value <= s.commandedAt.value
      && (s.offAt.Some? && s.commandedAt.value < s.offAt.value ==> Interval(s.commandedAt.value, s.offAt.value) in charges)
  }

  /** The finish events emitted so far. */
  function Finishes(log: seq<Emission>): seq<Emission> {
    if log == [] then []
    else
      var n := |log| - 1;
      Finishes(log[..n]) + if log[n].Finished? then [log[n]] else []
  }

  /** The finish events a list of closures calls for. */
  function Announced(closings: seq<Closing>): seq<Emission> {
    if closings == [] then []
    else
      var n := |closings| - 1;
      Announced(closings[..n]) + [Finished(Some(closings[n].reason), Some(closings[n].summary))]
  }

  /** Only a sensor fault is ever kept beside another fault. */
  predicate SecondarySound(z: Zone) {
    z.secondaryFault.Some? ==> z.secondaryFault.value.IsSensorOnly()
  }

  ghost predicate Inv(cfg: Config, cal: Calendar, x: Snapshot) {
    && CoreInv(cfg, CoreOfZone(x.zone))
    && SecondarySound(x.zone)
    && PulsesFit(cfg.soak, x.zone.session, x.history.pulses)
    && WatchFits(cfg.maxAge, CoreOfZone(x.zone), x.zone.armed, x.history.newest)
    && GenerationsFit(x.zone.session, x.history.generations)
    && CounterFits(cal, x.zone.daily, x.history.clock, x.history.charges)
    && AnchorsFit(x.zone.session, x.history.charges)
    && Finishes(x.zone.log) == Announced(x.history.closings)
  }

  // ----- a dispatch, as a decision ------------------------------------------------------------------------

  /** Actions touch neither the session nor the state, the faults or the counter. */
  lemma {:induction false} PerformAllKeeps(z: Zone, actions: seq<Action>, reason: Option<Reason>)
    ensures var r := PerformAll(z, actions, reason);
            && CoreOfZone(r) == CoreOfZone(z) && r.daily == z.daily && r.lastSessionEnd == z.lastSessionEnd
            && r.summary == z.summary && r.secondaryFault == z.secondaryFault
    decreases |actions|
  {
    if actions != [] {
      PerformKeeps(z, actions[0], reason);
      PerformAllKeeps(Perform(z, actions[0], reason), actions[1..], reason);
    }
  }

  lemma PerformKeeps(z: Zone, a: Action, reason: Option<Reason>)
    ensures var r := Perform(z, a, reason);
            && CoreOfZone(r) == CoreOfZone(z) && r.daily == z.daily && r.lastSessionEnd == z.lastSessionEnd
            && r.summary == z.summary && r.secondaryFault == z.secondaryFault
            && r.armed == (if a.ArmWatchdog? then Some(a.token) else z.armed)
  {
  }

  lemma {:induction false} PerformAllArms(z: Zone, actions: seq<Action>, reason: Option<Reason>, token: Option<Token>)
    requires forall a :: a in actions && a.ArmWatchdog? ==> token == Some(a.token)
    ensures PerformAll(z, actions, reason).armed == token || PerformAll(z, actions, reason).armed == z.armed
    ensures token.Some? && ArmWatchdog(token.value) in actions ==> PerformAll(z, actions, reason).armed == token
    ensures token.None? ==> PerformAll(z, actions, reason).armed == z.armed
    decreases |actions|
  {
    if actions != [] {
      var head := actions[0];
      assert head in actions;
      assert forall a :: a in actions[1..] ==> a in actions;
      PerformKeeps(z, head, reason);
      PerformAllArms(Perform(z, head, reason), actions[1..], reason, token);
    }
  }

  lemma FinishesSnoc(log: seq<Emission>, e: Emission)
    ensures Finishes(log + [e]) == Finishes(log) + if e.Finished? then [e] else []
  {
    assert (log + [e])[..|log|] == log;
  }

  lemma PerformLog(z: Zone, a: Action, reason: Option<Reason>)
    ensures Finishes(Perform(z, a, reason).log)
         == Finishes(z.log) + if a.EmitSessionFinished? then [Finished(reason, z.summary)] else []
  {
    var y := Perform(z, a, reason);
    if y.log != z.log {
      FinishesSnoc(z.log, y.log[|z.log|]);
    }
  }

  /** Without the finish action nothing is announced. */
  lemma {:induction false} PerformAllSilent(z: Zone, actions: seq<Action>, reason: Option<Reason>)
    requires EmitSessionFinished !in actions
    ensures Finishes(PerformAll(z, actions, reason).log) == Finishes(z.log)
    decreases |actions|
  {
    if actions != [] {
      PerformLog(z, actions[0], reason);
      PerformAllSilent(Perform(z, actions[0], reason), actions[1..], reason);
    }
  }

  /** With one finish action the zone's summary is announced once. */
  lemma {:induction false} PerformAllAnnounces(z: Zone, actions: seq<Action>, reason: Option<Reason>, i: int)
    requires OnlyAt(actions, EmitSessionFinished, i)
    ensures Finishes(PerformAll(z, actions, reason).log) == Finishes(z.log) + [Finished(reason, z.summary)]
    decreases |actions|
  {
    var y := Perform(z, actions[0], reason);
    PerformKeeps(z, actions[0], reason);
    PerformLog(z, actions[0], reason);
    if i == 0 {
      PerformAllSilent(y, actions[1..], reason);
    } else {
      assert OnlyAt(actions[1..], EmitSessionFinished, i - 1);
      PerformAllAnnounces(y, actions[1..], reason, i - 1);
    }
  }

  lemma EffectCore(cal: Calendar, z: Zone, d: Decision, inp: Input)
    requires Agrees(z, inp) && Applicable(d) && (d.noOp ==> d == NO_OP)
    requires Arms(d.actions, TokenOf(inp, d))
    ensures var r := Effect(cal, z, d, inp);
            && CoreOfZone(r) == CoreAfter(inp, d)
            && r.secondaryFault == (if d.secondaryFault.Some? then d.secondaryFault else z.secondaryFault)
            && r.armed == (if TokenOf(inp, d).Some? then TokenOf(inp, d) else z.armed)
  {
    if !d.noOp {
      AppliedCore(cal, z, d, inp);
      PerformAllKeeps(Applied(cal, z, d, inp), d.actions, d.reason);
      PerformAllArms(Applied(cal, z, d, inp), d.actions, d.reason, TokenOf(inp, d));
    }
  }

  /** A regular dispatch is answered; what it leaves is the decision's effect. */
  lemma DispatchFacts(cfg: Config, cal: Calendar, z: Zone, s: Stimulus)
    requires Regular(InputFor(cfg, cal, z, s))
    ensures var inp := InputFor(cfg, cal, z, s);
            var o := DecisionFor(cfg, cal, z, s);
            && o == Decide(inp) && Answers(inp, o) && Obeys(inp, o.value)
            && Responded(cfg, cal, z, s) == Effect(cal, Prepared(cal, z, s), o.value, inp)
  {
    var inp := InputFor(cfg, cal, z, s);
    DecideAnswers(inp);
    DecideLawful(inp);
    DecideListed(inp);
  }

  lemma AdoptedCore(z: Zone, d: Decision, inp: Input)
    requires Agrees(z, inp)
    ensures var r := Adopted(z, d, inp);
            && CoreOfZone(r) == CoreAfter(inp, d) && r.armed == z.armed && r.log == z.log && r.daily == z.daily
            && r.secondaryFault == (if d.secondaryFault.Some? then d.secondaryFault else z.secondaryFault)
  {
  }

  lemma SettledCore(cal: Calendar, z: Zone, d: Decision, inp: Input)
    requires CoreOfZone(z) == CoreAfter(inp, d)
    ensures var r := Settled(cal, z, d, inp);
            && r == z.(daily := r.daily)
            && r.daily ==
               match ChargeOf(inp, d)
               case None => z.daily
               case Some(i) => ChargeDaily(cal, z.daily, inp.now, i.end - i.start, i.end)
  {
  }

  lemma AppliedCore(cal: Calendar, z: Zone, d: Decision, inp: Input)
    requires Applicable(d)
    requires Agrees(z, inp)
    ensures var r := Applied(cal, z, d, inp);
            && CoreOfZone(r) == CoreAfter(inp, d) && r.armed == z.armed && r.log == z.log
            && r.secondaryFault == (if d.secondaryFault.Some? then d.secondaryFault else z.secondaryFault)
            && r.daily == Settled(cal, Adopted(z, d, inp), d, inp).daily
            && (d.clearSession ==> r.summary == Some(SummaryOf(d.finalSession.value, d.reason.value, inp.now)))
  {
    AdoptedCore(z, d, inp);
    var adopted := Adopted(z, d, inp);
    SettledCore(cal, adopted, d, inp);
    var settled := Settled(cal, adopted, d, inp);
    var summarized := Summarized(settled, d, inp.now);
    assert summarized == settled.(summary := summarized.summary, lastSessionEnd := summarized.lastSessionEnd);
    var housekept := Housekept(summarized, inp);
    assert housekept == summarized.(timers := housekept.timers);
    var r := Remembered(housekept, d, inp);
    assert r == housekept.(pendingManual := r.pendingManual);
  }

  // ----- one move keeps each part of the invariant ------------------------------------------------------------

  lemma PreparedIsRegular(cfg: Config, cal: Calendar, z: Zone, s: Stimulus)
    requires cfg.Sound() && CoreInv(cfg, CoreOfZone(z)) && 0 <= z.daily.runtime
    requires Promised(InputFor(cfg, cal, z, s)) && !AckWithOpenAccounting(InputFor(cfg, cal, z, s))
    ensures Regular(InputFor(cfg, cal, z, s))
  {
  }

  /** The promises of the world and the invariant make a dispatch regular. */
  lemma DispatchIsRegular(cfg: Config, cal: Calendar, x: Snapshot, s: Stimulus)
    requires cfg.Sound()
    requires Inv(cfg, cal, x) && Allowed(cfg, cal, x, Dispatch(s))
    ensures Regular(InputFor(cfg, cal, x.zone, s))
  {
    PreparedIsRegular(cfg, cal, x.zone, s);
  }

  ghost predicate Obeys(inp: Input, d: Decision) {
    Lawful(inp, d) && Listed(inp, d)
  }

  lemma PulseStep(inp: Input, d: Decision, pulses: seq<Pulse>)
    requires Regular(inp) && Obeys(inp, d)
    requires PulsesFit(inp.config.soak, inp.session, pulses)
    ensures PulsesFit(inp.config.soak, CoreAfter(inp, d).session, NextPulses(pulses, inp, d))
  {
  }

  lemma WatchStep(inp: Input, d: Decision, newest: Option<Time>)
    requires Regular(inp) && Obeys(inp, d)
    requires WatchFits(inp.config.maxAge, CoreOf(inp), inp.armed, newest)
    ensures WatchFits(inp.config.maxAge, CoreAfter(inp, d),
                      if TokenOf(inp, d).Some? then TokenOf(inp, d) else inp.armed, NextNewest(newest, inp, d))
  {
  }

  lemma GenerationStep(inp: Input, d: Decision, generations: seq<int>)
    requires Regular(inp) && Obeys(inp, d)
    requires GenerationsFit(inp.session, generations)
    ensures GenerationsFit(CoreAfter(inp, d).session, NextGenerations(generations, inp, d))
  {
  }

  /** What is charged is the closing charge of OFF evidence, and it has ended. */
  lemma ChargeIsClosing(inp: Input, d: Decision)
    requires Regular(inp) && Obeys(inp, d)
    requires ChargeOf(inp, d).Some?
    ensures var i := ChargeOf(inp, d).value;
            && inp.session.Some?
            && (inp.event.OffConfirmed? || inp.event.ExternalActuatorOff?)
            && i.end == inp.event.at <= inp.now
            && (d.session.Some? || d.clearSession)
            && i.end - i.start == ClosingCharge(inp.session.value, inp.event.at,
                                                if d.clearSession then d.reason.value else TargetReached)
  {
  }

  lemma AnchorStep(inp: Input, d: Decision, charges: seq<Interval>)
    requires Regular(inp) && Obeys(inp, d)
    requires AnchorsFit(inp.session, charges)
    ensures AnchorsFit(CoreAfter(inp, d).session, charges + Listing(ChargeOf(inp, d)))
  {
  }

  /** The counter after a decision: charged what the decision charges. */
  lemma EffectCounter(cal: Calendar, z: Zone, d: Decision, inp: Input)
    requires Agrees(z, inp) && Applicable(d) && (d.noOp ==> d == NO_OP)
    ensures Effect(cal, z, d, inp).daily ==
            match ChargeOf(inp, d)
            case None => z.daily
            case Some(i) => ChargeDaily(cal, z.daily, inp.now, i.end - i.start, i.end)
  {
    if !d.noOp {
      AppliedCore(cal, z, d, inp);
      AdoptedCore(z, d, inp);
      SettledCore(cal, Adopted(z, d, inp), d, inp);
      PerformAllKeeps(Applied(cal, z, d, inp), d.actions, d.reason);
    }
  }

  /** A decision announces the closure it makes, once, and nothing else. */
  lemma EffectLog(cal: Calendar, z: Zone, d: Decision, inp: Input)
    requires Agrees(z, inp) && Applicable(d) && (d.noOp ==> d == NO_OP)
    requires Announces(d)
    ensures Finishes(Effect(cal, z, d, inp).log) == Finishes(z.log) + Announced(Listing(ClosingOf(inp, d)))
  {
    if !d.noOp {
      AppliedCore(cal, z, d, inp);
      var y := Applied(cal, z, d, inp);
      if d.clearSession {
        var i :| OnlyAt(d.actions, EmitSessionFinished, i);
        PerformAllAnnounces(y, d.actions, d.reason, i);
        var c := ClosingOf(inp, d).value;
        assert Announced([c]) == [Finished(Some(c.reason), Some(c.summary))];
      } else {
        PerformAllSilent(y, d.actions, d.reason);
      }
    }
  }

  lemma AnnouncedAppend(closings: seq<Closing>, more: Option<Closing>)
    ensures Announced(closings + Listing(more)) == Announced(closings) + Announced(Listing(more))
  {
    if more.Some? {
      var all := closings + [more.value];
      assert all[..|closings|] == closings;
      assert Announced([more.value]) == [Finished(Some(more.value.reason), Some(more.value.summary))];
    } else {
      assert closings + [] == closings;
    }
  }

  lemma CounterRolls(cal: Calendar, daily: Daily, clock: Time, charges: seq<Interval>, now: Time)
    requires cal.Sound() && CounterFits(cal, daily, clock, charges) && clock <= now
    ensures CounterFits(cal, CurrentDaily(cal, daily, now), now, charges)
    ensures CurrentDaily(cal, daily, now).date == cal.dayOf(now)
  {
    LocalDatesAscend(cal, clock, now);
    ReadAgrees(cal, daily, charges, now);
  }

  lemma CounterCharges(cal: Calendar, daily: Daily, charges: seq<Interval>, now: Time, i: Interval)
    requires cal.Sound() && CounterFits(cal, daily, now, charges) && daily.date == cal.dayOf(now)
    requires i.start < i.end <= now
    ensures CounterFits(cal, ChargeDaily(cal, daily, now, i.end - i.start, i.end), now, charges + [i])
  {
    ChargeAgrees(cal, daily, charges, now, i.end - i.start, i.end);
    DayChargeBounded(cal, i.start, i.end, cal.dayOf(now));
    assert Interval(i.end - (i.end - i.start), i.end) == i;
  }

  lemma CounterStep(cal: Calendar, daily: Daily, clock: Time, charges: seq<Interval>, now: Time, charge: Option<Interval>)
    requires cal.Sound()
    requires CounterFits(cal, daily, clock, charges)
    requires clock <= now
    requires charge.Some? ==> charge.value.start < charge.value.end <= now
    ensures CounterFits(cal,
                        match charge
                        case None => CurrentDaily(cal, daily, now)
                        case Some(i) => ChargeDaily(cal, CurrentDaily(cal, daily, now), now, i.end - i.start, i.end),
                        now, charges + Listing(charge))
  {
    CounterRolls(cal, daily, clock, charges, now);
    match charge
    case None =>
      assert charges + [] == charges;
    case Some(i) =>
      CounterCharges(cal, CurrentDaily(cal, daily, now), charges, now, i);
  }

  lemma LocalDatesAscend(cal: Calendar, t: Time, u: Time)
    requires cal.Sound()
    requires t <= u
    ensures cal.dayOf(t) <= cal.dayOf(u)
  {
    var d := cal.dayOf(t);
    assert !(t < cal.midnight(d));
    assert !(u < cal.midnight(d));
  }

  lemma DispatchKeepsInv(cfg: Config, cal: Calendar, x: Snapshot, s: Stimulus)
    requires cfg.Sound() && cal.Sound()
    requires Inv(cfg, cal, x) && Allowed(cfg, cal, x, Dispatch(s))
    ensures Inv(cfg, cal, Next(cfg, cal, x, Dispatch(s)))
  {
    DispatchIsRegular(cfg, cal, x, s);
    DispatchFacts(cfg, cal, x.zone, s);
    var d := DecisionFor(cfg, cal, x.zone, s).value;
    EffectKeepsInv(cfg, cal, x, Prepared(cal, x.zone, s), InputFor(cfg, cal, x.zone, s), d);
  }

  /** The zone `z` is the snapshot's, made ready for the event. */
  predicate Readied(cal: Calendar, x: Snapshot, z: Zone, inp: Input) {
    && Agrees(z, inp)
    && z.daily == CurrentDaily(cal, x.zone.daily, inp.now)
    && z.session == x.zone.session && z.log == x.zone.log && z.armed == x.zone.armed == inp.armed
    && z.state == x.zone.state && z.secondaryFault == x.zone.secondaryFault
    && x.history.clock <= inp.now
  }

  lemma EffectKeepsInv(cfg: Config, cal: Calendar, x: Snapshot, z: Zone, inp: Input, d: Decision)
    requires cal.Sound() && inp.config == cfg
    requires Inv(cfg, cal, x) && Readied(cal, x, z, inp)
    requires Regular(inp) && Obeys(inp, d) && Answers(inp, Ok(d))
    ensures Inv(cfg, cal, Snapshot(Effect(cal, z, d, inp), NextHistory(x.history, inp, d)))
  {
    EffectCore(cal, z, d, inp);
    SessionPartKept(x, inp, d);
    if ChargeOf(inp, d).Some? {
      ChargeIsClosing(inp, d);
    }
    CounterPartKept(cal, x, z, inp, d);
    AnchorStep(inp, d, x.history.charges);
    LogPartKept(cal, x, z, inp, d);
  }

  lemma SessionPartKept(x: Snapshot, inp: Input, d: Decision)
    requires Regular(inp) && Obeys(inp, d)
    requires inp.session == x.zone.session && inp.state == x.zone.state
    requires PulsesFit(inp.config.soak, x.zone.session, x.history.pulses)
    requires GenerationsFit(x.zone.session, x.history.generations)
    requires WatchFits(inp.config.maxAge, CoreOfZone(x.zone), inp.armed, x.history.newest)
    ensures var c := CoreAfter(inp, d);
            var h := NextHistory(x.history, inp, d);
            && PulsesFit(inp.config.soak, c.session, h.pulses)
            && GenerationsFit(c.session, h.generations)
            && WatchFits(inp.config.maxAge, c, if TokenOf(inp, d).Some? then TokenOf(inp, d) else inp.armed, h.newest)
  {
    PulseStep(inp, d, x.history.pulses);
    GenerationStep(inp, d, x.history.generations);
    WatchStep(inp, d, x.history.newest);
  }

  lemma CounterPartKept(cal: Calendar, x: Snapshot, z: Zone, inp: Input, d: Decision)
    requires cal.Sound()
    requires Agrees(z, inp) && z.daily == CurrentDaily(cal, x.zone.daily, inp.now)
    requires Applicable(d) && (d.noOp ==> d == NO_OP)
    requires ChargeOf(inp, d).Some? ==> ChargeOf(inp, d).value.end <= inp.now
    requires CounterFits(cal, x.zone.daily, x.history.clock, x.history.charges) && x.history.clock <= inp.now
    ensures CounterFits(cal, Effect(cal, z, d, inp).daily, inp.now, x.history.charges + Listing(ChargeOf(inp, d)))
  {
    CounterStep(cal, x.zone.daily, x.history.clock, x.history.charges, inp.now, ChargeOf(inp, d));
    EffectCounter(cal, z, d, inp);
  }

  lemma LogPartKept(cal: Calendar, x: Snapshot, z: Zone, inp: Input, d: Decision)
    requires Agrees(z, inp) && z.log == x.zone.log
    requires Applicable(d) && (d.noOp ==> d == NO_OP) && Announces(d)
    requires Finishes(x.zone.log) == Announced(x.history.closings)
    ensures Finishes(Effect(cal, z, d, inp).log) == Announced(x.history.closings + Listing(ClosingOf(inp, d)))
  {
    EffectLog(cal, z, d, inp);
    AnnouncedAppend(x.history.closings, ClosingOf(inp, d));
  }

  lemma CommandKeepsInv(cfg: Config, cal: Calendar, x: Snapshot, now: Time, at: Time, written: bool)
    requires cal.Sound()
    requires Inv(cfg, cal, x) && Allowed(cfg, cal, x, Command(now, at, written))
    ensures Inv(cfg, cal, Next(cfg, cal, x, Command(now, at, written)))
  {
    LocalDatesAscend(cal, x.history.clock, now);
  }

  lemma ElapseKeepsInv(cfg: Config, cal: Calendar, x: Snapshot, now: Time, kind: TimerKind)
    requires cal.Sound()
    requires Inv(cfg, cal, x) && Allowed(cfg, cal, x, Elapse(now, kind))
    ensures Inv(cfg, cal, Next(cfg, cal, x, Elapse(now, kind)))
  {
    LocalDatesAscend(cal, x.history.clock, now);
  }

  lemma {:induction false} RunKeepsInv(cfg: Config, cal: Calendar, xs: seq<Snapshot>, ms: seq<Move>, k: nat)
    requires IsRun(cfg, cal, xs, ms)
    requires k < |xs|
    ensures Inv(cfg, cal, xs[k])
  {
    if k > 0 {
      RunKeepsInv(cfg, cal, xs, ms, k - 1);
      match ms[k - 1]
      case Dispatch(s) => DispatchKeepsInv(cfg, cal, xs[k - 1], s);
      case Command(now, at, written) => CommandKeepsInv(cfg, cal, xs[k - 1], now, at, written);
      case Elapse(now, kind) => ElapseKeepsInv(cfg, cal, xs[k - 1], now, kind);
    }
  }
}
