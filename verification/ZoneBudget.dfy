/**
 Watering budgets over whole runs. A pulse is commanded only if its planned length still fits,
 and nothing stops it on the dot; so the budgets hold up to the longest overrun of a pulse.
 */
module ZoneBudget {
  import opened Vocabulary
  import opened StateMachine
  import opened Accounting
  import opened ZoneControl
  import opened ZoneInvariant
  import opened ZoneLaws
  import opened ZoneActions
  import opened ZoneRuns
  import opened ZoneTheorems

  /** How long the session's pulse is meant to last. */
  function Planned(cfg: Config, s: Session): Time {
    if s.mode.Auto? then cfg.pulse else if s.effective.Some? then s.effective.value else 0
  }

  /** What is charged closes an open pulse and exceeds its plan by at most `over`. */
  predicate OnPlan(inp: Input, d: Decision, over: Time) {
    ChargeOf(inp, d).Some? ==>
      && inp.session.Some? && inp.session.value.PulseOpen()
      && ChargeOf(inp, d).value.end - ChargeOf(inp, d).value.start <= Planned(inp.config, inp.session.value) + over
  }

  predicate MoveOnPlan(cfg: Config, cal: Calendar, x: Snapshot, m: Move, over: Time) {
    m.Dispatch? ==>
      var o := DecisionFor(cfg, cal, x.zone, m.s);
      o.Ok? ==> OnPlan(InputFor(cfg, cal, x.zone, m.s), o.value, over)
  }

  // ----- the budget invariant -------------------------------------------------------------------------

  predicate SessionWithin(cfg: Config, session: Option<Session>, over: Time) {
    session.Some? ==>
      var s := session.value;
      if s.PulseOpen() then
        s.runtime + Planned(cfg, s) <= cfg.maxSession && 0 < Planned(cfg, s) <= cfg.maxDaily
      else s.runtime <= cfg.maxSession + over
  }

  /** Every day is within its limit, and the open pulse still fits every day it can reach. */
  ghost predicate DaysWithin(cfg: Config, cal: Calendar, session: Option<Session>, charges: seq<Interval>, over: Time) {
    && (forall day :: Overlaps(cal, charges, day) <= cfg.maxDaily + over)
    && (session.Some? && session.value.PulseOpen() ==>
          forall day :: cal.dayOf(session.value.intentAt.value) <= day ==>
                          Overlaps(cal, charges, day) + Planned(cfg, session.value) <= cfg.maxDaily)
  }

  ghost predicate ClosingsWithin(cfg: Config, closings: seq<Closing>, over: Time) {
    forall i :: 0 <= i < |closings| ==> closings[i].summary.runtime <= cfg.maxSession + over
  }

  ghost predicate Within(cfg: Config, cal: Calendar, x: Snapshot, over: Time) {
    && SessionWithin(cfg, x.zone.session, over)
    && DaysWithin(cfg, cal, x.zone.session, x.history.charges, over)
    && ClosingsWithin(cfg, x.history.closings, over)
  }

  // ----- one decision -----------------------------------------------------------------------------------

  lemma SessionStep(inp: Input, d: Decision, over: Time)
    requires Regular(inp) && Obeys(inp, d) && 0 <= over
    requires OnPlan(inp, d, over)
    requires SessionWithin(inp.config, inp.session, over)
    ensures SessionWithin(inp.config, CoreAfter(inp, d).session, over)
  {
  }

  lemma ClosingStep(inp: Input, d: Decision, over: Time)
    requires Regular(inp) && Obeys(inp, d) && 0 <= over
    requires OnPlan(inp, d, over)
    requires SessionWithin(inp.config, inp.session, over)
    ensures ClosingOf(inp, d).Some? ==> ClosingOf(inp, d).value.summary.runtime <= inp.config.maxSession + over
  {
  }

  /** What the counter shows at `now`: today's overlap, and nothing on any later day. */
  ghost predicate Shows(cal: Calendar, charges: seq<Interval>, now: Time, today: Time) {
    && today == Overlaps(cal, charges, cal.dayOf(now)) >= 0
    && forall day :: cal.dayOf(now) < day ==> Overlaps(cal, charges, day) == 0
  }

  lemma CounterShows(cal: Calendar, daily: Daily, clock: Time, charges: seq<Interval>, now: Time)
    requires cal.Sound() && CounterFits(cal, daily, clock, charges) && clock <= now
    ensures Shows(cal, charges, now, CurrentDaily(cal, daily, now).runtime)
  {
    LocalDatesAscend(cal, clock, now);
    ReadAgrees(cal, daily, charges, now);
    RecomputeIsOverlaps(cal, charges, cal.dayOf(now));
    forall day | cal.dayOf(now) < day
      ensures Overlaps(cal, charges, day) == 0
    {
      NothingRecomputedAhead(cal, charges, cal.dayOf(now), day);
      RecomputeIsOverlaps(cal, charges, day);
    }
  }

  lemma OverlapsSnoc(cal: Calendar, charges: seq<Interval>, i: Interval, day: int)
    ensures Overlaps(cal, charges + [i], day) == Overlaps(cal, charges, day) + Overlap(cal, i.start, i.end, day)
  {
    assert (charges + [i])[..|charges|] == charges;
  }

  /** An interval takes nothing from the days before it starts, and no day more than its length. */
  lemma OverlapBounded(cal: Calendar, start: Time, end: Time, from: Time, day: int)
    requires cal.Sound() && from <= start <= end
    ensures 0 <= Overlap(cal, start, end, day) <= end - start
    ensures day < cal.dayOf(from) ==> Overlap(cal, start, end, day) == 0
  {
    if day < cal.dayOf(from) {
      assert !(from < cal.midnight(day + 1));
    }
  }

  /** What an open pulse is charged for begins no earlier than its intent, and closes it. */
  lemma ChargeFollowsIntent(inp: Input, d: Decision, charges: seq<Interval>)
    requires Regular(inp) && Obeys(inp, d) && AnchorsFit(inp.session, charges)
    requires ChargeOf(inp, d).Some? && inp.session.Some? && inp.session.value.PulseOpen()
    ensures inp.session.value.intentAt.value <= ChargeOf(inp, d).value.start
    ensures CoreAfter(inp, d).session.Some? ==> !CoreAfter(inp, d).session.value.PulseOpen()
  {
    ChargeIsClosing(inp, d);
  }

  /** A started pulse fits today and every later day. */
  lemma StartFitsDays(inp: Input, d: Decision, cal: Calendar, charges: seq<Interval>, over: Time)
    requires Regular(inp) && Obeys(inp, d) && Starts(d)
    requires DaysWithin(inp.config, cal, inp.session, charges, over)
    requires Shows(cal, charges, inp.now, inp.dailyRuntime)
    ensures ChargeOf(inp, d).None? && DaysWithin(inp.config, cal, CoreAfter(inp, d).session, charges, over)
  {
  }

  /** A charge within the plan keeps every day within its limit. */
  lemma ChargeFitsDays(inp: Input, d: Decision, cal: Calendar, charges: seq<Interval>, over: Time)
    requires cal.Sound() && Regular(inp) && Obeys(inp, d) && 0 <= over
    requires ChargeOf(inp, d).Some? && OnPlan(inp, d, over) && AnchorsFit(inp.session, charges)
    requires DaysWithin(inp.config, cal, inp.session, charges, over)
    ensures DaysWithin(inp.config, cal, CoreAfter(inp, d).session, charges + [ChargeOf(inp, d).value], over)
  {
    ChargeFollowsIntent(inp, d, charges);
    var i := ChargeOf(inp, d).value;
    var intent := inp.session.value.intentAt.value;
    forall day
      ensures Overlaps(cal, charges + [i], day) <= inp.config.maxDaily + over
    {
      OverlapsSnoc(cal, charges, i, day);
      OverlapBounded(cal, i.start, i.end, intent, day);
    }
  }

  lemma DayStep(inp: Input, d: Decision, cal: Calendar, charges: seq<Interval>, over: Time)
    requires cal.Sound() && Regular(inp) && Obeys(inp, d) && 0 <= over
    requires OnPlan(inp, d, over) && AnchorsFit(inp.session, charges)
    requires DaysWithin(inp.config, cal, inp.session, charges, over)
    requires Shows(cal, charges, inp.now, inp.dailyRuntime)
    ensures DaysWithin(inp.config, cal, CoreAfter(inp, d).session, charges + Listing(ChargeOf(inp, d)), over)
  {
    if ChargeOf(inp, d).Some? {
      ChargeFitsDays(inp, d, cal, charges, over);
    } else {
      assert charges + [] == charges;
      if Starts(d) {
        StartFitsDays(inp, d, cal, charges, over);
      }
    }
  }

  // ----- runs ---------------------------------------------------------------------------------------------

  lemma EffectWithin(cal: Calendar, x: Snapshot, z: Zone, inp: Input, d: Decision, over: Time)
    requires cal.Sound() && Regular(inp) && Obeys(inp, d) && Answers(inp, Ok(d)) && 0 <= over
    requires Readied(cal, x, z, inp) && inp.dailyRuntime == z.daily.runtime
    requires CounterFits(cal, x.zone.daily, x.history.clock, x.history.charges) && AnchorsFit(x.zone.session, x.history.charges)
    requires OnPlan(inp, d, over) && Within(inp.config, cal, x, over)
    ensures Within(inp.config, cal, Snapshot(Effect(cal, z, d, inp), NextHistory(x.history, inp, d)), over)
  {
    EffectCore(cal, z, d, inp);
    SessionStep(inp, d, over);
    ClosingStep(inp, d, over);
    CounterShows(cal, x.zone.daily, x.history.clock, x.history.charges, inp.now);
    DayStep(inp, d, cal, x.history.charges, over);
  }

  lemma DispatchWithin(cfg: Config, cal: Calendar, x: Snapshot, s: Stimulus, over: Time)
    requires cfg.Sound() && cal.Sound() && 0 <= over
    requires Inv(cfg, cal, x) && Within(cfg, cal, x, over)
    requires Allowed(cfg, cal, x, Dispatch(s)) && MoveOnPlan(cfg, cal, x, Dispatch(s), over)
    ensures Within(cfg, cal, Next(cfg, cal, x, Dispatch(s)), over)
  {
    DispatchIsRegular(cfg, cal, x, s);
    DispatchFacts(cfg, cal, x.zone, s);
    var d := DecisionFor(cfg, cal, x.zone, s).value;
    EffectWithin(cal, x, Prepared(cal, x.zone, s), InputFor(cfg, cal, x.zone, s), d, over);
  }

  ghost predicate IsPlannedRun(cfg: Config, cal: Calendar, xs: seq<Snapshot>, ms: seq<Move>, over: Time) {
    && IsRun(cfg, cal, xs, ms)
    && 0 <= over
    && Within(cfg, cal, xs[0], over)
    && forall k :: 0 <= k < |ms| ==> MoveOnPlan(cfg, cal, xs[k], ms[k], over)
  }

  lemma {:induction false} RunStaysWithin(cfg: Config, cal: Calendar, xs: seq<Snapshot>, ms: seq<Move>, over: Time, k: nat)
    requires IsPlannedRun(cfg, cal, xs, ms, over)
    requires k < |xs|
    ensures Within(cfg, cal, xs[k], over)
  {
    if k > 0 {
      RunStaysWithin(cfg, cal, xs, ms, over, k - 1);
      RunKeepsInv(cfg, cal, xs, ms, k - 1);
      assert MoveOnPlan(cfg, cal, xs[k - 1], ms[k - 1], over);
      if ms[k - 1].Dispatch? {
        DispatchWithin(cfg, cal, xs[k - 1], ms[k - 1].s, over);
      }
    }
  }

  /**
   If no charge exceeds its pulse's plan by more than `over`, then in every run the open
   session, every closed session and every day stay within their limit plus `over`.
   */
  lemma BudgetsHold(cfg: Config, cal: Calendar, xs: seq<Snapshot>, ms: seq<Move>, over: Time, k: nat)
    requires IsPlannedRun(cfg, cal, xs, ms, over)
    requires k < |xs|
    ensures xs[k].zone.session.Some? ==> xs[k].zone.session.value.runtime <= cfg.maxSession + over
    ensures forall c :: c in xs[k].history.closings ==> c.summary.runtime <= cfg.maxSession + over
    ensures forall day :: Overlaps(cal, xs[k].history.charges, day) <= cfg.maxDaily + over
  {
    RunStaysWithin(cfg, cal, xs, ms, over, k);
    RunKeepsInv(cfg, cal, xs, ms, k);
  }

  // ----- charging a closed pulse again -----------------------------------------------------------------------

  /** OFF evidence that a session outside WATERING takes as its own. */
  predicate ProvesOff(inp: Input) {
    inp.event.OffConfirmed? || (inp.event.ExternalActuatorOff? && !(inp.state.Disabled? && inp.externalOn))
  }

  /** OFF evidence reaches a session whose pulse is closed already but that has a committed reason, after its anchor. */
  predicate ChargesAgain(inp: Input) {
    && inp.session.Some? && inp.session.value.offAt.Some? && inp.session.value.pending.Some?
    && ProvesOff(inp)
    && ClosingCharge(inp.session.value, inp.event.at, inp.session.value.pending.value) > 0
  }

  /** A decision charges without an open pulse exactly when it charges a closed one again. */
  lemma ChargesAgainExactly(inp: Input, d: Decision)
    requires Regular(inp) && Decide(inp) == Ok(d)
    ensures ChargeOf(inp, d).Some? && inp.session.Some? && !inp.session.value.PulseOpen() <==> ChargesAgain(inp)
  {
    DecideLawful(inp);
    DecideListed(inp);
    if ChargeOf(inp, d).Some? {
      ChargeIsClosing(inp, d);
    }
  }

  /** In SOAKING, FAULT and DISABLED alike, the second charge runs from the command of the closed pulse. */
  lemma ChargedAgainFromCommand(inp: Input, d: Decision)
    requires Regular(inp) && Decide(inp) == Ok(d) && ChargesAgain(inp)
    ensures inp.session.value.commandedAt.Some? && inp.session.value.commandedAt.value < inp.event.at
    ensures ChargeOf(inp, d) == Some(Interval(inp.session.value.commandedAt.value, inp.event.at))
    ensures inp.state.Soaking? || inp.state.Fault? || inp.state.Disabled?
  {
    DecideLawful(inp);
    DecideListed(inp);
    ChargesAgainExactly(inp, d);
    ChargeIsClosing(inp, d);
  }

  /** From `x` to `y` the closed pulse of the session is charged again, up to an OFF at `at`. */
  ghost predicate CountedTwice(x: Snapshot, y: Snapshot, at: Time) {
    && x.zone.session.Some? && x.zone.session.value.commandedAt.Some? && x.zone.session.value.offAt.Some?
    && var c := x.zone.session.value.commandedAt.value;
       var off := x.zone.session.value.offAt.value;
       && c < at
       && (c < off ==> Interval(c, off) in x.history.charges)
       && y.history.charges == x.history.charges + [Interval(c, at)]
  }

  /** In every run: when a closed pulse is charged again, its first charge is already on the books. */
  lemma ClosedPulseCountsTwice(cfg: Config, cal: Calendar, xs: seq<Snapshot>, ms: seq<Move>, k: nat)
    requires IsRun(cfg, cal, xs, ms)
    requires k < |ms| && ms[k].Dispatch?
    requires ChargesAgain(InputFor(cfg, cal, xs[k].zone, ms[k].s))
    ensures CountedTwice(xs[k], xs[k + 1], ms[k].s.event.at)
  {
    DispatchInRun(cfg, cal, xs, ms, k);
    var inp := InputFor(cfg, cal, xs[k].zone, ms[k].s);
    ChargedAgainFromCommand(inp, Decide(inp).value);
  }

  /** A charge on the books is part of every day's total. */
  lemma {:induction false} OverlapsContain(cal: Calendar, charges: seq<Interval>, i: Interval, day: int)
    ensures Overlaps(cal, charges, day) >= 0
    ensures i in charges ==> Overlaps(cal, charges, day) >= Overlap(cal, i.start, i.end, day)
  {
    if charges != [] {
      var n := |charges| - 1;
      OverlapsContain(cal, charges[..n], i, day);
      assert charges == charges[..n] + [charges[n]];
    }
  }

  /**
   On every day, the total then holds the time up to the earlier of the two OFFs twice, and it grew
   by that time and the rest up to the new OFF.
   */
  lemma CountedTwiceEachDay(cal: Calendar, x: Snapshot, y: Snapshot, at: Time, day: int)
    requires cal.Sound() && CountedTwice(x, y, at)
    ensures var c := x.zone.session.value.commandedAt.value;
            var twice := Min(x.zone.session.value.offAt.value, at);
            c < twice ==>
              && Overlaps(cal, y.history.charges, day) >= 2 * Overlap(cal, c, twice, day)
              && Overlaps(cal, y.history.charges, day)
                 == Overlaps(cal, x.history.charges, day) + Overlap(cal, c, twice, day) + Overlap(cal, twice, at, day)
  {
    var c := x.zone.session.value.commandedAt.value;
    var off := x.zone.session.value.offAt.value;
    var twice := Min(off, at);
    OverlapsSnoc(cal, x.history.charges, Interval(c, at), day);
    if c < twice {
      OverlapsContain(cal, x.history.charges, Interval(c, off), day);
      DayChargeAdditive(cal, c, twice, at, day);
      DayChargeIsOverlap(cal, c, at, day);
      DayChargeIsOverlap(cal, c, twice, day);
      DayChargeIsOverlap(cal, twice, at, day);
    }
  }

  const CLOSED_EXAMPLE: Session := SESSION_EXAMPLE.(
    offAt := Some(5), soakEnds := Some(25), recheckNotBefore := Some(25), graceDeadline := Some(75), runtime := 5)

  /** OFF evidence for an interfered soak, and for one whose OFF was exhausted before. */
  const INTERFERED_EXAMPLE: Input := ACK_EXAMPLE.(
    state := Soaking, activeFault := None, event := OffConfirmed(9),
    session := Some(CLOSED_EXAMPLE.(pending := Some(ExternalActuatorStateChange))))

  const EXHAUSTED_EXAMPLE: Input := ACK_EXAMPLE.(event := OffConfirmed(9), session := Some(CLOSED_EXAMPLE))

  /** Both charge the pulse from 0 to 5 again. */
  lemma ChargedAgainExamples()
    ensures Regular(INTERFERED_EXAMPLE) && ChargesAgain(INTERFERED_EXAMPLE)
    ensures Regular(EXHAUSTED_EXAMPLE) && ChargesAgain(EXHAUSTED_EXAMPLE)
    ensures Decide(INTERFERED_EXAMPLE).Ok? && Decide(EXHAUSTED_EXAMPLE).Ok?
    ensures ChargeOf(INTERFERED_EXAMPLE, Decide(INTERFERED_EXAMPLE).value) == Some(Interval(0, 9))
    ensures ChargeOf(EXHAUSTED_EXAMPLE, Decide(EXHAUSTED_EXAMPLE).value) == Some(Interval(0, 9))
  {
    DecideAnswers(INTERFERED_EXAMPLE);
    DecideAnswers(EXHAUSTED_EXAMPLE);
    ChargedAgainFromCommand(INTERFERED_EXAMPLE, Decide(INTERFERED_EXAMPLE).value);
    ChargedAgainFromCommand(EXHAUSTED_EXAMPLE, Decide(EXHAUSTED_EXAMPLE).value);
  }
}
