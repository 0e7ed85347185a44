/**
 The theorems about every run of one zone.
 */
module ZoneTheorems {
  import opened Vocabulary
  import opened StateMachine
  import opened Accounting
  import opened ZoneControl
  import opened ZoneInvariant
  import opened ZoneLaws
  import opened ZoneActions
  import opened ZoneRuns

  /** A zone that was never configured before. */
  function NewZone(today: int): Zone {
    Zone(Disabled, false, None, None, None, Daily(today, 0), None, None, None, None, map[], false, false, false, None, [])
  }

  /** Runs exist: a new zone with nothing observed of it yet can start one. */
  lemma NewZoneStartsRun(cfg: Config, cal: Calendar, clock: Time)
    requires cfg.Sound() && cal.Sound()
    ensures IsRun(cfg, cal, [Snapshot(NewZone(cal.dayOf(clock)), History(clock, [], None, [], [], []))], [])
  {
    assert CounterAgrees(cal, Daily(cal.dayOf(clock), 0), []);
  }

  /** The k-th move of a run, as a question to the state machine and its answer. */
  lemma DispatchInRun(cfg: Config, cal: Calendar, xs: seq<Snapshot>, ms: seq<Move>, k: nat)
    requires IsRun(cfg, cal, xs, ms)
    requires k < |ms| && ms[k].Dispatch?
    ensures var inp := InputFor(cfg, cal, xs[k].zone, ms[k].s);
            var o := Decide(inp);
            && Inv(cfg, cal, xs[k]) && Regular(inp)
            && Answers(inp, o) && Obeys(inp, o.value)
            && xs[k + 1].zone == Effect(cal, Prepared(cal, xs[k].zone, ms[k].s), o.value, inp)
            && CoreOfZone(xs[k + 1].zone) == CoreAfter(inp, o.value)
            && xs[k + 1].history == NextHistory(xs[k].history, inp, o.value)
  {
    RunKeepsInv(cfg, cal, xs, ms, k);
    DispatchIsRegular(cfg, cal, xs[k], ms[k].s);
    DispatchFacts(cfg, cal, xs[k].zone, ms[k].s);
    var inp := InputFor(cfg, cal, xs[k].zone, ms[k].s);
    EffectCore(cal, Prepared(cal, xs[k].zone, ms[k].s), Decide(inp).value, inp);
  }

  /** The snapshot `y` follows `x` by the decision `d`. */
  ghost predicate Follows(x: Snapshot, y: Snapshot, inp: Input, d: Decision) {
    && inp.session == x.zone.session && inp.state == x.zone.state
    && CoreOfZone(y.zone) == CoreAfter(inp, d)
    && y.history == NextHistory(x.history, inp, d)
  }

  /** The same, without naming the state machine: some lawful decision leads on. */
  lemma StepFollows(cfg: Config, cal: Calendar, xs: seq<Snapshot>, ms: seq<Move>, k: nat) returns (inp: Input, d: Decision)
    requires IsRun(cfg, cal, xs, ms)
    requires k < |ms| && ms[k].Dispatch?
    ensures Inv(cfg, cal, xs[k])
    ensures Regular(inp) && Answers(inp, Ok(d)) && Obeys(inp, d)
    ensures Follows(xs[k], xs[k + 1], inp, d)
    ensures inp.event == ms[k].s.event && inp.now == ms[k].s.now && inp.observation == ms[k].s.observation
    ensures inp.config == cfg
  {
    DispatchInRun(cfg, cal, xs, ms, k);
    inp := InputFor(cfg, cal, xs[k].zone, ms[k].s);
    d := Decide(inp).value;
  }

  // ----- totality -----------------------------------------------------------------------------------

  /** In no run does a decision raise, fail to construct, or fail to apply. */
  lemma NothingRaises(cfg: Config, cal: Calendar, xs: seq<Snapshot>, ms: seq<Move>, k: nat)
    requires IsRun(cfg, cal, xs, ms)
    requires k < |ms| && ms[k].Dispatch?
    ensures var o := DecisionFor(cfg, cal, xs[k].zone, ms[k].s);
            o.Ok? && o.value.Constructible() && Applicable(o.value)
    ensures CoreInv(cfg, CoreOfZone(xs[k + 1].zone))
  {
    DispatchInRun(cfg, cal, xs, ms, k);
  }

  /** IDLE hides neither a fault nor a session, FAULT always has one to show, and what waits for OFF proof knows why. */
  lemma StatesTellTheTruth(cfg: Config, cal: Calendar, xs: seq<Snapshot>, ms: seq<Move>, k: nat)
    requires IsRun(cfg, cal, xs, ms)
    requires k < |xs|
    ensures xs[k].zone.state.Idle? ==> xs[k].zone.activeFault.None? && xs[k].zone.session.None?
    ensures xs[k].zone.state.Fault? ==> xs[k].zone.activeFault.Some?
    ensures xs[k].zone.state.Watering? || xs[k].zone.state.Soaking? ==> xs[k].zone.session.Some?
    ensures xs[k].zone.session.Some? && !xs[k].zone.state.Watering? && !xs[k].zone.state.Soaking? ==>
              && xs[k].zone.activeFault.Some?
              && (xs[k].zone.session.value.pending == Some(ActuatorFault)
                  || xs[k].zone.session.value.pending == Some(RestartRecovery))
  {
    RunKeepsInv(cfg, cal, xs, ms, k);
  }

  // ----- the first terminal request owns the session --------------------------------------------------

  predicate Exhausts(m: Move) {
    m.Dispatch? && m.s.event.OffNotConfirmed?
  }

  ghost predicate ExhaustedWithin(ms: seq<Move>, k: nat, m: nat)
    requires k <= m <= |ms|
  {
    exists j :: k <= j < m && Exhausts(ms[j])
  }

  /** What a committed reason may have turned into. */
  predicate MayBecome(committed: Reason, now: Reason, exhausted: bool) {
    now == committed || (exhausted && !committed.RestartRecovery? && now == ActuatorFault)
  }

  /** The session still waits under its reason, or the `n`-th closure closed it with that reason. */
  ghost predicate Owned(x: Snapshot, n: nat, id: string, committed: Reason, exhausted: bool) {
    var closings := x.history.closings;
    if |closings| <= n then
      && |closings| == n
      && x.zone.session.Some? && x.zone.session.value.id == id
      && x.zone.session.value.pending.Some?
      && MayBecome(committed, x.zone.session.value.pending.value, exhausted)
    else
      closings[n].id == id && MayBecome(committed, closings[n].reason, exhausted)
  }

  lemma DecisionKeepsOwned(x: Snapshot, y: Snapshot, inp: Input, d: Decision,
                           n: nat, id: string, committed: Reason, exhausted: bool)
    requires Continues(inp, d) && Follows(x, y, inp, d) && (d.clearSession ==> d.reason.Some?)
    requires Owned(x, n, id, committed, exhausted)
    ensures Owned(y, n, id, committed, exhausted || inp.event.OffNotConfirmed?)
  {
  }

  lemma OwnedStep(cfg: Config, cal: Calendar, xs: seq<Snapshot>, ms: seq<Move>, k: nat,
                  n: nat, id: string, committed: Reason, exhausted: bool)
    requires IsRun(cfg, cal, xs, ms)
    requires k < |ms|
    requires Owned(xs[k], n, id, committed, exhausted)
    ensures Owned(xs[k + 1], n, id, committed, exhausted || Exhausts(ms[k]))
  {
    if ms[k].Dispatch? {
      var inp, d := StepFollows(cfg, cal, xs, ms, k);
      DecisionKeepsOwned(xs[k], xs[k + 1], inp, d, n, id, committed, exhausted);
    }
  }

  /**
   Once a session has a committed reason, every continuation either still holds the session
   under it, or has closed it, next and with one finish event, under it. The only exception
   is OFF exhaustion, which turns it into an actuator fault and never replaces restart recovery.
   */
  lemma {:induction false} FirstRequestOwns(cfg: Config, cal: Calendar, xs: seq<Snapshot>, ms: seq<Move>, k: nat, m: nat)
    requires IsRun(cfg, cal, xs, ms)
    requires k <= m < |xs|
    requires xs[k].zone.session.Some? && xs[k].zone.session.value.pending.Some?
    ensures var s := xs[k].zone.session.value;
            Owned(xs[m], |xs[k].history.closings|, s.id, s.pending.value, ExhaustedWithin(ms, k, m))
    decreases m
  {
    if k < m {
      FirstRequestOwns(cfg, cal, xs, ms, k, m - 1);
      var s := xs[k].zone.session.value;
      OwnedStep(cfg, cal, xs, ms, m - 1, |xs[k].history.closings|, s.id, s.pending.value, ExhaustedWithin(ms, k, m - 1));
      assert ExhaustedWithin(ms, k, m - 1) || Exhausts(ms[m - 1]) ==> ExhaustedWithin(ms, k, m);
    }
  }

  lemma {:induction false} AnnouncedAt(closings: seq<Closing>, i: nat)
    requires i < |closings|
    ensures |Announced(closings)| == |closings|
    ensures Announced(closings)[i] == Finished(Some(closings[i].reason), Some(closings[i].summary))
    decreases |closings|
  {
    var n := |closings| - 1;
    if n > 0 {
      AnnouncedAt(closings[..n], if i < n then i else 0);
    }
  }

  /** Every closure of every run has exactly one finish event, in order, with its reason and summary. */
  lemma OneFinishPerClosure(cfg: Config, cal: Calendar, xs: seq<Snapshot>, ms: seq<Move>, m: nat)
    requires IsRun(cfg, cal, xs, ms)
    requires m < |xs|
    ensures var closings := xs[m].history.closings;
            var finishes := Finishes(xs[m].zone.log);
            && |finishes| == |closings|
            && forall i :: 0 <= i < |closings| ==>
                             finishes[i] == Finished(Some(closings[i].reason), Some(closings[i].summary))
  {
    RunKeepsInv(cfg, cal, xs, ms, m);
    var closings := xs[m].history.closings;
    forall i | 0 <= i < |closings|
      ensures |Announced(closings)| == |closings|
      ensures Announced(closings)[i] == Finished(Some(closings[i].reason), Some(closings[i].summary))
    {
      AnnouncedAt(closings, i);
    }
  }

  /** From `x` to `y` the session went on, or it closed with a closure of its own. */
  predicate WentOnOrClosed(x: Snapshot, y: Snapshot)
    requires x.zone.session.Some?
  {
    var id := x.zone.session.value.id;
    var before := x.history.closings;
    var after := y.history.closings;
    || (y.zone.session.Some? && y.zone.session.value.id == id && after == before)
    || (y.zone.session.None? && |after| == |before| + 1 && after[..|before|] == before && after[|before|].id == id)
  }

  lemma DecisionEndsByClosure(x: Snapshot, y: Snapshot, inp: Input, d: Decision)
    requires Continues(inp, d) && Follows(x, y, inp, d) && (d.clearSession ==> d.reason.Some?)
    requires x.zone.session.Some?
    ensures WentOnOrClosed(x, y)
  {
  }

  /** A session disappears only by a closure of that session. */
  lemma SessionsEndByClosure(cfg: Config, cal: Calendar, xs: seq<Snapshot>, ms: seq<Move>, k: nat)
    requires IsRun(cfg, cal, xs, ms)
    requires k < |ms|
    requires xs[k].zone.session.Some?
    ensures WentOnOrClosed(xs[k], xs[k + 1])
  {
    if ms[k].Dispatch? {
      var inp, d := StepFollows(cfg, cal, xs, ms, k);
      DecisionEndsByClosure(xs[k], xs[k + 1], inp, d);
    }
  }

  // ----- commanding a pulse -----------------------------------------------------------------------------

  /**
   Every TurnOn of every run is decided with the zone enabled, the slot owned, no blocker and
   the actuator available and proven off, and no other transition asks for it.
   */
  lemma TurnOnOnlyWhenAllowed(cfg: Config, cal: Calendar, xs: seq<Snapshot>, ms: seq<Move>, k: nat)
    requires IsRun(cfg, cal, xs, ms)
    requires k < |ms| && ms[k].Dispatch?
    requires DecisionFor(cfg, cal, xs[k].zone, ms[k].s).Ok?
    requires TurnOn in DecisionFor(cfg, cal, xs[k].zone, ms[k].s).value.actions
    ensures xs[k].zone.enabled && xs[k + 1].zone.enabled
    ensures ms[k].s.slotGranted && ms[k].s.blockersEmpty
    ensures ms[k].s.actuator.available && ms[k].s.actuator.provenOff
    ensures xs[k + 1].zone.state.Watering? && xs[k + 1].zone.session.Some? && xs[k + 1].zone.session.value.PulseOpen()
    ensures xs[k].zone.session.Some? ==> !xs[k].zone.session.value.PulseOpen()
  {
    DispatchInRun(cfg, cal, xs, ms, k);
    StartIsAllowed(InputFor(cfg, cal, xs[k].zone, ms[k].s), DecisionFor(cfg, cal, xs[k].zone, ms[k].s).value);
  }

  /** What a decision that turns on rests on and leads to. */
  lemma StartIsAllowed(inp: Input, d: Decision)
    requires Regular(inp) && Obeys(inp, d) && TurnOn in d.actions
    ensures inp.enabled && inp.slotGranted && inp.blockersEmpty && inp.actuator.available && inp.actuator.provenOff
    ensures inp.session.Some? ==> !inp.session.value.PulseOpen()
    ensures var c := CoreAfter(inp, d); c.state.Watering? && c.session.Some? && c.session.value.PulseOpen()
  {
  }

  /**
   The pulses of a session lie a full soak apart and number its cycle, never more than the
   configured maximum; and a further pulse rests on a VALID, fresh report stamped no earlier
   than the soak's end and strictly below target.
   */
  lemma PulsesAreSpaced(cfg: Config, cal: Calendar, xs: seq<Snapshot>, ms: seq<Move>, k: nat)
    requires IsRun(cfg, cal, xs, ms)
    requires k < |xs|
    requires xs[k].zone.session.Some?
    ensures var pulses := xs[k].history.pulses;
            && (forall i :: 0 <= i < |pulses| - 1 ==>
                              pulses[i].off.Some? && pulses[i + 1].intent >= pulses[i].off.value + cfg.soak)
            && (if xs[k].zone.session.value.mode.Auto? then |pulses| == xs[k].zone.session.value.cycle <= cfg.maxCycles
                else |pulses| == 1)
  {
    RunKeepsInv(cfg, cal, xs, ms, k);
  }

  /** A VALID, fresh report below target that is no older than the soak after the last pulse. */
  predicate RestsOnReport(cfg: Config, pulses: seq<Pulse>, obs: Observation, now: Time) {
    && pulses != [] && pulses[|pulses| - 1].off.Some?
    && obs.classification.Valid? && obs.reportedAt.Some? && obs.value.Some?
    && pulses[|pulses| - 1].off.value + cfg.soak <= obs.reportedAt.value <= now
    && now - obs.reportedAt.value <= cfg.maxAge
    && obs.value.value < cfg.targetThreshold
  }

  lemma FurtherPulseRestsOnReport(inp: Input, d: Decision, pulses: seq<Pulse>)
    requires Regular(inp) && Obeys(inp, d)
    requires PulsesFit(inp.config.soak, inp.session, pulses)
    requires inp.session.Some?
    requires |NextPulses(pulses, inp, d)| > |pulses|
    ensures RestsOnReport(inp.config, pulses, inp.observation, inp.now)
  {
    assert Starts(d);
  }

  lemma NextPulseRestsOnReport(cfg: Config, cal: Calendar, xs: seq<Snapshot>, ms: seq<Move>, k: nat)
    requires IsRun(cfg, cal, xs, ms)
    requires k < |ms| && ms[k].Dispatch?
    requires xs[k].zone.session.Some?
    requires |xs[k + 1].history.pulses| > |xs[k].history.pulses|
    ensures RestsOnReport(cfg, xs[k].history.pulses, ms[k].s.observation, ms[k].s.now)
  {
    var inp, d := StepFollows(cfg, cal, xs, ms, k);
    FurtherPulseRestsOnReport(inp, d, xs[k].history.pulses);
  }

  // ----- the watchdog ---------------------------------------------------------------------------------------

  /**
   While an automatic pulse runs uncommitted, deadline and armed token are those of the newest
   VALID report folded in since it began, under the latest generation; generations only grow.
   */
  lemma WatchdogFollowsReports(cfg: Config, cal: Calendar, xs: seq<Snapshot>, ms: seq<Move>, k: nat)
    requires IsRun(cfg, cal, xs, ms)
    requires k < |xs|
    requires Guarded(CoreOfZone(xs[k].zone))
    ensures var s := xs[k].zone.session.value;
            var h := xs[k].history;
            && h.newest.Some?
            && s.freshUntil == Some(h.newest.value + cfg.maxAge)
            && xs[k].zone.armed == Some(Token(s.generation, h.newest.value + cfg.maxAge))
            && Increasing(h.generations)
  {
    RunKeepsInv(cfg, cal, xs, ms, k);
  }

  /** A watchdog callback ends the pulse exactly when the newest report has aged out and the token is the armed one. */
  lemma StaleOnlyWhenAgedOut(cfg: Config, cal: Calendar, xs: seq<Snapshot>, ms: seq<Move>, k: nat, token: Token)
    requires IsRun(cfg, cal, xs, ms)
    requires k < |ms| && ms[k].Dispatch? && ms[k].s.event == WatchdogFired(token)
    requires Guarded(CoreOfZone(xs[k].zone))
    ensures xs[k].history.newest.Some?
    ensures (xs[k + 1].zone.session.Some? && xs[k + 1].zone.session.value.pending == Some(SensorFault)) <==>
            && token == Token(xs[k].zone.session.value.generation, xs[k].history.newest.value + cfg.maxAge)
            && ms[k].s.now - xs[k].history.newest.value >= cfg.maxAge
  {
    DispatchInRun(cfg, cal, xs, ms, k);
    StaleExactlyWhenDue(InputFor(cfg, cal, xs[k].zone, ms[k].s), token);
  }

  // ----- the daily counter ------------------------------------------------------------------------------------

  /** The time all charged intervals together spend on one local date. */
  function Overlaps(cal: Calendar, charges: seq<Interval>, day: int): Time {
    if charges == [] then 0
    else
      var last := charges[|charges| - 1];
      Overlaps(cal, charges[..|charges| - 1], day) + Overlap(cal, last.start, last.end, day)
  }

  lemma {:induction false} RecomputeIsOverlaps(cal: Calendar, charges: seq<Interval>, day: int)
    requires cal.Sound()
    requires forall k :: 0 <= k < |charges| ==> charges[k].start <= charges[k].end
    ensures Recompute(cal, charges, day) == Overlaps(cal, charges, day)
  {
    if charges != [] {
      var last := charges[|charges| - 1];
      RecomputeIsOverlaps(cal, charges[..|charges| - 1], day);
      DayChargeIsOverlap(cal, last.start, last.end, day);
    }
  }

  /** Read at any later time, the counter is the overlap of everything ever charged with that day. */
  lemma CounterIsRecomputation(cfg: Config, cal: Calendar, xs: seq<Snapshot>, ms: seq<Move>, k: nat, now: Time)
    requires IsRun(cfg, cal, xs, ms)
    requires k < |xs|
    requires xs[k].history.clock <= now
    ensures CurrentDaily(cal, xs[k].zone.daily, now).runtime == Overlaps(cal, xs[k].history.charges, cal.dayOf(now))
  {
    RunKeepsInv(cfg, cal, xs, ms, k);
    LocalDatesAscend(cal, xs[k].history.clock, now);
    ReadAgrees(cal, xs[k].zone.daily, xs[k].history.charges, now);
    RecomputeIsOverlaps(cal, xs[k].history.charges, cal.dayOf(now));
  }
}
