/**
 What the garden's two assumptions are worth. Republishing the blockers from a Store snapshot can
 take down a fence whose write was not in that snapshot yet, and a waiting task could give the slot
 back while its zone has an open pulse. Each is safe exactly under a condition on the world before,
 and from a world that does not meet it two pulses can be open at once.
 */
module GardenHazards {
  import opened Vocabulary
  import opened StateMachine
  import opened Accounting
  import opened SlotManagement
  import opened ZoneControl
  import opened ZoneInvariant
  import opened ZoneLaws
  import opened ZoneActions
  import opened ZoneGuards
  import opened ZoneRuns
  import opened Garden
  import SlotRuns

  // ----- republishing the blockers ----------------------------------------------------------------------

  /** The live keys that republishing takes down: those its Store snapshot does not hold. */
  function Missing(s: Slots, snapshot: set<Key>): set<Key> {
    s.blockers - snapshot
  }

  const EARLY: Key := Key("a", FENCE)

  const ADDING: SlotRuns.World := SlotRuns.START.(
    slots := EMPTY.(blockers := {EARLY}, unpersisted := {EARLY}), inFlight := SlotRuns.Adding(EARLY))

  const ADDED: SlotRuns.World := SlotRuns.START.(slots := EMPTY.(blockers := {EARLY}), durable := {EARLY})

  /**
   A snapshot taken while the write of a fence is suspended misses it; the write then completes,
   and the fence is taken down, live and durably.
   */
  lemma SuspendedFenceIsTakenDown()
    ensures SlotRuns.Possible(SlotRuns.START, SlotRuns.StartAdd(EARLY))
    ensures SlotRuns.After(SlotRuns.START, SlotRuns.StartAdd(EARLY)) == ADDING
    ensures Missing(ADDING.slots, ADDING.durable) == {EARLY}
    ensures SlotRuns.After(ADDING, SlotRuns.WriteReturns(true, true)) == ADDED
    ensures EARLY in ADDED.slots.blockers && EARLY in ADDED.durable
    ensures var removing := SlotRuns.After(ADDED, SlotRuns.StartRemove(EARLY));
            && removing.slots.WellFormed()
            && var gone := SlotRuns.After(removing, SlotRuns.WriteReturns(true, true));
               gone.slots.blockers == {} && gone.durable == {}
  {
  }

  // ----- a fence taken down from outside ----------------------------------------------------------------

  /** The slots after a key was taken down from outside. */
  function TakenDown(s: Slots, key: Key): Slots
    requires s.WellFormed()
  {
    FinishRemove(s, key, true)
  }

  /** The zone owns the slot, or is next for it once nothing but its own fence is in the way. */
  predicate GetsSlot(s: Slots, id: string)
    requires s.WellFormed()
  {
    var i := FirstLive(s.queue, s.status);
    || s.owner == Some(id)
    || (s.owner.None? && s.AdmissionOpen() && s.blockers == {Key(id, FENCE)} && i < |s.queue| && s.queue[i].zone == id)
  }

  lemma GetsSlotExactly(s: Slots, id: string)
    requires s.WellFormed() && Key(id, FENCE) in s.blockers
    ensures TakenDown(s, Key(id, FENCE)).owner == Some(id) <==> GetsSlot(s, id)
  {
    assert s.blockers - {Key(id, FENCE)} == {} <==> s.blockers == {Key(id, FENCE)};
  }

  /** What the zone would need for its fence to be missed by nobody. */
  ghost predicate Dispensable(id: string, p: Plot, s: Slots)
    requires s.WellFormed()
  {
    && (Open(p.zone) ==> GetsSlot(s, id) && ReleaseSlot !in p.todo)
    && (Retained(CoreOfZone(p.zone)) ==> AddBlocker(FENCE) in p.todo)
  }

  /** Taking down a zone's fence from outside is safe exactly when the fence was dispensable. */
  lemma ForeignHandOnFence(w: World, id: string)
    requires Garden.Inv(w) && id in w.plots && Key(id, FENCE) in w.slots.blockers
    ensures Garden.Inv(w.(slots := TakenDown(w.slots, Key(id, FENCE)))) <==> Dispensable(id, w.plots[id], w.slots)
  {
    var key := Key(id, FENCE);
    var s := w.slots;
    TryGrantKeeps(s.(blockers := s.blockers - {key}, unpersisted := s.unpersisted - {key}));
    GetsSlotExactly(s, id);
    var r := TakenDown(s, key);
    assert Fine(id, w.plots[id], s);
    forall i | i in w.plots && i != id
      ensures Fine(i, w.plots[i], r)
    {
      UndisturbedFine(i, w.plots[i], s, r);
    }
    assert Fine(id, w.plots[id], r) <==> Dispensable(id, w.plots[id], s);
  }

  // ----- a slot given back too early ------------------------------------------------------------------------

  /** Giving the slot back is safe exactly when the zone has no open pulse or its fence is up. */
  lemma ReleaseWhileOpen(w: World, id: string)
    requires Garden.Inv(w) && id in w.plots && w.slots.owner == Some(id)
    ensures Garden.Inv(w.(slots := Release(w.slots, id))) <==> !Open(w.plots[id].zone) || Key(id, FENCE) in w.slots.blockers
  {
    var s := w.slots;
    TryGrantKeeps(s.(owner := None));
    var r := Release(s, id);
    assert r.owner != Some(id) by {
      var i := FirstLive(s.queue, s.status);
      assert i < |s.queue| ==> s.queue[i].zone != id;
    }
    assert Fine(id, w.plots[id], s);
    forall i | i in w.plots && i != id
      ensures Fine(i, w.plots[i], r)
    {
      UndisturbedFine(i, w.plots[i], s, r);
    }
    assert Fine(id, w.plots[id], r) <==> !Open(w.plots[id].zone) || Key(id, FENCE) in s.blockers;
  }

  // ----- two open pulses ----------------------------------------------------------------------------------------

  /** A zone that may start on the slot it owns decides to. */
  lemma StartIsDecided(cal: Calendar, p: Plot, s: Stimulus) returns (inp: Input, d: Decision)
    requires ZoneSound(p) && p.zone.state.Idle? && EvaluatesStart(s.event)
    requires Promised(InputFor(p.cfg, cal, p.zone, s))
    requires MayStart(InputFor(p.cfg, cal, p.zone, s)) && s.slotGranted && s.blockersEmpty
    ensures Regular(inp) && Obeys(inp, d) && Answers(inp, Ok(d)) && Starts(d) && Agrees(Prepared(cal, p.zone, s), inp)
    ensures Decided(cal, p, s) == Adopting(cal, p, Prepared(cal, p.zone, s), d, inp)
  {
    inp := InputFor(p.cfg, cal, p.zone, s);
    PreparedIsRegular(p.cfg, cal, p.zone, s);
    DispatchFacts(p.cfg, cal, p.zone, s);
    AutoStartsExactly(inp);
    d := DecisionFor(p.cfg, cal, p.zone, s).value;
  }

  /** A start leaves its zone with an open pulse. */
  lemma StartOpens(cal: Calendar, p: Plot, s: Stimulus)
    requires ZoneSound(p) && p.zone.state.Idle? && EvaluatesStart(s.event)
    requires Promised(InputFor(p.cfg, cal, p.zone, s))
    requires MayStart(InputFor(p.cfg, cal, p.zone, s)) && s.slotGranted && s.blockersEmpty
    ensures Open(Decided(cal, p, s).zone)
  {
    var inp, d := StartIsDecided(cal, p, s);
    StartedIsOpen(cal, p, Prepared(cal, p.zone, s), inp, d);
  }

  lemma StartedIsOpen(cal: Calendar, p: Plot, ready: Zone, inp: Input, d: Decision)
    requires Regular(inp) && Obeys(inp, d) && Answers(inp, Ok(d)) && Starts(d) && Agrees(ready, inp)
    ensures Open(Adopting(cal, p, ready, d, inp).zone)
  {
    AppliedCore(cal, ready, d, inp);
  }

  /** If the slot falls to a zone that may start while another has an open pulse, two pulses are open. */
  lemma SecondPulseOpens(cal: Calendar, w: World, i: string, j: string, s: Stimulus)
    requires w.slots.WellFormed() && i in w.plots && j in w.plots && i != j
    requires Open(w.plots[i].zone)
    requires w.slots.owner == Some(j) && w.slots.blockers == {}
    requires ZoneSound(w.plots[j]) && w.plots[j].zone.state.Idle? && EvaluatesStart(s.event)
    requires Possible(cal, w, Deliver(j, s)) && MayStart(InputFor(w.plots[j].cfg, cal, w.plots[j].zone, s))
    ensures var r := After(cal, w, Deliver(j, s)); Open(r.plots[i].zone) && Open(r.plots[j].zone)
  {
    StartOpens(cal, w.plots[j], s);
  }

  // ----- and worlds in which it happens --------------------------------------------------------------------------

  const QUIET_ZONE: Zone := Zone(
    Idle, true, None, None, None, Daily(0, 0), None, None, None, None, map[], false, false, false, None, [])

  /** A zone that waits for OFF proof, one that waters, and a dry one that may start. */
  const WAITING_PLOT: Plot := Plot(
    CONFIG_EXAMPLE, QUIET_ZONE.(state := Fault, session := Some(SESSION_EXAMPLE), activeFault := Some(ActuatorOffTimeout)), [], None)

  const WATERING_PLOT: Plot := Plot(
    CONFIG_EXAMPLE,
    QUIET_ZONE.(state := Watering, session := Some(SESSION_EXAMPLE.(pending := None, freshUntil := Some(58)))), [], None)

  const DRY_PLOT: Plot := Plot(CONFIG_EXAMPLE, QUIET_ZONE, [], None)

  const QUEUED: Slots := EMPTY.(
    queue := [Ticket("b", 0)], status := map[0 := Waiting], next := 1, grantsEnabled := true)

  const FENCED_WORLD: World := World(map["a" := WAITING_PLOT, "b" := DRY_PLOT], QUEUED.(blockers := {EARLY}))

  const WATERING_WORLD: World := World(map["a" := WATERING_PLOT, "b" := DRY_PLOT], QUEUED.(owner := Some("a")))

  /** The dry zone is granted the slot. */
  const GRANT: Stimulus := Stimulus(
    9, Observation(Some(20.0), Valid, Some(8)), Assessment(true, true, false), true, true,
    Identity("next", "run", "fingerprint"), SlotGranted)

  const HANDED_ON: Slots := QUEUED.(queue := [], owner := Some("b"), status := map[0 := Granted])

  lemma ExamplePlotsAreFine()
    ensures Fine("a", WAITING_PLOT, FENCED_WORLD.slots) && Fine("a", WATERING_PLOT, WATERING_WORLD.slots)
    ensures Open(WAITING_PLOT.zone) && Open(WATERING_PLOT.zone) && !Open(DRY_PLOT.zone)
  {
  }

  lemma DryPlotIsFine(s: Slots)
    requires Key("b", FENCE) !in s.blockers
    ensures Fine("b", DRY_PLOT, s)
  {
  }

  /** A plot with an open pulse beside the dry one. */
  lemma PairIsSound(p: Plot, s: Slots)
    requires s.WellFormed() && Fine("a", p, s) && Fine("b", DRY_PLOT, s) && !Open(DRY_PLOT.zone)
    ensures Garden.Inv(World(map["a" := p, "b" := DRY_PLOT], s))
  {
  }

  lemma ExamplesAreSound()
    ensures Garden.Inv(FENCED_WORLD) && Garden.Inv(WATERING_WORLD)
  {
    ExamplePlotsAreFine();
    DryPlotIsFine(FENCED_WORLD.slots);
    DryPlotIsFine(WATERING_WORLD.slots);
    PairIsSound(WAITING_PLOT, FENCED_WORLD.slots);
    PairIsSound(WATERING_PLOT, WATERING_WORLD.slots);
  }

  /** Whatever the calendar, the dry zone may start on its grant. */
  lemma DryZoneMayStart(cal: Calendar)
    ensures ZoneSound(DRY_PLOT)
    ensures Promised(InputFor(CONFIG_EXAMPLE, cal, QUIET_ZONE, GRANT)) && MayStart(InputFor(CONFIG_EXAMPLE, cal, QUIET_ZONE, GRANT))
    ensures !AckWithOpenAccounting(InputFor(CONFIG_EXAMPLE, cal, QUIET_ZONE, GRANT))
  {
  }

  lemma SlotFallsToDryZone()
    ensures FENCED_WORLD.slots.WellFormed() && WATERING_WORLD.slots.WellFormed()
    ensures TakenDown(FENCED_WORLD.slots, EARLY) == HANDED_ON
    ensures Release(WATERING_WORLD.slots, "a") == HANDED_ON
  {
    assert QUEUED.queue[0] == Ticket("b", 0);
    assert FirstLive(QUEUED.queue, QUEUED.status) == 0;
    assert QUEUED.queue[1..] == [];
    assert QUEUED.status[0 := Granted] == map[0 := Granted];
    assert FENCED_WORLD.slots.blockers - {EARLY} == {};
  }

  /** Once the slot has fallen to the dry zone, its grant opens a second pulse beside an open one. */
  lemma GrantOpensSecond(cal: Calendar, p: Plot)
    requires Open(p.zone)
    ensures var w := World(map["a" := p, "b" := DRY_PLOT], HANDED_ON);
            && w.slots.WellFormed() && Possible(cal, w, Deliver("b", GRANT))
            && var r := After(cal, w, Deliver("b", GRANT)); Open(r.plots["a"].zone) && Open(r.plots["b"].zone)
  {
    DryZoneMayStart(cal);
    SecondPulseOpens(cal, World(map["a" := p, "b" := DRY_PLOT], HANDED_ON), "a", "b", GRANT);
  }

  /** The fence of the waiting zone is taken down, the slot falls to the dry zone, and two pulses are open. */
  lemma TakenDownFenceOpensTwo(cal: Calendar)
    ensures Garden.Inv(FENCED_WORLD) && !Dispensable("a", WAITING_PLOT, FENCED_WORLD.slots)
    ensures var w := FENCED_WORLD.(slots := TakenDown(FENCED_WORLD.slots, EARLY));
            && w.slots.WellFormed() && Possible(cal, w, Deliver("b", GRANT))
            && var r := After(cal, w, Deliver("b", GRANT)); Open(r.plots["a"].zone) && Open(r.plots["b"].zone)
  {
    ExamplesAreSound();
    SlotFallsToDryZone();
    ExamplePlotsAreFine();
    GrantOpensSecond(cal, WAITING_PLOT);
  }

  /** The slot of the watering zone is given back, falls to the dry zone, and two pulses are open. */
  lemma EarlyReleaseOpensTwo(cal: Calendar)
    ensures Garden.Inv(WATERING_WORLD) && WATERING_WORLD.slots.owner == Some("a")
    ensures var w := WATERING_WORLD.(slots := Release(WATERING_WORLD.slots, "a"));
            && w.slots.WellFormed() && Possible(cal, w, Deliver("b", GRANT))
            && var r := After(cal, w, Deliver("b", GRANT)); Open(r.plots["a"].zone) && Open(r.plots["b"].zone)
  {
    ExamplesAreSound();
    SlotFallsToDryZone();
    ExamplePlotsAreFine();
    GrantOpensSecond(cal, WATERING_PLOT);
  }
}
