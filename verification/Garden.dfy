/**
 Any number of zones over one slot manager. A zone works through the actions of a decision one
 by one while the other zones, the slot queue and the runtime go on, and Store writes succeed.
 The result is global: water flows from at most one commanded pulse.
 */
module Garden {
  import opened Vocabulary
  import opened StateMachine
  import opened Accounting
  import opened SlotManagement
  import opened ZoneControl
  import opened ZoneInvariant
  import opened ZoneLaws
  import opened ZoneActions
  import opened ZoneDuties
  import opened ZoneRuns

  /** A zone, and the actions of its last decision that are still to be carried out. */
  datatype Plot = Plot(cfg: Config, zone: Zone, todo: seq<Action>, reason: Option<Reason>)

  datatype World = World(plots: map<string, Plot>, slots: Slots)

  predicate Open(z: Zone) {
    z.session.Some? && z.session.value.PulseOpen()
  }

  datatype Step =
    | Deliver(id: string, s: Stimulus)
    | Act(id: string)
    | Commanded(id: string, at: Time)
    | Ask(id: string)
    | Withdraw(id: string)
    | GiveUp(id: string)
    | Requeue(id: string)
    | Enable
    | Disable
    | SetBarrierTo(barrier: Barrier)
    | Close
    | CancelTask(number: nat)
    | Block(key: Key)
    | Unblock(key: Key)

  /**
   A zone decides under its lock, that is with nothing left to do, on what the slot manager
   then says. It is assumed that the waiting task gives the slot back only while its zone has no
   open pulse, and that nobody but the zone puts up or takes down the zone's own fence; what
   happens otherwise is the subject of `GardenHazards`.
   */
  predicate Possible(cal: Calendar, w: World, step: Step) {
    match step
    case Deliver(id, s) =>
      && id in w.plots && w.plots[id].todo == []
      && s.slotGranted == (w.slots.owner == Some(id))
      && s.blockersEmpty == (w.slots.blockers == {})
      && Promised(InputFor(w.plots[id].cfg, cal, w.plots[id].zone, s))
      && !AckWithOpenAccounting(InputFor(w.plots[id].cfg, cal, w.plots[id].zone, s))
    case Act(id) => id in w.plots && w.plots[id].todo != []
    case Commanded(id, _) => id in w.plots
    case GiveUp(id) => id in w.plots && !Open(w.plots[id].zone)
    case Requeue(id) => id in w.plots && !Open(w.plots[id].zone)
    case Block(key) => key.reason != FENCE
    case Unblock(key) => key.reason != FENCE
    case _ => true
  }

  /** Deciding applies everything but the actions. */
  function Decided(cal: Calendar, p: Plot, s: Stimulus): Plot {
    var o := DecisionFor(p.cfg, cal, p.zone, s);
    var ready := Prepared(cal, p.zone, s);
    if o.Raise? || !Applicable(o.value) then p.(zone := ready)
    else Adopting(cal, p, ready, o.value, InputFor(p.cfg, cal, p.zone, s))
  }

  function Adopting(cal: Calendar, p: Plot, ready: Zone, d: Decision, inp: Input): Plot
    requires Applicable(d)
  {
    if d.noOp then p.(zone := ready)
    else p.(zone := Applied(cal, ready, d, inp), todo := d.actions, reason := d.reason)
  }

  function Acted(p: Plot): Plot
    requires p.todo != []
  {
    p.(zone := Perform(p.zone, p.todo[0], p.reason), todo := p.todo[1..])
  }

  function NextPlots(cal: Calendar, w: World, step: Step): map<string, Plot>
    requires Possible(cal, w, step)
  {
    match step
    case Deliver(id, s) => w.plots[id := Decided(cal, w.plots[id], s)]
    case Act(id) => w.plots[id := Acted(w.plots[id])]
    case Commanded(id, at) => w.plots[id := w.plots[id].(zone := Anchored(w.plots[id].zone, at))]
    case _ => w.plots
  }

  function NextSlots(cal: Calendar, w: World, step: Step): Slots
    requires w.slots.WellFormed()
    requires Possible(cal, w, step)
  {
    var s := w.slots;
    match step
    case Act(id) => PerformOnSlots(s, id, w.plots[id].todo[0])
    case Ask(id) => Request(s, id).0
    case Withdraw(id) => CancelRequest(s, id)
    case GiveUp(id) => Release(s, id)
    case Requeue(id) => RequeueTail(s, id)
    case Enable => EnableGrants(s)
    case Disable => DisableGrants(s)
    case SetBarrierTo(barrier) => SetBarrier(s, barrier)
    case Close => CloseAdmission(s)
    case CancelTask(n) => CancelHandle(s, n)
    case Block(key) => FinishAdd(BeginAdd(s, key), key, true)
    case Unblock(key) => if key in s.blockers then FinishRemove(s, key, true) else s
    case _ => s
  }

  function After(cal: Calendar, w: World, step: Step): World
    requires w.slots.WellFormed()
    requires Possible(cal, w, step)
  {
    World(NextPlots(cal, w, step), NextSlots(cal, w, step))
  }

  // ----- the invariant ------------------------------------------------------------------------------

  ghost predicate ZoneSound(p: Plot) {
    p.cfg.Sound() && CoreInv(p.cfg, CoreOfZone(p.zone)) && 0 <= p.zone.daily.runtime
  }

  /** Water that may flow is covered by the slot or by the zone's fence. */
  ghost predicate Covered(id: string, p: Plot, s: Slots) {
    && (Open(p.zone) ==> s.owner == Some(id) || Key(id, FENCE) in s.blockers)
    && (Retained(CoreOfZone(p.zone)) ==> Key(id, FENCE) in s.blockers || AddBlocker(FENCE) in p.todo)
    && (RemoveBlocker(FENCE) in p.todo ==> p.zone.session.None?)
    && (ReleaseSlot in p.todo && Open(p.zone) ==> Key(id, FENCE) in s.blockers)
  }

  /** The session has a committed reason and waits for OFF. */
  predicate Waits(z: Zone) {
    z.session.Some? && z.session.value.pending.Some?
  }

  /** A fence stands only for a session that waits for OFF, or is about to come down. */
  ghost predicate Tidy(id: string, p: Plot, s: Slots) {
    && (Key(id, FENCE) in s.blockers ==> RemoveBlocker(FENCE) in p.todo || Waits(p.zone))
    && (AddBlocker(FENCE) in p.todo ==> Waits(p.zone))
  }

  ghost predicate OneOpen(w: World) {
    forall i, j :: i in w.plots && j in w.plots && Open(w.plots[i].zone) && Open(w.plots[j].zone) ==> i == j
  }

  ghost predicate Fine(id: string, p: Plot, s: Slots) {
    ZoneSound(p) && Covered(id, p, s) && Tidy(id, p, s)
  }

  ghost predicate Inv(w: World) {
    && w.slots.WellFormed()
    && (forall i :: i in w.plots ==> Fine(i, w.plots[i], w.slots))
    && OneOpen(w)
  }

  /** A garden in which startup has fenced whatever may still flow is a garden to start from. */
  lemma FencedGardenIsSound(w: World)
    requires w.slots.WellFormed() && OneOpen(w)
    requires forall i :: i in w.plots ==> ZoneSound(w.plots[i]) && w.plots[i].todo == []
    requires forall i :: i in w.plots && (Open(w.plots[i].zone) || Retained(CoreOfZone(w.plots[i].zone))) ==>
                           Key(i, FENCE) in w.slots.blockers
    requires forall i :: i in w.plots && Key(i, FENCE) in w.slots.blockers ==> Waits(w.plots[i].zone)
    ensures Inv(w)
  {
  }

  /** Startup fences every watering zone it does not close at once. */
  lemma StartupFences(inp: Input)
    requires inp.state.Watering? && inp.session.Some? && inp.event.StartupPersistedWatering?
    requires Decide(inp).Ok?
    ensures CoreAfter(inp, Decide(inp).value).session.Some? <==> AddBlocker(FENCE) in Decide(inp).value.actions
  {
  }

  // ----- what the other steps leave of the slots ---------------------------------------------------------

  /** The owner changes only from nobody, or by the zone's own release; no foreign fence goes. */
  predicate Respects(s: Slots, r: Slots, id: string) {
    && (s.owner.Some? && s.owner != Some(id) ==> r.owner == s.owner)
    && (forall k :: k in s.blockers && k.reason == FENCE && k.record != id ==> k in r.blockers)
  }

  lemma ReleaseRespects(s: Slots, id: string)
    requires s.WellFormed()
    ensures Release(s, id).WellFormed() && Respects(s, Release(s, id), id)
    ensures Release(s, id).blockers == s.blockers
  {
    TryGrantKeeps(s.(owner := None));
  }

  lemma ActRespects(s: Slots, id: string, a: Action)
    requires s.WellFormed()
    ensures var r := PerformOnSlots(s, id, a);
            && r.WellFormed() && Respects(s, r, id)
            && (!a.ReleaseSlot? && s.owner.Some? ==> r.owner == s.owner)
            && (a != RemoveBlocker(FENCE) && Key(id, FENCE) in s.blockers ==> Key(id, FENCE) in r.blockers)
            && (a == AddBlocker(FENCE) ==> Key(id, FENCE) in r.blockers)
  {
    match a
    case ReleaseSlot =>
      ReleaseRespects(s, id);
    case RemoveBlocker(reason) =>
      var key := Key(id, reason);
      if key in s.blockers {
        TryGrantKeeps(s.(blockers := s.blockers - {key}, unpersisted := s.unpersisted - {key}));
      }
    case _ =>
  }

  /** Steps that belong to the slot manager and the runtime, and the zone they act for. */
  predicate OnlySlots(step: Step) {
    !step.Deliver? && !step.Act? && !step.Commanded?
  }

  lemma SlotStepRespects(cal: Calendar, w: World, step: Step)
    requires w.slots.WellFormed() && Possible(cal, w, step) && OnlySlots(step)
    ensures var r := NextSlots(cal, w, step);
            && r.WellFormed()
            && (forall k: Key :: k.reason == FENCE ==> (k in w.slots.blockers <==> k in r.blockers))
            && (w.slots.owner.Some? && r.owner != w.slots.owner ==>
                  (step.GiveUp? || step.Requeue?) && w.slots.owner == Some(step.id))
  {
    var s := w.slots;
    match step
    case Ask(id) =>
      if s.owner != Some(id) && QueuedAt(s.queue, id) == |s.queue| {
        TryGrantKeeps(Appended(s, id));
      }
    case Withdraw(id) => CancelRequestKeeps(s, id);
    case GiveUp(id) => ReleaseRespects(s, id);
    case Requeue(id) =>
      if s.owner == Some(id) {
        TryGrantKeeps(Appended(s.(owner := None), id));
      }
    case Enable => TryGrantKeeps(s.(grantsEnabled := true));
    case SetBarrierTo(barrier) => TryGrantKeeps(s.(barrier := barrier));
    case Close => CancelAllKeeps(s.status, s.queue);
    case Unblock(key) =>
      if key in s.blockers {
        TryGrantKeeps(s.(blockers := s.blockers - {key}, unpersisted := s.unpersisted - {key}));
      }
    case _ =>
  }

  /** A zone does not notice what leaves its fence alone, and the slot too unless no pulse is open. */
  lemma UndisturbedFine(i: string, p: Plot, s: Slots, r: Slots)
    requires Fine(i, p, s)
    requires Key(i, FENCE) in s.blockers <==> Key(i, FENCE) in r.blockers
    requires Open(p.zone) && s.owner == Some(i) ==> r.owner == Some(i)
    ensures Fine(i, p, r)
  {
  }

  lemma SlotStepKeepsInv(cal: Calendar, w: World, step: Step)
    requires Inv(w) && Possible(cal, w, step) && OnlySlots(step)
    ensures Inv(After(cal, w, step))
  {
    SlotStepRespects(cal, w, step);
    var r := NextSlots(cal, w, step);
    forall i | i in w.plots
      ensures Fine(i, w.plots[i], r)
    {
      UndisturbedFine(i, w.plots[i], w.slots, r);
    }
  }

  lemma AnchoredKeeps(id: string, p: Plot, s: Slots, at: Time)
    requires Fine(id, p, s)
    ensures var q := p.(zone := Anchored(p.zone, at)); Fine(id, q, s) && Open(q.zone) == Open(p.zone)
  {
  }

  /** One zone changes, the slots stay, and no pulse opens unless no other is open. */
  lemma OneChanges(w: World, id: string, q: Plot)
    requires Inv(w) && id in w.plots && Fine(id, q, w.slots)
    requires Open(q.zone) && !Open(w.plots[id].zone) ==> forall j :: j in w.plots && j != id ==> !Open(w.plots[j].zone)
    ensures Inv(w.(plots := w.plots[id := q]))
  {
  }

  lemma CommandKeepsInv(cal: Calendar, w: World, id: string, at: Time)
    requires Inv(w) && Possible(cal, w, Commanded(id, at))
    ensures Inv(After(cal, w, Commanded(id, at)))
  {
    AnchoredKeeps(id, w.plots[id], w.slots, at);
    OneChanges(w, id, w.plots[id].(zone := Anchored(w.plots[id].zone, at)));
  }

  // ----- carrying out an action ----------------------------------------------------------------------------

  lemma OwnActCovered(id: string, p: Plot, s: Slots)
    requires s.WellFormed() && p.todo != [] && Covered(id, p, s)
    ensures Covered(id, Acted(p), PerformOnSlots(s, id, p.todo[0]))
  {
    var a := p.todo[0];
    ActRespects(s, id, a);
    PerformKeeps(p.zone, a, p.reason);
    assert forall b :: b in p.todo[1..] ==> b in p.todo;
    assert forall b :: b in p.todo ==> b == a || b in p.todo[1..];
    assert a in p.todo;
  }

  /** Which fences an action puts up or takes down. */
  lemma ActFences(s: Slots, id: string, a: Action, k: Key)
    requires s.WellFormed() && k.reason == FENCE
    ensures k in PerformOnSlots(s, id, a).blockers ==> k in s.blockers || (a == AddBlocker(FENCE) && k == Key(id, FENCE))
    ensures a == RemoveBlocker(FENCE) ==> Key(id, FENCE) !in PerformOnSlots(s, id, a).blockers
  {
    match a
    case ReleaseSlot =>
      ReleaseRespects(s, id);
    case RemoveBlocker(reason) =>
      var key := Key(id, reason);
      if key in s.blockers {
        TryGrantKeeps(s.(blockers := s.blockers - {key}, unpersisted := s.unpersisted - {key}));
      }
    case _ =>
  }

  lemma OwnActTidy(id: string, p: Plot, s: Slots)
    requires s.WellFormed() && p.todo != [] && Tidy(id, p, s)
    ensures Tidy(id, Acted(p), PerformOnSlots(s, id, p.todo[0]))
  {
    var a := p.todo[0];
    ActFences(s, id, a, Key(id, FENCE));
    PerformKeeps(p.zone, a, p.reason);
    assert a in p.todo;
    assert forall b :: b in p.todo ==> b == a || b in p.todo[1..];
  }

  lemma OwnActFine(id: string, p: Plot, s: Slots)
    requires s.WellFormed() && p.todo != [] && Fine(id, p, s)
    ensures Fine(id, Acted(p), PerformOnSlots(s, id, p.todo[0])) && Open(Acted(p).zone) == Open(p.zone)
  {
    PerformKeeps(p.zone, p.todo[0], p.reason);
    OwnActCovered(id, p, s);
    OwnActTidy(id, p, s);
  }

  lemma OtherActFine(id: string, i: string, p: Plot, s: Slots, a: Action)
    requires s.WellFormed() && i != id && Fine(i, p, s)
    ensures Fine(i, p, PerformOnSlots(s, id, a))
  {
    ActRespects(s, id, a);
    ActFences(s, id, a, Key(i, FENCE));
    UndisturbedFine(i, p, s, PerformOnSlots(s, id, a));
  }

  /** One zone and the slots change, and no pulse opens or closes. */
  lemma OneActs(w: World, id: string, q: Plot, r: Slots)
    requires Inv(w) && id in w.plots && r.WellFormed()
    requires Fine(id, q, r) && Open(q.zone) == Open(w.plots[id].zone)
    requires forall j :: j in w.plots && j != id ==> Fine(j, w.plots[j], r)
    ensures Inv(World(w.plots[id := q], r))
  {
  }

  lemma ActKeepsInv(cal: Calendar, w: World, id: string)
    requires Inv(w) && Possible(cal, w, Act(id))
    ensures Inv(After(cal, w, Act(id)))
  {
    var p := w.plots[id];
    assert Fine(id, p, w.slots);
    OwnActFine(id, p, w.slots);
    forall i | i in w.plots && i != id
      ensures Fine(i, w.plots[i], PerformOnSlots(w.slots, id, p.todo[0]))
    {
      OtherActFine(id, i, w.plots[i], w.slots, p.todo[0]);
    }
    OneActs(w, id, Acted(p), PerformOnSlots(w.slots, id, p.todo[0]));
  }

  // ----- deciding ---------------------------------------------------------------------------------------------

  lemma AppliedDaily(cal: Calendar, z: Zone, d: Decision, inp: Input)
    requires Applicable(d) && Agrees(z, inp) && 0 <= z.daily.runtime
    ensures 0 <= Applied(cal, z, d, inp).daily.runtime
  {
    AppliedCore(cal, z, d, inp);
    AdoptedCore(z, d, inp);
    SettledCore(cal, Adopted(z, d, inp), d, inp);
  }

  /** A decision in an unfenced garden: what it opens it may open, what it leaves open is covered. */
  lemma DecisionCovered(id: string, p: Plot, s: Slots, inp: Input, d: Decision, z: Zone)
    requires Regular(inp) && Obeys(inp, d)
    requires Covered(id, p, s) && p.todo == []
    requires inp.slotGranted == (s.owner == Some(id))
    requires inp.session == p.zone.session && inp.state == p.zone.state
    requires CoreOfZone(z) == CoreAfter(inp, d)
    ensures Covered(id, p.(zone := z, todo := d.actions, reason := d.reason), s)
    ensures Open(z) && !Open(p.zone) ==> inp.slotGranted && inp.blockersEmpty
  {
  }

  lemma DecisionTidy(id: string, p: Plot, s: Slots, inp: Input, d: Decision, z: Zone)
    requires Continues(inp, d) && Dutiful(inp, d)
    requires Tidy(id, p, s) && p.todo == []
    requires inp.session == p.zone.session && CoreOfZone(z) == CoreAfter(inp, d)
    ensures Tidy(id, p.(zone := z, todo := d.actions, reason := d.reason), s)
  {
  }

  lemma AdoptingTidy(cal: Calendar, id: string, p: Plot, s: Slots, ready: Zone, inp: Input, d: Decision)
    requires Continues(inp, d) && Dutiful(inp, d) && Answers(inp, Ok(d))
    requires Tidy(id, p, s) && p.todo == []
    requires inp.session == p.zone.session && Agrees(ready, inp)
    ensures Tidy(id, Adopting(cal, p, ready, d, inp), s)
  {
    if d.noOp {
      DecisionTidy(id, p, s, inp, d, ready);
    } else {
      AppliedCore(cal, ready, d, inp);
      DecisionTidy(id, p, s, inp, d, Applied(cal, ready, d, inp));
    }
  }

  lemma AdoptingCovered(cal: Calendar, id: string, p: Plot, s: Slots, ready: Zone, inp: Input, d: Decision)
    requires Regular(inp) && Obeys(inp, d) && Answers(inp, Ok(d)) && inp.config == p.cfg
    requires Covered(id, p, s) && p.todo == []
    requires inp.slotGranted == (s.owner == Some(id))
    requires inp.session == p.zone.session && inp.state == p.zone.state
    requires Agrees(ready, inp) && 0 <= ready.daily.runtime
    ensures var q := Adopting(cal, p, ready, d, inp);
            && ZoneSound(q) && Covered(id, q, s)
            && (Open(q.zone) && !Open(p.zone) ==> inp.slotGranted && inp.blockersEmpty)
  {
    if d.noOp {
      DecisionCovered(id, p, s, inp, d, ready);
    } else {
      AppliedCore(cal, ready, d, inp);
      AppliedDaily(cal, ready, d, inp);
      DecisionCovered(id, p, s, inp, d, Applied(cal, ready, d, inp));
    }
  }

  /** The question a sound zone puts to the state machine, and the answer it gets. */
  lemma DeliverIsRegular(cal: Calendar, p: Plot, s: Stimulus) returns (inp: Input, d: Decision)
    requires ZoneSound(p)
    requires Promised(InputFor(p.cfg, cal, p.zone, s)) && !AckWithOpenAccounting(InputFor(p.cfg, cal, p.zone, s))
    ensures inp == InputFor(p.cfg, cal, p.zone, s)
    ensures Regular(inp) && Obeys(inp, d) && Answers(inp, Ok(d)) && Dutiful(inp, d)
    ensures Decided(cal, p, s) == Adopting(cal, p, Prepared(cal, p.zone, s), d, inp)
  {
    inp := InputFor(p.cfg, cal, p.zone, s);
    assert Regular(inp);
    DispatchFacts(p.cfg, cal, p.zone, s);
    DecideDutiful(inp);
    d := DecisionFor(p.cfg, cal, p.zone, s).value;
  }

  lemma DecidedFacts(cal: Calendar, w: World, id: string, s: Stimulus)
    requires Inv(w) && Possible(cal, w, Deliver(id, s))
    ensures var p := w.plots[id];
            var q := Decided(cal, p, s);
            && Fine(id, q, w.slots)
            && (Open(q.zone) && !Open(p.zone) ==> w.slots.owner == Some(id) && w.slots.blockers == {})
  {
    var p := w.plots[id];
    assert Fine(id, p, w.slots);
    var inp, d := DeliverIsRegular(cal, p, s);
    AdoptingCovered(cal, id, p, w.slots, Prepared(cal, p.zone, s), inp, d);
    AdoptingTidy(cal, id, p, w.slots, Prepared(cal, p.zone, s), inp, d);
  }

  lemma DispatchKeepsInv(cal: Calendar, w: World, id: string, s: Stimulus)
    requires Inv(w) && Possible(cal, w, Deliver(id, s))
    ensures Inv(After(cal, w, Deliver(id, s)))
  {
    DecidedFacts(cal, w, id, s);
    var q := Decided(cal, w.plots[id], s);
    if Open(q.zone) && !Open(w.plots[id].zone) {
      FreeMeansClosed(w, id);
    }
    OneChanges(w, id, q);
  }

  /** Whoever owns the unblocked slot shares the garden with no open pulse. */
  lemma FreeMeansClosed(w: World, id: string)
    requires Inv(w) && w.slots.owner == Some(id) && w.slots.blockers == {}
    ensures forall j :: j in w.plots && j != id ==> !Open(w.plots[j].zone)
  {
    forall j | j in w.plots && j != id
      ensures !Open(w.plots[j].zone)
    {
      assert Fine(j, w.plots[j], w.slots);
    }
  }

  // ----- runs ---------------------------------------------------------------------------------------------------

  lemma StepKeepsInv(cal: Calendar, w: World, step: Step)
    requires Inv(w) && Possible(cal, w, step)
    ensures Inv(After(cal, w, step))
  {
    match step
    case Deliver(id, s) => DispatchKeepsInv(cal, w, id, s);
    case Act(id) => ActKeepsInv(cal, w, id);
    case Commanded(id, at) => CommandKeepsInv(cal, w, id, at);
    case _ => SlotStepKeepsInv(cal, w, step);
  }

  ghost predicate IsRun(cal: Calendar, ws: seq<World>, steps: seq<Step>) {
    && |ws| == |steps| + 1
    && Inv(ws[0])
    && forall k :: 0 <= k < |steps| ==>
                     ws[k].slots.WellFormed() && Possible(cal, ws[k], steps[k]) && ws[k + 1] == After(cal, ws[k], steps[k])
  }

  lemma {:induction false} RunKeepsInv(cal: Calendar, ws: seq<World>, steps: seq<Step>, k: nat)
    requires IsRun(cal, ws, steps)
    requires k < |ws|
    ensures Inv(ws[k])
  {
    if k > 0 {
      RunKeepsInv(cal, ws, steps, k - 1);
      StepKeepsInv(cal, ws[k - 1], steps[k - 1]);
    }
  }

  /**
   At every point of every run at most one zone has an open pulse; it owns the slot or its
   fence is up, and once its zone has nothing left to do and is not watering, the fence is up.
   */
  lemma AtMostOneOpenPulse(cal: Calendar, ws: seq<World>, steps: seq<Step>, k: nat, i: string)
    requires IsRun(cal, ws, steps)
    requires k < |ws| && i in ws[k].plots && Open(ws[k].plots[i].zone)
    ensures forall j :: j in ws[k].plots && j != i ==> !Open(ws[k].plots[j].zone)
    ensures ws[k].slots.owner == Some(i) || Key(i, FENCE) in ws[k].slots.blockers
    ensures ws[k].plots[i].todo == [] && !ws[k].plots[i].zone.state.Watering? ==> Key(i, FENCE) in ws[k].slots.blockers
  {
    RunKeepsInv(cal, ws, steps, k);
    assert Fine(i, ws[k].plots[i], ws[k].slots);
  }

  /**
   A fence neither falls early nor stays up: in every run, the fence of a zone with nothing left
   to do stands only for a session that waits for OFF, and outside WATERING for exactly those.
   */
  lemma FenceStandsForWaiting(cal: Calendar, ws: seq<World>, steps: seq<Step>, k: nat, i: string)
    requires IsRun(cal, ws, steps)
    requires k < |ws| && i in ws[k].plots && ws[k].plots[i].todo == []
    ensures Key(i, FENCE) in ws[k].slots.blockers ==> Waits(ws[k].plots[i].zone)
    ensures !ws[k].plots[i].zone.state.Watering? ==> (Key(i, FENCE) in ws[k].slots.blockers <==> Waits(ws[k].plots[i].zone))
  {
    RunKeepsInv(cal, ws, steps, k);
    assert Fine(i, ws[k].plots[i], ws[k].slots);
  }

  /** Every TurnOn of every run is decided while no zone at all has an open pulse. */
  lemma TurnOnFindsNoOpenPulse(cal: Calendar, ws: seq<World>, steps: seq<Step>, k: nat)
    requires IsRun(cal, ws, steps)
    requires k < |steps| && steps[k].Deliver?
    requires TurnOn in ws[k + 1].plots[steps[k].id].todo
    ensures forall j :: j in ws[k].plots ==> !Open(ws[k].plots[j].zone)
    ensures ws[k].slots.owner == Some(steps[k].id) && ws[k].slots.blockers == {}
  {
    RunKeepsInv(cal, ws, steps, k);
    var p := ws[k].plots[steps[k].id];
    assert Fine(steps[k].id, p, ws[k].slots);
    var inp, d := DeliverIsRegular(cal, p, steps[k].s);
    StartFindsClosed(inp, d);
    FreeMeansClosed(ws[k], steps[k].id);
  }

  lemma StartFindsClosed(inp: Input, d: Decision)
    requires Regular(inp) && Obeys(inp, d) && TurnOn in d.actions
    ensures inp.slotGranted && inp.blockersEmpty
    ensures inp.session.Some? ==> !inp.session.value.PulseOpen()
  {
  }
}
