/**
 Every interleaving of slot operations. An operation that awaits the Store holds the lock
 while it is suspended; the lock-free operations and task cancellation run at any time.
 */
module SlotRuns {
  import opened Vocabulary
  import opened SlotManagement

  /** The operation that holds the lock across its Store write. */
  datatype InFlight = NotWriting | Adding(key: Key) | Removing(key: Key)

  /** `durable` is what the Store holds; `offers` lists the handles resolved so far. */
  datatype World = World(slots: Slots, durable: set<Key>, inFlight: InFlight, offers: seq<nat>)

  datatype Step =
    | RequestStep(zone: string)
    | CancelStep(zone: string)
    | ReleaseStep(zone: string)
    | RequeueStep(zone: string)
    | EnableStep
    | DisableStep
    | StartAdd(key: Key)
    | StartRemove(key: Key)
    | WriteReturns(verified: bool, tookEffect: bool)
    | BarrierNow(dirty: Option<bool>, reconciling: Option<bool>, failed: Option<bool>)
    | CloseNow
    | CancelFuture(number: nat)

  /** The lock is free, or the step needs no lock. A verified write has taken effect. */
  predicate Possible(w: World, step: Step) {
    match step
    case WriteReturns(verified, tookEffect) => !w.inFlight.NotWriting? && (verified ==> tookEffect)
    case BarrierNow(_, _, _) => true
    case CloseNow => true
    case CancelFuture(_) => true
    case _ => w.inFlight.NotWriting?
  }

  /** The slots just before the step's grant decision, when it makes one. */
  function BeforeGrant(w: World, step: Step): Option<Slots>
    requires w.slots.WellFormed()
  {
    var s := w.slots;
    match step
    case RequestStep(zone) =>
      if s.owner != Some(zone) && QueuedAt(s.queue, zone) == |s.queue| then Some(Appended(s, zone)) else None
    case ReleaseStep(zone) => if s.owner == Some(zone) then Some(s.(owner := None)) else None
    case RequeueStep(zone) => if s.owner == Some(zone) then Some(Appended(s.(owner := None), zone)) else None
    case EnableStep => Some(s.(grantsEnabled := true))
    case BarrierNow(d, r, f) => Some(s.(barrier := s.barrier.With(d, r, f)))
    case WriteReturns(verified, _) =>
      if verified && w.inFlight.Removing? then
        Some(s.(blockers := s.blockers - {w.inFlight.key}, unpersisted := s.unpersisted - {w.inFlight.key}))
      else None
    case _ => None
  }

  function NextSlots(w: World, step: Step): Slots
    requires w.slots.WellFormed()
  {
    var s := w.slots;
    match step
    case RequestStep(zone) => Request(s, zone).0
    case CancelStep(zone) => CancelRequest(s, zone)
    case ReleaseStep(zone) => Release(s, zone)
    case RequeueStep(zone) => RequeueTail(s, zone)
    case EnableStep => EnableGrants(s)
    case DisableStep => DisableGrants(s)
    case StartAdd(key) => BeginAdd(s, key)
    case StartRemove(key) => s
    case WriteReturns(verified, _) =>
      (match w.inFlight
       case NotWriting => s
       case Adding(key) => FinishAdd(s, key, verified)
       case Removing(key) => FinishRemove(s, key, verified))
    case BarrierNow(d, r, f) => SetBarrier(s, s.barrier.With(d, r, f))
    case CloseNow => CloseAdmission(s)
    case CancelFuture(n) => CancelHandle(s, n)
  }

  function NextDurable(w: World, step: Step): set<Key> {
    match step
    case WriteReturns(_, tookEffect) =>
      if !tookEffect then w.durable
      else
        (match w.inFlight
         case NotWriting => w.durable
         case Adding(key) => w.durable + {key}
         case Removing(key) => w.durable - {key})
    case _ => w.durable
  }

  function NextInFlight(w: World, step: Step): InFlight {
    match step
    case StartAdd(key) => if AddWrites(w.slots, key) then Adding(key) else NotWriting
    case StartRemove(key) => if key in w.slots.blockers then Removing(key) else NotWriting
    case WriteReturns(_, _) => NotWriting
    case _ => w.inFlight
  }

  function OfferedBy(w: World, step: Step): seq<nat>
    requires w.slots.WellFormed()
    requires BeforeGrant(w, step).Some? ==> BeforeGrant(w, step).value.WellFormed()
  {
    match BeforeGrant(w, step)
    case None => []
    case Some(s) => if NextOffer(s).Some? then [NextOffer(s).value] else []
  }

  lemma BeforeGrantWellFormed(w: World, step: Step)
    requires w.slots.WellFormed()
    ensures BeforeGrant(w, step).Some? ==> BeforeGrant(w, step).value.WellFormed()
  {
  }

  function After(w: World, step: Step): World
    requires w.slots.WellFormed()
  {
    BeforeGrantWellFormed(w, step);
    World(NextSlots(w, step), NextDurable(w, step), NextInFlight(w, step), w.offers + OfferedBy(w, step))
  }

  // ----- the invariant ------------------------------------------------------------------------

  ghost predicate Ascending(s: seq<nat>) {
    forall i, j :: 0 <= i < j < |s| ==> s[i] < s[j]
  }

  ghost predicate Inv(w: World) {
    && w.slots.WellFormed()
    && w.slots.NothingStranded()
    && w.durable <= w.slots.blockers
    && (w.inFlight.Adding? ==> w.inFlight.key in w.slots.unpersisted)
    && (w.inFlight.Removing? ==> w.inFlight.key in w.slots.blockers)
    && OffersFit(w.slots, w.offers)
  }

  const START: World := World(EMPTY, {}, NotWriting, [])

  lemma StepKeepsSlots(w: World, step: Step)
    requires Inv(w) && Possible(w, step)
    ensures NextSlots(w, step).WellFormed()
    ensures NextSlots(w, step).NothingStranded()
    ensures BeforeGrant(w, step).Some? ==>
              BeforeGrant(w, step).value.WellFormed() && NextSlots(w, step) == TryGrant(BeforeGrant(w, step).value)
  {
    BeforeGrantWellFormed(w, step);
    match BeforeGrant(w, step)
    case Some(s) =>
      TryGrantKeeps(s);
    case None =>
      match step {
        case RequestStep(zone) => RequestKeeps(w.slots, zone);
        case CancelStep(zone) => CancelRequestKeeps(w.slots, zone);
        case CloseNow => CancelAllKeeps(w.slots.status, w.slots.queue);
        case _ =>
      }
  }

  /** What a step without a grant decision leaves of the handles. */
  lemma StatusKept(w: World, step: Step)
    requires Inv(w) && Possible(w, step)
    requires BeforeGrant(w, step).None?
    ensures var r := NextSlots(w, step);
            && w.slots.next <= r.next
            && w.slots.status.Keys <= r.status.Keys
            && (forall t :: t in r.queue ==> t in w.slots.queue)
            && (forall n :: n in w.slots.status && w.slots.status[n].Granted? ==> r.status[n].Granted?)
  {
    match step {
      case CancelStep(zone) => WithoutKeeps(w.slots.queue, zone);
      case CloseNow => CancelAllKeeps(w.slots.status, w.slots.queue);
      case _ =>
    }
  }

  /** The handles resolved so far, against the slots. */
  ghost predicate OffersFit(s: Slots, offers: seq<nat>) {
    && Ascending(offers)
    && (forall n :: n in offers ==> n in s.status && s.status[n].Granted?)
    && (forall n, t :: n in offers && t in s.queue ==> n < t.number)
  }

  /** Nothing has been resolved yet that the slots before the grant decision do not show. */
  lemma OffersBeforeGrant(w: World, step: Step)
    requires Inv(w) && Possible(w, step)
    requires BeforeGrant(w, step).Some?
    ensures OffersFit(BeforeGrant(w, step).value, w.offers)
  {
    var s := BeforeGrant(w, step).value;
    assert forall t :: t in s.queue ==> t in w.slots.queue || t.number == w.slots.next;
  }

  lemma AscendingSnoc(offers: seq<nat>, n: nat)
    requires Ascending(offers) && forall m :: m in offers ==> m < n
    ensures Ascending(offers + [n])
  {
    assert forall k :: 0 <= k < |offers| ==> offers[k] in offers;
  }

  lemma GrantKeepsOffers(s: Slots, offers: seq<nat>)
    requires s.WellFormed() && OffersFit(s, offers)
    ensures OffersFit(TryGrant(s), offers + if NextOffer(s).Some? then [NextOffer(s).value] else [])
  {
    TryGrantKeeps(s);
    if NextOffer(s).Some? {
      var offered := s.queue[FirstLive(s.queue, s.status)];
      assert offered in s.queue;
      AscendingSnoc(offers, offered.number);
      assert forall n :: n in offers + [offered.number] ==> n in offers || n == offered.number;
    } else {
      assert offers + [] == offers;
    }
  }

  lemma StepKeepsOffers(w: World, step: Step)
    requires Inv(w) && Possible(w, step)
    ensures OffersFit(After(w, step).slots, After(w, step).offers)
  {
    StepKeepsSlots(w, step);
    if BeforeGrant(w, step).None? {
      StatusKept(w, step);
      assert After(w, step).offers == w.offers;
    } else {
      OffersBeforeGrant(w, step);
      GrantKeepsOffers(BeforeGrant(w, step).value, w.offers);
    }
  }

  lemma StepKeepsInv(w: World, step: Step)
    requires Inv(w) && Possible(w, step)
    ensures Inv(After(w, step))
  {
    StepKeepsSlots(w, step);
    StepKeepsOffers(w, step);
    if BeforeGrant(w, step).Some? {
      TryGrantKeeps(BeforeGrant(w, step).value);
    }
  }

  // ----- runs -----------------------------------------------------------------------------------

  ghost predicate IsRun(states: seq<World>, steps: seq<Step>) {
    && |states| == |steps| + 1
    && states[0] == START
    && forall k :: 0 <= k < |steps| ==>
                     states[k].slots.WellFormed() && Possible(states[k], steps[k])
                     && states[k + 1] == After(states[k], steps[k])
  }

  lemma {:induction false} RunKeepsInv(states: seq<World>, steps: seq<Step>, k: nat)
    requires IsRun(states, steps)
    requires k < |states|
    ensures Inv(states[k])
  {
    if k > 0 {
      RunKeepsInv(states, steps, k - 1);
      StepKeepsInv(states[k - 1], steps[k - 1]);
    }
  }

  /**
   At every suspension point of every run: what the Store holds is live, no handle is
   resolved while any key is live or admission is shut, and no live request waits on a
   free, open, unblocked slot.
   */
  lemma FailClosed(states: seq<World>, steps: seq<Step>, k: nat)
    requires IsRun(states, steps)
    requires k < |steps|
    ensures states[k].durable <= states[k].slots.blockers
    ensures states[k + 1].offers != states[k].offers ==>
              states[k + 1].slots.blockers == {} && states[k + 1].durable == {} && states[k + 1].slots.AdmissionOpen()
    ensures states[k + 1].slots.owner.Some? && states[k + 1].slots.owner != states[k].slots.owner ==>
              states[k + 1].offers != states[k].offers
    ensures states[k + 1].slots.NothingStranded()
  {
    RunKeepsInv(states, steps, k);
    RunKeepsInv(states, steps, k + 1);
    StepKeepsSlots(states[k], steps[k]);
    if BeforeGrant(states[k], steps[k]).Some? {
      TryGrantKeeps(BeforeGrant(states[k], steps[k]).value);
    }
  }

  /** The key a step is about. */
  function KeyOf(w: World, step: Step): Option<Key> {
    match step
    case StartAdd(key) => Some(key)
    case StartRemove(key) => Some(key)
    case WriteReturns(_, _) => if w.inFlight.NotWriting? then None else Some(w.inFlight.key)
    case _ => None
  }

  /** A step changes no key but its own, neither live nor durably. */
  lemma OtherKeysUntouched(w: World, step: Step, key: Key)
    requires Inv(w) && Possible(w, step)
    requires KeyOf(w, step) != Some(key)
    ensures key in After(w, step).slots.blockers <==> key in w.slots.blockers
    ensures key in After(w, step).slots.unpersisted <==> key in w.slots.unpersisted
    ensures key in After(w, step).durable <==> key in w.durable
  {
    StepKeepsSlots(w, step);
    if BeforeGrant(w, step).Some? {
      TryGrantKeeps(BeforeGrant(w, step).value);
    }
  }

  /**
   No overtaking: in every run handles are resolved in the order they were created, and
   once a handle has been resolved no older one is still queued.
   */
  lemma RequestOrder(states: seq<World>, steps: seq<Step>, k: nat)
    requires IsRun(states, steps)
    requires k < |states|
    ensures Ascending(states[k].offers)
    ensures forall n, t :: n in states[k].offers && t in states[k].slots.queue ==> n < t.number
  {
    RunKeepsInv(states, steps, k);
  }

  const ABANDONED: Slots :=
    EMPTY.(queue := [Ticket("a", 0)], status := map[0 := Cancelled], next := 1)

  /**
   A request and the cancellation of the task that waits on it leave the dead handle queued; the
   zone then asks again and is handed the dead handle.
   */
  lemma DeadHandleExample()
    ensures CancelHandle(Request(EMPTY, "a").0, 0) == ABANDONED
    ensures ABANDONED.WellFormed() && ABANDONED.NothingStranded()
    ensures Request(ABANDONED, "a") == (ABANDONED, 0)
  {
    var appended := Appended(EMPTY, "a");
    assert appended.queue == [Ticket("a", 0)];
    assert appended.status == map[0 := Waiting];
    assert Request(EMPTY, "a").0 == appended;
    assert CancelHandle(appended, 0).status == map[0 := Cancelled];
    assert ABANDONED.queue[0] == Ticket("a", 0);
    assert QueuedAt(ABANDONED.queue, "a") == 0;
  }
}
