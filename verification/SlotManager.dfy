/**
 The entry-wide watering slot: first-come-first-served ownership, a keyed set of blockers
 that is written through to the Store, and the admission switches.

 `Slots` is the value the manager's fields amount to, with one function per operation; the
 class `SlotManager` performs the operations on its fields. An operation that awaits the
 Store is two methods, because the lock-free operations may run while it is suspended.
 */
module SlotManagement {
  import opened Vocabulary

  datatype Key = Key(record: string, reason: BlockerReason)

  datatype Barrier = Barrier(dirty: bool, reconciling: bool, failed: bool) {
    predicate Clear() {
      !(dirty || reconciling || failed)
    }

    function With(dirty': Option<bool>, reconciling': Option<bool>, failed': Option<bool>): Barrier {
      Barrier(
        if dirty'.Some? then dirty'.value else dirty,
        if reconciling'.Some? then reconciling'.value else reconciling,
        if failed'.Some? then failed'.value else failed)
    }
  }

  /** One request handle; handles are numbered in the order they are created. */
  datatype Ticket = Ticket(zone: string, number: nat)

  /** What has become of a handle's future. */
  datatype Status = Waiting | Granted | Cancelled

  datatype Slots = Slots(
    owner: Option<string>,
    queue: seq<Ticket>,
    status: map<nat, Status>,
    next: nat,
    blockers: set<Key>,
    unpersisted: set<Key>,
    grantsEnabled: bool,
    barrier: Barrier)
  {
    predicate AdmissionOpen() {
      grantsEnabled && barrier.Clear()
    }

    predicate Live(t: Ticket) {
      t.number in status && !status[t.number].Cancelled?
    }

    /** The conditions under which the head of the queue is offered the slot. */
    predicate Grantable() {
      AdmissionOpen() && owner.None? && blockers == {}
    }

    /** Queue order is request order, and a queued handle is nobody's grant. */
    predicate WellFormed() {
      && (forall i :: 0 <= i < |queue| ==> queue[i].number in status && !status[queue[i].number].Granted?)
      && (forall i, j :: 0 <= i < j < |queue| ==> queue[i].number < queue[j].number)
      && (forall i, j :: 0 <= i < j < |queue| ==> queue[i].zone != queue[j].zone)
      && (forall i :: 0 <= i < |queue| ==> owner != Some(queue[i].zone))
      && (forall n :: n in status ==> n < next)
      && unpersisted <= blockers
    }

    /** No wake-up is lost: a free, open, unblocked slot leaves no live request waiting. */
    predicate NothingStranded() {
      Grantable() ==> forall i :: 0 <= i < |queue| ==> !Live(queue[i])
    }
  }

  const EMPTY: Slots :=
    Slots(None, [], map[], 0, {}, {}, false, Barrier(false, false, false))

  // ----- the grant decision ---------------------------------------------------------------

  /** The position of the first handle whose future was not cancelled. */
  function FirstLive(queue: seq<Ticket>, status: map<nat, Status>): (i: nat)
    requires forall k :: 0 <= k < |queue| ==> queue[k].number in status
    ensures i <= |queue|
    ensures i < |queue| ==> !status[queue[i].number].Cancelled?
    ensures forall k :: 0 <= k < i ==> status[queue[k].number].Cancelled?
  {
    if queue == [] || !status[queue[0].number].Cancelled? then 0 else 1 + FirstLive(queue[1..], status)
  }

  /** Drop cancelled handles from the front; give the slot to the first live one. */
  function Offer(s: Slots): Slots
    requires s.WellFormed()
  {
    var i := FirstLive(s.queue, s.status);
    if i == |s.queue| then s.(queue := [])
    else s.(queue := s.queue[i + 1..], owner := Some(s.queue[i].zone),
         status := s.status[s.queue[i].number := Granted])
  }

  function TryGrant(s: Slots): Slots
    requires s.WellFormed()
  {
    if s.Grantable() then Offer(s) else s
  }

  /** The handle a grant decision resolves, if any. */
  function NextOffer(s: Slots): Option<nat>
    requires s.WellFormed()
  {
    var i := FirstLive(s.queue, s.status);
    if s.Grantable() && i < |s.queue| then Some(s.queue[i].number) else None
  }

  // ----- operations -----------------------------------------------------------------------

  function Request(s: Slots, zone: string): (Slots, nat)
    requires s.WellFormed()
  {
    if s.owner == Some(zone) then
      (s.(status := s.status[s.next := Granted], next := s.next + 1), s.next)
    else if QueuedAt(s.queue, zone) < |s.queue| then
      (s, s.queue[QueuedAt(s.queue, zone)].number)
    else
      (TryGrant(Appended(s, zone)), s.next)
  }

  function QueuedAt(queue: seq<Ticket>, zone: string): (i: nat)
    ensures i <= |queue|
    ensures i < |queue| ==> queue[i].zone == zone
    ensures forall j :: 0 <= j < i ==> queue[j].zone != zone
  {
    if queue == [] || queue[0].zone == zone then 0 else 1 + QueuedAt(queue[1..], zone)
  }

  function Appended(s: Slots, zone: string): (r: Slots)
    requires s.WellFormed()
    requires s.owner != Some(zone)
    requires forall j :: 0 <= j < |s.queue| ==> s.queue[j].zone != zone
    ensures r.WellFormed()
  {
    s.(queue := s.queue + [Ticket(zone, s.next)], status := s.status[s.next := Waiting], next := s.next + 1)
  }

  function Without(queue: seq<Ticket>, zone: string): seq<Ticket> {
    if queue == [] then []
    else (if queue[0].zone == zone then [] else [queue[0]]) + Without(queue[1..], zone)
  }

  function CancelRequest(s: Slots, zone: string): Slots {
    s.(queue := Without(s.queue, zone))
  }

  function Release(s: Slots, zone: string): Slots
    requires s.WellFormed()
  {
    if s.owner == Some(zone) then TryGrant(s.(owner := None)) else s
  }

  function RequeueTail(s: Slots, zone: string): Slots
    requires s.WellFormed()
  {
    if s.owner == Some(zone) then TryGrant(Appended(s.(owner := None), zone)) else s
  }

  function EnableGrants(s: Slots): Slots
    requires s.WellFormed()
  {
    TryGrant(s.(grantsEnabled := true))
  }

  function DisableGrants(s: Slots): Slots {
    s.(grantsEnabled := false)
  }

  function SetBarrier(s: Slots, barrier: Barrier): Slots
    requires s.WellFormed()
  {
    TryGrant(s.(barrier := barrier))
  }

  function CancelAll(status: map<nat, Status>, queue: seq<Ticket>): map<nat, Status> {
    if queue == [] then status
    else
      var n := queue[0].number;
      CancelAll(if n in status && status[n].Waiting? then status[n := Cancelled] else status, queue[1..])
  }

  function CloseAdmission(s: Slots): Slots {
    s.(grantsEnabled := false, queue := [], status := CancelAll(s.status, s.queue))
  }

  /** A waiting task is cancelled, and with it the future it waits on. */
  function CancelHandle(s: Slots, number: nat): Slots {
    if number in s.status && s.status[number].Waiting? then s.(status := s.status[number := Cancelled]) else s
  }

  /** Whether adding this key reaches the Store at all. */
  predicate AddWrites(s: Slots, key: Key) {
    !(key in s.blockers && key !in s.unpersisted)
  }

  function BeginAdd(s: Slots, key: Key): Slots {
    if AddWrites(s, key) then s.(blockers := s.blockers + {key}, unpersisted := s.unpersisted + {key}) else s
  }

  function FinishAdd(s: Slots, key: Key, verified: bool): Slots {
    if verified then s.(unpersisted := s.unpersisted - {key}) else s
  }

  function FinishRemove(s: Slots, key: Key, verified: bool): Slots
    requires s.WellFormed()
  {
    if verified then TryGrant(s.(blockers := s.blockers - {key}, unpersisted := s.unpersisted - {key})) else s
  }

  // ----- facts about single operations ------------------------------------------------------

  /** The queue after an offer is the rest behind the handle that was resolved. */
  lemma OfferKeeps(s: Slots)
    requires s.WellFormed() && s.Grantable() && FirstLive(s.queue, s.status) < |s.queue|
    ensures var i := FirstLive(s.queue, s.status);
            var r := Offer(s);
            && r.queue == s.queue[i + 1..]
            && (forall t :: t in r.queue ==> t in s.queue && s.queue[i].number < t.number && t.zone != s.queue[i].zone)
            && r.status.Keys == s.status.Keys
  {
    var i := FirstLive(s.queue, s.status);
    var r := Offer(s);
    forall t | t in r.queue
      ensures t in s.queue && s.queue[i].number < t.number && t.zone != s.queue[i].zone
    {
      var k :| 0 <= k < |r.queue| && r.queue[k] == t;
      assert s.queue[i + 1 + k] == t;
    }
  }

  lemma OfferWellFormed(s: Slots)
    requires s.WellFormed() && s.Grantable() && FirstLive(s.queue, s.status) < |s.queue|
    ensures Offer(s).WellFormed()
  {
    var i := FirstLive(s.queue, s.status);
    var r := Offer(s);
    forall k | 0 <= k < |r.queue|
      ensures r.queue[k].number in r.status && !r.status[r.queue[k].number].Granted? && r.owner != Some(r.queue[k].zone)
    {
      assert r.queue[k] == s.queue[i + 1 + k];
      assert s.queue[i].number < s.queue[i + 1 + k].number && s.queue[i].zone != s.queue[i + 1 + k].zone;
    }
    forall j, k | 0 <= j < k < |r.queue|
      ensures r.queue[j].number < r.queue[k].number && r.queue[j].zone != r.queue[k].zone
    {
      assert r.queue[j] == s.queue[i + 1 + j] && r.queue[k] == s.queue[i + 1 + k];
    }
  }

  lemma TryGrantKeeps(s: Slots)
    requires s.WellFormed()
    ensures TryGrant(s).WellFormed()
    ensures TryGrant(s).NothingStranded()
    ensures var r := TryGrant(s); s == r.(owner := s.owner, queue := s.queue, status := s.status)
    ensures TryGrant(s).status.Keys == s.status.Keys
    ensures s.owner.Some? ==> TryGrant(s) == s
    ensures forall t :: t in TryGrant(s).queue ==> t in s.queue
    ensures NextOffer(s).Some? <==> TryGrant(s).owner != s.owner
    ensures NextOffer(s).Some? ==> forall t :: t in TryGrant(s).queue ==> NextOffer(s).value < t.number
  {
    if s.Grantable() && FirstLive(s.queue, s.status) < |s.queue| {
      OfferKeeps(s);
      OfferWellFormed(s);
    }
  }

  lemma {:induction false} WithoutKeeps(queue: seq<Ticket>, zone: string)
    requires forall i, j :: 0 <= i < j < |queue| ==> queue[i].number < queue[j].number
    requires forall i, j :: 0 <= i < j < |queue| ==> queue[i].zone != queue[j].zone
    ensures forall t :: t in Without(queue, zone) <==> t in queue && t.zone != zone
    ensures forall i, j :: 0 <= i < j < |Without(queue, zone)| ==>
                             Without(queue, zone)[i].number < Without(queue, zone)[j].number
    ensures forall i, j :: 0 <= i < j < |Without(queue, zone)| ==>
                             Without(queue, zone)[i].zone != Without(queue, zone)[j].zone
  {
    if queue != [] {
      WithoutKeeps(queue[1..], zone);
      assert queue == [queue[0]] + queue[1..];
    }
  }

  lemma {:induction false} CancelAllKeeps(status: map<nat, Status>, queue: seq<Ticket>)
    ensures CancelAll(status, queue).Keys == status.Keys
    ensures forall n :: n in status ==>
                          CancelAll(status, queue)[n] == status[n]
                          || (status[n].Waiting? && CancelAll(status, queue)[n].Cancelled?)
    ensures forall t :: t in queue && t.number in status ==> !CancelAll(status, queue)[t.number].Waiting?
  {
    if queue != [] {
      var n := queue[0].number;
      CancelAllKeeps(if n in status && status[n].Waiting? then status[n := Cancelled] else status, queue[1..]);
    }
  }

  lemma RequestKeeps(s: Slots, zone: string)
    requires s.WellFormed() && s.NothingStranded()
    ensures Request(s, zone).0.WellFormed() && Request(s, zone).0.NothingStranded()
  {
    if s.owner != Some(zone) && QueuedAt(s.queue, zone) == |s.queue| {
      TryGrantKeeps(Appended(s, zone));
    }
  }

  lemma CancelRequestKeeps(s: Slots, zone: string)
    requires s.WellFormed()
    ensures CancelRequest(s, zone).WellFormed()
    ensures s.NothingStranded() ==> CancelRequest(s, zone).NothingStranded()
  {
    WithoutKeeps(s.queue, zone);
    var r := CancelRequest(s, zone);
    assert forall i :: 0 <= i < |r.queue| ==> r.queue[i] in s.queue;
  }

  /**
   A request answers with a handle that can still come true (granted, or live in the
   queue) exactly when the zone has no cancelled handle in the queue: the existing handle
   is handed out again without looking at its future.
   */
  lemma RequestAnswers(s: Slots, zone: string)
    requires s.WellFormed() && s.NothingStranded()
    ensures var (r, n) := Request(s, zone);
            n in r.status &&
            (r.status[n].Cancelled? <==> exists t :: t in s.queue && t.zone == zone && !s.Live(t))
    ensures var (r, n) := Request(s, zone);
            r.status[n].Granted? ==> r.owner == Some(zone)
    ensures var (r, n) := Request(s, zone);
            r.status[n].Waiting? ==> Ticket(zone, n) in r.queue
  {
    var (r, n) := Request(s, zone);
    if s.owner == Some(zone) {
      assert !exists t :: t in s.queue && t.zone == zone;
    } else {
      var i := QueuedAt(s.queue, zone);
      if i < |s.queue| {
        assert s.queue[i] in s.queue;
      } else {
        var a := Appended(s, zone);
        var last := a.queue[|a.queue| - 1];
        TryGrantKeeps(a);
        if a.Grantable() {
          assert !exists k :: 0 <= k < |s.queue| && a.Live(a.queue[k]) by {
            assert forall k :: 0 <= k < |s.queue| ==> a.queue[k] == s.queue[k] && !s.Live(s.queue[k]);
          }
          assert FirstLive(a.queue, a.status) == |s.queue|;
        } else {
          assert a.queue[|s.queue|] == Ticket(zone, n);
        }
      }
    }
  }

  // ----- the manager ------------------------------------------------------------------------

  class SlotManager {
    var owner: Option<string>
    var queue: seq<Ticket>
    var status: map<nat, Status>
    var next: nat
    var blockers: set<Key>
    var unpersisted: set<Key>
    var grantsEnabled: bool
    var barrier: Barrier

    ghost function View(): Slots
      reads this
    {
      Slots(owner, queue, status, next, blockers, unpersisted, grantsEnabled, barrier)
    }

    constructor ()
      ensures View() == EMPTY
    {
      owner, queue, status, next := None, [], map[], 0;
      blockers, unpersisted := {}, {};
      grantsEnabled, barrier := false, Barrier(false, false, false);
    }

    method TryGrantLocked()
      requires View().WellFormed()
      modifies this
      ensures View() == TryGrant(old(View()))
    {
      if !grantsEnabled || !barrier.Clear() || owner.Some? || blockers != {} {
        return;
      }
      ghost var before := queue;
      ghost var popped := 0;
      while queue != []
        invariant popped <= |before| && queue == before[popped..]
        invariant View() == old(View()).(queue := queue)
        invariant forall k :: 0 <= k < popped ==> status[before[k].number].Cancelled?
      {
        var request := queue[0];
        assert request == before[popped];
        queue := queue[1..];
        if status[request.number].Cancelled? {
          popped := popped + 1;
        } else {
          owner := Some(request.zone);
          status := status[request.number := Granted];
          assert FirstLive(before, old(status)) == popped;
          return;
        }
      }
    }

    method RequestSlot(zone: string) returns (number: nat)
      requires View().WellFormed()
      modifies this
      ensures (View(), number) == Request(old(View()), zone)
    {
      if owner == Some(zone) {
        number := next;
        status := status[number := Granted];
        next := next + 1;
        return;
      }
      for i := 0 to |queue|
        invariant View() == old(View())
        invariant forall k :: 0 <= k < i ==> queue[k].zone != zone
      {
        if queue[i].zone == zone {
          assert QueuedAt(queue, zone) == i;
          return queue[i].number;
        }
      }
      number := next;
      ghost var appended := Appended(View(), zone);
      queue := queue + [Ticket(zone, number)];
      status := status[number := Waiting];
      next := next + 1;
      assert View() == appended;
      TryGrantLocked();
    }

    method CancelRequestOf(zone: string)
      modifies this
      ensures View() == CancelRequest(old(View()), zone)
    {
      var kept := [];
      for i := 0 to |queue|
        invariant View() == old(View())
        invariant kept + Without(queue[i..], zone) == Without(queue, zone)
      {
        assert queue[i..] == [queue[i]] + queue[i + 1..];
        if queue[i].zone != zone {
          kept := kept + [queue[i]];
        }
      }
      assert queue[|queue|..] == [];
      queue := kept;
    }

    method ReleaseBy(zone: string) returns (released: bool)
      requires View().WellFormed()
      modifies this
      ensures View() == Release(old(View()), zone)
      ensures released <==> old(owner) == Some(zone)
    {
      released := owner == Some(zone);
      if released {
        owner := None;
        TryGrantLocked();
      }
    }

    method RequeueTailOf(zone: string)
      requires View().WellFormed()
      modifies this
      ensures View() == RequeueTail(old(View()), zone)
    {
      if owner == Some(zone) {
        owner := None;
        ghost var appended := Appended(View(), zone);
        queue := queue + [Ticket(zone, next)];
        status := status[next := Waiting];
        next := next + 1;
        assert View() == appended;
        TryGrantLocked();
      }
    }

    method Enable()
      requires View().WellFormed()
      modifies this
      ensures View() == EnableGrants(old(View()))
    {
      grantsEnabled := true;
      TryGrantLocked();
    }

    method Disable()
      modifies this
      ensures View() == DisableGrants(old(View()))
    {
      grantsEnabled := false;
    }

    /** Lock-free: may run while another operation is suspended in a Store write. */
    method CloseAdmissionNow()
      modifies this
      ensures View() == CloseAdmission(old(View()))
    {
      grantsEnabled := false;
      var queued := queue;
      queue := [];
      for i := 0 to |queued|
        invariant View() == old(View()).(grantsEnabled := false, queue := [], status := status)
        invariant CancelAll(status, queued[i..]) == CancelAll(old(status), queued)
      {
        var n := queued[i].number;
        assert queued[i..][0] == queued[i] && queued[i..][1..] == queued[i + 1..];
        if n in status && status[n].Waiting? {
          status := status[n := Cancelled];
        }
      }
    }

    /** Lock-free: may run while another operation is suspended in a Store write. */
    method SetReconciliationStateNow(dirty: Option<bool>, reconciling: Option<bool>, failed: Option<bool>)
      requires View().WellFormed()
      modifies this
      ensures View() == SetBarrier(old(View()), old(barrier).With(dirty, reconciling, failed))
    {
      barrier := barrier.With(dirty, reconciling, failed);
      TryGrantLocked();
    }

    /** Up to the Store write; `writes` says whether there is one to await. */
    method BeginAddBlocker(key: Key) returns (writes: bool)
      modifies this
      ensures View() == BeginAdd(old(View()), key)
      ensures writes == AddWrites(old(View()), key)
    {
      writes := !(key in blockers && key !in unpersisted);
      if writes {
        blockers := blockers + {key};
        unpersisted := unpersisted + {key};
      }
    }

    method FinishAddBlocker(key: Key, verified: bool)
      modifies this
      ensures View() == FinishAdd(old(View()), key, verified)
    {
      if verified {
        unpersisted := unpersisted - {key};
      }
    }

    /** After the Store write of a removal; a failed write keeps the live blocker. */
    method FinishRemoveBlocker(key: Key, verified: bool)
      requires View().WellFormed()
      modifies this
      ensures View() == FinishRemove(old(View()), key, verified)
    {
      if verified {
        blockers := blockers - {key};
        unpersisted := unpersisted - {key};
        TryGrantLocked();
      }
    }
  }
}
