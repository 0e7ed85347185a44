/**
 The reconciliation transaction: rewrite records and histories for the configuration that was
 observed, without losing evidence of a hazard. What the registry and the state machine show
 is a parameter; freshly minted ids come with each configured zone.
 */
module Planner {
  import opened Vocabulary
  import opened Merge
  import opened StoreModel
  import opened ZoneActions

  datatype Minted = Minted(record: string, lineage: string, history: string)

  /** A configured zone, resolved: its actuator and sensor as they are addressable now. */
  datatype Target = Target(
    subentry: string,
    uuid: Option<string>,
    entity: string,
    domain: Domain,
    confirmTimeout: Time,
    sensor: SensorIdentity,
    shadow: Shadow,
    ambiguity: Option<string>,
    sensorFault: Option<FaultCode>,
    minted: Minted)

  /** What is known of the actuators: assessments by record and by zone, present entities, renames. */
  datatype Facts = Facts(
    ofRecord: map<string, Assessment>,
    ofZone: map<string, Assessment>,
    present: set<string>,
    renamed: map<string, string>,
    today: int)

  datatype Trouble =
    | SharedActuator(zone: string)
    | Ambiguous(zone: string)
    | Conflicted(zone: string)
    | Unresolvable(zone: string)
    | RetainedSession(record: string)
    | OpenSession(history: string)

  datatype Draft = Draft(records: map<string, Record>, histories: map<string, ZoneHistory>, troubles: seq<Trouble>)

  /** Evolving a record runs its constructor. */
  function Make(r: Record): (p: Outcome<Record>)
    ensures p.Ok? ==> p.value == r && r.Constructible()
  {
    if r.Constructible() then Ok(r) else Raise(Unconstructible)
  }

  predicate SameActuator(r: Record, t: Target) {
    if t.uuid.Some? then r.identity.uuid == t.uuid
    else r.active == Some(t.subentry) && r.identity.status.RegistryUnavailable? && r.identity.entity == Some(t.entity)
  }

  // ----- one record against what its actuator shows --------------------------------------------------

  function Unproven(r: Record): Record {
    r.(blockers := r.blockers + {ActuatorNotProvenOff})
  }

  function ProvenOff(r: Record, session: bool): Record {
    var blockers := r.blockers - {ActuatorNotProvenOff, ExternalFlow};
    r.(blockers := blockers, flow := if !session && FENCE !in blockers then None else r.flow)
  }

  function Reassessed(r: Record, session: bool, a: Option<Assessment>, operatorProof: bool): Record {
    if a.None? then (if operatorProof then ProvenOff(r, session) else Unproven(r))
    else if a.value.provenOff then ProvenOff(r, session)
    else if a.value.observedOn && !session then
      r.(blockers := r.blockers + {ExternalFlow}, flow := Some(External))
    else Unproven(r)
  }

  /** A rename moves only the address of a retained actuator. */
  function Readdressed(r: Record, w: Facts): Record {
    if r.identity.uuid.Some? && r.identity.domain.Some? && r.identity.uuid.value in w.renamed then
      r.(identity := r.identity.(entity := Some(w.renamed[r.identity.uuid.value])))
    else r
  }

  function Lookup(m: map<string, Assessment>, k: string): Option<Assessment> {
    if k in m then Some(m[k]) else None
  }

  /** The operator's word counts only for the identity it was given for. */
  predicate OperatorProof(r: Record, w: Facts) {
    Lookup(w.ofRecord, r.id).None? && r.removedAck.Some? && r.identity.uuid == Some(r.removedAck.value.uuid)
  }

  /** The actuator is known to be off, by observation or by the operator. */
  predicate OffProof(r: Record, w: Facts) {
    (Lookup(w.ofRecord, r.id).Some? && Lookup(w.ofRecord, r.id).value.provenOff) || OperatorProof(r, w)
  }

  function WithIdentity(r: Record, w: Facts): Record {
    if Lookup(w.ofRecord, r.id).Some? then r
    else r.(identity := r.identity.(status := Missing),
         incident := if OperatorProof(r, w) then None
         else Some(Incident(IdentityMissing, "retained actuator identity unresolved for " + r.id)))
  }

  predicate SafeToRetire(r: Record, session: bool, w: Facts) {
    OffProof(r, w) && r.blockers == {} && r.flow.None? && !session
  }

  function Retain(r: Record, session: bool, w: Facts): Outcome<Record> {
    var addressed := Readdressed(r, w);
    var assessed := Reassessed(addressed, session, Lookup(w.ofRecord, r.id), OperatorProof(addressed, w));
    var known := WithIdentity(assessed, w);
    Make(known.(lifecycle := if SafeToRetire(known, session, w) then Retired else DeletePending))
  }

  function Appended(ids: seq<string>, id: string): seq<string> {
    if id in ids then ids else ids + [id]
  }

  // ----- first loop: owners that are no longer configured ------------------------------------------------

  /** The zone keeps the actuator this record stands for. */
  predicate StillConfigured(r: Record, targets: map<string, Target>) {
    r.active.Some? && r.active.value in targets && SameActuator(r, targets[r.active.value])
  }

  function Released(r: Record): Record {
    if r.active.None? then r
    else r.(active := None, previous := Appended(r.previous, r.active.value), lifecycle := DeletePending)
  }

  function Orphaned(h: ZoneHistory, subentry: string): ZoneHistory {
    h.(operation := h.operation.(active := None, previous := Appended(h.operation.previous, subentry)))
  }

  /** Only a removed zone gives up its history; a changed actuator leaves it with the zone. */
  function HistoriesWithout(d: Draft, r: Record, targets: map<string, Target>): map<string, ZoneHistory>
    requires r.history in d.histories
  {
    if r.active.Some? && r.active.value !in targets then
      d.histories[r.history := Orphaned(d.histories[r.history], r.active.value)]
    else d.histories
  }

  function Tombstone(d: Draft, id: string, targets: map<string, Target>, w: Facts): Outcome<Draft> {
    if id !in d.records then Raise(MissingRecord)
    else if StillConfigured(d.records[id], targets) then Ok(d)
    else if d.records[id].history !in d.histories then Raise(MissingHistory)
    else
      var r := d.records[id];
      var histories := HistoriesWithout(d, r, targets);
      var released :- Make(Released(r));
      var retained :- Retain(released, histories[r.history].operation.session.Some?, w);
      Ok(d.(records := d.records[id := retained], histories := histories))
  }

  function TombstoneAll(d: Draft, order: seq<string>, targets: map<string, Target>, w: Facts): Outcome<Draft>
    decreases |order|
  {
    if order == [] then Ok(d)
    else
      var next :- Tombstone(d, order[0], targets, w);
      TombstoneAll(next, order[1..], targets, w)
  }

  // ----- second loop: configured zones --------------------------------------------------------------------

  /** Records caught in an identity conflict keep everything and are blocked. */
  function Flag(d: Draft, ids: set<string>, incident: Incident, trouble: Trouble): Draft {
    d.(records := map id | id in d.records ::
    if id in ids then Unproven(d.records[id]).(incident := Some(incident)) else d.records[id],
    troubles := d.troubles + [trouble])
  }

  function ConflictOf(t: Target): Incident {
    Incident(IdentityConflict, "identity conflict for " + t.subentry)
  }

  function MissingOf(t: Target): Incident {
    Incident(IdentityMissing, "durable actuator identity missing/ambiguous for " + t.subentry)
  }

  function Exact(d: Draft, t: Target): set<string> {
    set id | id in d.records && t.uuid.Some? && d.records[id].identity.uuid == t.uuid
  }

  function SameText(d: Draft, t: Target): set<string> {
    set id | id in d.records && d.records[id].identity.entity == Some(t.entity)
             && d.records[id].identity.uuid.Some? && d.records[id].identity.uuid != t.uuid
  }

  function Mapped(d: Draft, t: Target): set<string> {
    set id | id in d.records && d.records[id].zone == t.subentry && d.records[id].active.None?
             && d.records[id].identity.status.Missing?
  }

  function Unregistered(d: Draft, t: Target): set<string> {
    set id | id in d.records && t.uuid.None? && d.records[id].active != Some(t.subentry)
             && d.records[id].identity.entity == Some(t.entity)
  }

  function Claimants(d: Draft, t: Target): set<string> {
    set id | id in d.records && (d.records[id].identity.uuid == t.uuid || d.records[id].active == Some(t.subentry)
                                 || d.records[id].zone == t.subentry)
  }

  /** What the zone's configuration leads to. */
  datatype Selection = Chosen(id: string) | Mint | Stuck

  predicate Unique(ids: set<string>) {
    |ids| == 1
  }

  function TheOne(ids: set<string>): (id: string)
    requires Unique(ids)
    ensures id in ids
  {
    OneElement(ids);
    var id :| id in ids;
    id
  }

  lemma OneElement(ids: set<string>)
    requires |ids| == 1
    ensures exists id :: id in ids
    ensures forall a, b :: a in ids && b in ids ==> a == b
  {
    var a :| a in ids;
    assert ids - {a} == {} by {
      assert |ids - {a}| == 0;
    }
  }

  function Select(d: Draft, prior: Option<Record>, t: Target, w: Facts): Selection {
    if prior.Some? && SameActuator(prior.value, t) then Chosen(prior.value.id)
    else if Unique(Exact(d, t)) then Chosen(TheOne(Exact(d, t)))
    else if Unique(Mapped(d, t)) && (t.uuid.Some? || t.entity in w.present) then Chosen(TheOne(Mapped(d, t)))
    else if Unregistered(d, t) != {} || t.entity !in w.present then Stuck
    else Mint
  }

  function IdentityOf(t: Target): ActuatorIdentity {
    ActuatorIdentity(t.uuid, Some(t.entity), Some(t.domain), if t.uuid.Some? then RegistryConfirmed else RegistryUnavailable,
                     ServiceOf(Some(t.domain)), Some(t.confirmTimeout))
  }

  function NewRecord(t: Target): Record {
    Record(t.minted.record, t.subentry, Some(t.subentry), [], t.minted.lineage, t.minted.history, [], Active,
           Some(t.shadow), IdentityOf(t), {}, None, None, None, false, None)
  }

  /** A zone that was never configured before starts disabled. */
  function NewHistory(t: Target, today: int): ZoneHistory {
    History(t.minted.history, None, None, Some(DayBudget(today, 0.0, 0.0, [])),
            Operation(Some(t.subentry), [], false, Disabled, None, None, t.sensor, None, None))
  }

  function MintInto(d: Draft, t: Target, w: Facts): Draft {
    d.(records := d.records[t.minted.record := NewRecord(t)],
    histories := d.histories[t.minted.history := NewHistory(t, w.today)])
  }

  /** Another record still belongs to the history. */
  predicate Referenced(d: Draft, history: string, except: string) {
    exists id :: id in d.records && id != except && d.records[id].history == history
  }

  /** What joining the selected record to the continuing history came to. */
  datatype Joined = Joined(d: Draft, selected: Record) | Held(d: Draft)

  function Join(d: Draft, selected: Record, continuing: string): Outcome<Joined> {
    if selected.history == continuing then Ok(Joined(d, selected))
    else if continuing !in d.histories || selected.history !in d.histories then Raise(MissingHistory)
    else if d.histories[selected.history].operation.session.Some? then
      Ok(Held(d.(troubles := d.troubles + [RetainedSession(selected.id)])))
    else
      var merged := MergeHistories(d.histories[continuing], d.histories[selected.history]);
      if merged.Raise? then Raise(merged.error)
      else
        var histories := d.histories[continuing := merged.value];
        var left := if Referenced(d, selected.history, selected.id) then histories else histories - {selected.history};
        var moved :- Make(selected.(history := continuing,
                                    pastHistories := Appended(selected.pastHistories, selected.history)));
        Ok(Joined(d.(histories := left), moved))
  }

  /** The session that is open belongs to the very actuator the zone continues with. */
  predicate ContinuesActuator(prior: Option<Record>, selected: Record, exact: set<string>, t: Target) {
    if prior.Some? then selected.id == prior.value.id && SameActuator(prior.value, t)
    else exact == {selected.id} && SameActuator(selected, t)
  }

  function Others(ids: seq<string>, id: string): seq<string> {
    if ids == [] then [] else (if ids[0] == id then [] else [ids[0]]) + Others(ids[1..], id)
  }

  /** The former owners, the last one included, without the new owner. */
  function Former(previous: seq<string>, active: Option<string>, subentry: string): seq<string> {
    var kept := Others(previous, subentry);
    if active.Some? && active.value != subentry && active.value !in kept then kept + [active.value] else kept
  }

  /** A changed actuator or configuration re-evaluates what the zone was doing. */
  function Operating(o: Operation, selected: Record, t: Target, continues: bool, unowned: bool): Operation {
    var changed := selected.shadow.None? || selected.shadow.value.fingerprint != t.shadow.fingerprint
                   || selected.active != Some(t.subentry);
    var seated := o.(active := Some(t.subentry), previous := Former(o.previous, o.active, t.subentry), sensor := t.sensor,
                     session := if continues then o.session else None);
    if (!continues || changed) && !unowned then
      seated.(zoneFault := t.sensorFault, secondFault := None,
      state := if !o.enabled then State.Disabled
      else if selected.fault.Some? || t.sensorFault.Some? then State.Fault else State.Idle)
    else seated
  }

  function Seated(selected: Record, t: Target, history: string): Record {
    selected.(zone := t.subentry, active := Some(t.subentry),
    previous := Former(selected.previous, selected.active, t.subentry), history := history,
    lifecycle := Active, shadow := Some(t.shadow), identity := IdentityOf(t), incident := None)
  }

  function Seat(d: Draft, selected: Record, continuing: string, t: Target, w: Facts, continues: bool, unowned: bool): Outcome<Draft> {
    if continuing !in d.histories then Raise(MissingHistory)
    else
      var h := d.histories[continuing];
      if h.operation.session.Some? && !continues then
        Ok(d.(troubles := d.troubles + [OpenSession(continuing)]))
      else
        var operation := Operating(h.operation, selected, t, continues, unowned);
        var seated :- Make(Seated(selected, t, continuing));
        var record :- Make(Reassessed(seated, operation.session.Some?, Lookup(w.ofZone, t.subentry), false));
        Ok(d.(records := d.records[record.id := record],
             histories := d.histories[continuing := h.(operation := operation)]))
  }

  /** The selected record takes the zone, on the history the zone continues with. */
  function Take(d: Draft, prior: Option<Record>, selected: Record, exact: set<string>, t: Target, w: Facts, minted: bool): Outcome<Draft> {
    var continuing := if prior.Some? then prior.value.history else selected.history;
    var joined :- Join(d, selected, continuing);
    match joined
    case Held(held) => Ok(held)
    case Joined(j, moved) =>
      Seat(j, moved, continuing, t, w, ContinuesActuator(prior, moved, exact, t), minted && prior.None?)
  }

  function Place(d: Draft, prior: Option<Record>, t: Target, w: Facts): Outcome<Draft> {
    if t.ambiguity.Some? then
      Ok(Flag(d, Claimants(d, t), Incident(IdentityConflict, t.ambiguity.value), Ambiguous(t.subentry)))
    else if |Exact(d, t)| > 1 || SameText(d, t) != {} then
      Ok(Flag(d, Exact(d, t) + SameText(d, t), ConflictOf(t), Conflicted(t.subentry)))
    else
      match Select(d, prior, t, w)
      case Stuck => Ok(Flag(d, Unregistered(d, t), MissingOf(t), Unresolvable(t.subentry)))
      case Chosen(id) =>
        if id !in d.records then Raise(MissingRecord)
        else Take(d, prior, d.records[id], Exact(d, t), t, w, false)
      case Mint =>
        if !NewRecord(t).Constructible() then Raise(Unconstructible)
        else Take(MintInto(d, t, w), prior, NewRecord(t), Exact(d, t), t, w, true)
  }

  /** The record that owned a zone before the transaction. */
  function Prior(before: Store, subentry: string): Option<Record>
    requires OwnersUnique(before)
  {
    if id :| id in before.records && before.records[id].active == Some(subentry) then Some(before.records[id]) else None
  }

  function PlaceAll(d: Draft, before: Store, targets: seq<Target>, w: Facts): Outcome<Draft>
    requires OwnersUnique(before)
    decreases |targets|
  {
    if targets == [] then Ok(d)
    else
      var next :- Place(d, Prior(before, targets[0].subentry), targets[0], w);
      PlaceAll(next, before, targets[1..], w)
  }

  // ----- the whole transaction -----------------------------------------------------------------------------

  /** Two zones that select one actuator; the key is its registry id, or its text without one. */
  datatype ActuatorKey = ByUuid(uuid: string) | ByText(entity: string)

  function KeyOf(t: Target): ActuatorKey {
    if t.uuid.Some? then ByUuid(t.uuid.value) else ByText(t.entity)
  }

  /** Zones whose actuator an earlier zone has already selected. */
  function Shared(targets: seq<Target>): seq<Trouble> {
    if targets == [] then []
    else
      var n := |targets| - 1;
      Shared(targets[..n])
      + if exists i :: 0 <= i < n && KeyOf(targets[i]) == KeyOf(targets[n]) then [SharedActuator(targets[n].subentry)] else []
  }

  function BySubentry(targets: seq<Target>): map<string, Target> {
    if targets == [] then map[]
    else
      var n := |targets| - 1;
      BySubentry(targets[..n])[targets[n].subentry := targets[n]]
  }

  function PlanOf(before: Store, order: seq<string>, targets: seq<Target>, w: Facts): Outcome<Draft>
    requires OwnersUnique(before)
  {
    var retained :- TombstoneAll(Draft(before.records, before.histories, Shared(targets)), order, BySubentry(targets), w);
    PlaceAll(retained, before, targets, w)
  }

  /** A plan that does not validate is not adopted. */
  function Commit(p: Outcome<Draft>): Outcome<Store> {
    var d :- p;
    if ValidStore(Store(d.records, d.histories)) then Ok(Store(d.records, d.histories)) else Raise(InvalidStore)
  }

  /** The first loop: zones by subentry, and actuators selected twice. */
  method IndexTargets(targets: seq<Target>) returns (zones: map<string, Target>, troubles: seq<Trouble>)
    ensures zones == BySubentry(targets) && troubles == Shared(targets)
  {
    zones, troubles := map[], [];
    var seen: set<ActuatorKey> := {};
    for i := 0 to |targets|
      invariant zones == BySubentry(targets[..i])
      invariant forall k :: k in seen <==> exists j :: 0 <= j < i && KeyOf(targets[j]) == k
      invariant troubles == Shared(targets[..i])
    {
      assert targets[..i + 1][..i] == targets[..i];
      zones := zones[targets[i].subentry := targets[i]];
      if KeyOf(targets[i]) in seen {
        troubles := troubles + [SharedActuator(targets[i].subentry)];
      }
      seen := seen + {KeyOf(targets[i])};
    }
    assert targets[..|targets|] == targets;
  }

  /** The second loop: records that are no longer configured; `order` lists them as stored. */
  method TombstoneLoop(start: Draft, order: seq<string>, zones: map<string, Target>, w: Facts) returns (p: Outcome<Draft>)
    ensures p == TombstoneAll(start, order, zones, w)
  {
    var d := start;
    for i := 0 to |order|
      invariant TombstoneAll(d, order[i..], zones, w) == TombstoneAll(start, order, zones, w)
    {
      assert order[i..][0] == order[i] && order[i..][1..] == order[i + 1..];
      var step := Tombstone(d, order[i], zones, w);
      if step.Raise? {
        return Raise(step.error);
      }
      d := step.value;
    }
    assert order[|order|..] == [];
    p := Ok(d);
  }

  /** The third loop: configured zones. */
  method PlaceLoop(start: Draft, before: Store, targets: seq<Target>, w: Facts) returns (p: Outcome<Draft>)
    requires OwnersUnique(before)
    ensures p == PlaceAll(start, before, targets, w)
  {
    var d := start;
    for i := 0 to |targets|
      invariant PlaceAll(d, before, targets[i..], w) == PlaceAll(start, before, targets, w)
    {
      assert targets[i..][0] == targets[i] && targets[i..][1..] == targets[i + 1..];
      var step := Place(d, Prior(before, targets[i].subentry), targets[i], w);
      if step.Raise? {
        return Raise(step.error);
      }
      d := step.value;
    }
    assert targets[|targets|..] == [];
    p := Ok(d);
  }

  method PlanReconciledStore(before: Store, order: seq<string>, targets: seq<Target>, w: Facts) returns (p: Outcome<Draft>)
    requires OwnersUnique(before)
    ensures p == PlanOf(before, order, targets, w)
  {
    var zones, troubles := IndexTargets(targets);
    var retained := TombstoneLoop(Draft(before.records, before.histories, troubles), order, zones, w);
    if retained.Raise? {
      return Raise(retained.error);
    }
    p := PlaceLoop(retained.value, before, targets, w);
  }

  // ----- what no step loses -----------------------------------------------------------------------------------

  /** The record keeps its identity and every trace of a hazard that only proof may remove. */
  predicate Evidence(r: Record, s: Record) {
    && s.id == r.id && s.lineage == r.lineage
    && s.fault == r.fault && s.ackRequired == r.ackRequired
    && (FENCE in r.blockers ==> FENCE in s.blockers)
  }

  function SessionOf(histories: map<string, ZoneHistory>, h: string): Option<PersistedSession> {
    if h in histories then histories[h].operation.session else None
  }

  /** Every record keeps its evidence, and the open sessions are the same, in the same histories. */
  ghost predicate Preserves(a: Draft, b: Draft) {
    && (forall id :: id in a.records ==> id in b.records && Evidence(a.records[id], b.records[id]))
    && (forall h :: SessionOf(b.histories, h) == SessionOf(a.histories, h))
    && |a.troubles| <= |b.troubles|
  }

  lemma PreservesChain(a: Draft, b: Draft, c: Draft)
    requires Preserves(a, b) && Preserves(b, c)
    ensures Preserves(a, c)
  {
  }

  lemma ReassessedKeeps(r: Record, session: bool, a: Option<Assessment>, operatorProof: bool)
    ensures Evidence(r, Reassessed(r, session, a, operatorProof))
    ensures Reassessed(r, session, a, operatorProof).history == r.history
  {
  }

  lemma RetainKeeps(r: Record, session: bool, w: Facts)
    requires Retain(r, session, w).Ok?
    ensures Evidence(r, Retain(r, session, w).value) && Retain(r, session, w).value.history == r.history
  {
    var addressed := Readdressed(r, w);
    ReassessedKeeps(addressed, session, Lookup(w.ofRecord, r.id), OperatorProof(addressed, w));
  }

  lemma OrphanedKeeps(d: Draft, r: Record, targets: map<string, Target>)
    requires Keyed(d) && r.history in d.histories
    ensures var histories := HistoriesWithout(d, r, targets);
            && (forall h :: SessionOf(histories, h) == SessionOf(d.histories, h))
            && (forall h :: h in histories ==> histories[h].id == h)
            && histories.Keys == d.histories.Keys
  {
  }

  lemma TombstonePreserves(d: Draft, id: string, targets: map<string, Target>, w: Facts)
    requires Keyed(d)
    requires Tombstone(d, id, targets, w).Ok?
    ensures Preserves(d, Tombstone(d, id, targets, w).value) && Keyed(Tombstone(d, id, targets, w).value)
  {
    var r := d.records[id];
    if !StillConfigured(r, targets) {
      OrphanedKeeps(d, r, targets);
      RetainKeeps(Released(r), HistoriesWithout(d, r, targets)[r.history].operation.session.Some?, w);
    }
  }

  /** Records and histories are filed under their own ids. */
  ghost predicate Keyed(d: Draft) {
    && (forall id :: id in d.records ==> d.records[id].id == id)
    && (forall h :: h in d.histories ==> d.histories[h].id == h)
  }

  lemma FlagPreserves(d: Draft, ids: set<string>, incident: Incident, trouble: Trouble)
    requires Keyed(d)
    ensures Preserves(d, Flag(d, ids, incident, trouble)) && Keyed(Flag(d, ids, incident, trouble))
  {
  }

  /** Minted ids are new to the draft. */
  predicate Unused(d: Draft, t: Target) {
    t.minted.record !in d.records && t.minted.history !in d.histories
  }

  /** Nothing is filed under a new id but what was minted for the zone. */
  predicate AddsOnly(a: Draft, b: Draft, t: Target) {
    b.records.Keys <= a.records.Keys + {t.minted.record} && b.histories.Keys <= a.histories.Keys + {t.minted.history}
  }

  lemma MintPreserves(d: Draft, t: Target, w: Facts)
    requires Keyed(d) && Unused(d, t)
    ensures Preserves(d, MintInto(d, t, w)) && Keyed(MintInto(d, t, w)) && AddsOnly(d, MintInto(d, t, w), t)
  {
  }

  lemma JoinPreserves(d: Draft, selected: Record, continuing: string)
    requires Keyed(d) && Join(d, selected, continuing).Ok?
    ensures var j := Join(d, selected, continuing).value;
            && Preserves(d, j.d) && Keyed(j.d) && j.d.records == d.records && j.d.histories.Keys <= d.histories.Keys
            && (j.Joined? ==> Evidence(selected, j.selected) && j.selected.lifecycle == selected.lifecycle)
  {
  }

  lemma SeatPreserves(d: Draft, selected: Record, continuing: string, t: Target, w: Facts, continues: bool, unowned: bool)
    requires Keyed(d) && selected.id in d.records && Evidence(d.records[selected.id], selected)
    requires Seat(d, selected, continuing, t, w, continues, unowned).Ok?
    ensures var r := Seat(d, selected, continuing, t, w, continues, unowned).value;
            Preserves(d, r) && Keyed(r)
  {
    var h := d.histories[continuing];
    if !h.operation.session.Some? || continues {
      var operation := Operating(h.operation, selected, t, continues, unowned);
      assert operation.session == h.operation.session;
      ReassessedKeeps(Seated(selected, t, continuing), operation.session.Some?, Lookup(w.ofZone, t.subentry), false);
    }
  }

  lemma SeatKeys(d: Draft, selected: Record, continuing: string, t: Target, w: Facts, continues: bool, unowned: bool)
    requires selected.id in d.records && Seat(d, selected, continuing, t, w, continues, unowned).Ok?
    ensures var r := Seat(d, selected, continuing, t, w, continues, unowned).value;
            && r.records.Keys == d.records.Keys && r.histories.Keys == d.histories.Keys
            && forall h :: h in d.histories ==> SameLedger(d.histories[h], r.histories[h])
  {
  }

  lemma TakePreserves(d: Draft, prior: Option<Record>, selected: Record, exact: set<string>, t: Target, w: Facts, minted: bool)
    requires Keyed(d) && selected.id in d.records && d.records[selected.id] == selected
    requires Take(d, prior, selected, exact, t, w, minted).Ok?
    ensures var r := Take(d, prior, selected, exact, t, w, minted).value;
            Preserves(d, r) && Keyed(r) && r.records.Keys == d.records.Keys && r.histories.Keys <= d.histories.Keys
  {
    var continuing := if prior.Some? then prior.value.history else selected.history;
    JoinPreserves(d, selected, continuing);
    var joined := Join(d, selected, continuing).value;
    if joined.Joined? {
      var continues := ContinuesActuator(prior, joined.selected, exact, t);
      SeatPreserves(joined.d, joined.selected, continuing, t, w, continues, minted && prior.None?);
      SeatKeys(joined.d, joined.selected, continuing, t, w, continues, minted && prior.None?);
      PreservesChain(d, joined.d, Take(d, prior, selected, exact, t, w, minted).value);
    }
  }

  lemma PlacePreserves(d: Draft, prior: Option<Record>, t: Target, w: Facts)
    requires Keyed(d) && Unused(d, t)
    requires Place(d, prior, t, w).Ok?
    ensures var r := Place(d, prior, t, w).value; Preserves(d, r) && Keyed(r) && AddsOnly(d, r, t)
  {
    if t.ambiguity.Some? {
      FlagPreserves(d, Claimants(d, t), Incident(IdentityConflict, t.ambiguity.value), Ambiguous(t.subentry));
    } else if |Exact(d, t)| > 1 || SameText(d, t) != {} {
      FlagPreserves(d, Exact(d, t) + SameText(d, t), ConflictOf(t), Conflicted(t.subentry));
    } else {
      match Select(d, prior, t, w)
      case Stuck => FlagPreserves(d, Unregistered(d, t), MissingOf(t), Unresolvable(t.subentry));
      case Chosen(id) => TakePreserves(d, prior, d.records[id], Exact(d, t), t, w, false);
      case Mint =>
        MintPreserves(d, t, w);
        TakePreserves(MintInto(d, t, w), prior, NewRecord(t), Exact(d, t), t, w, true);
        PreservesChain(d, MintInto(d, t, w), Place(d, prior, t, w).value);
    }
  }

  // ----- what retirement needs ----------------------------------------------------------------------------------

  /** A retired record has OFF proof, no flow owner and no open session. */
  predicate RetiredSafely(d: Draft, w: Facts, id: string)
    requires id in d.records
  {
    var r := d.records[id];
    r.lifecycle.Retired? ==> OffProof(r, w) && r.flow.None? && SessionOf(d.histories, r.history).None?
  }

  /** ... and, when it has just been retired, no blocker. */
  predicate RetiredCleanly(d: Draft, w: Facts, id: string)
    requires id in d.records
  {
    RetiredSafely(d, w, id) && (d.records[id].lifecycle.Retired? ==> d.records[id].blockers == {})
  }

  ghost predicate AllRetiredSafely(d: Draft, w: Facts) {
    forall id :: id in d.records ==> RetiredSafely(d, w, id)
  }

  lemma RetainRetiresSafely(r: Record, session: bool, w: Facts)
    requires Retain(r, session, w).Ok?
    ensures var s := Retain(r, session, w).value;
            && (s.lifecycle.Retired? ==> SafeToRetire(s, session, w))
            && (s.lifecycle.Retired? || s.lifecycle.DeletePending?)
  {
  }

  lemma TombstoneRetiresOwn(d: Draft, id: string, targets: map<string, Target>, w: Facts)
    requires Keyed(d) && Tombstone(d, id, targets, w).Ok?
    requires id in d.records && d.records[id].Constructible()
    ensures var r := Tombstone(d, id, targets, w).value; id in r.records && RetiredCleanly(r, w, id)
  {
    var r := d.records[id];
    if !StillConfigured(r, targets) {
      OrphanedKeeps(d, r, targets);
      var session := HistoriesWithout(d, r, targets)[r.history].operation.session.Some?;
      RetainKeeps(Released(r), session, w);
      RetainRetiresSafely(Released(r), session, w);
    }
  }

  lemma TombstoneLeavesOthers(d: Draft, id: string, targets: map<string, Target>, w: Facts, j: string)
    requires Keyed(d) && Tombstone(d, id, targets, w).Ok?
    requires j in d.records && j != id && RetiredCleanly(d, w, j)
    ensures var r := Tombstone(d, id, targets, w).value; j in r.records && RetiredCleanly(r, w, j)
  {
    TombstonePreserves(d, id, targets, w);
    TombstoneKeys(d, id, targets, w);
  }

  lemma FlagRetiresSafely(d: Draft, ids: set<string>, incident: Incident, trouble: Trouble, w: Facts)
    requires AllRetiredSafely(d, w)
    ensures AllRetiredSafely(Flag(d, ids, incident, trouble), w)
  {
    var r := Flag(d, ids, incident, trouble);
    forall id | id in r.records
      ensures RetiredSafely(r, w, id)
    {
      assert RetiredSafely(d, w, id);
    }
  }

  /** Changing histories without touching sessions leaves retirement safe. */
  lemma SessionsDecide(a: Draft, b: Draft, w: Facts)
    requires AllRetiredSafely(a, w) && Preserves(a, b)
    requires forall id :: id in b.records ==> b.records[id].lifecycle.Active? || (id in a.records && a.records[id] == b.records[id])
    ensures AllRetiredSafely(b, w)
  {
    forall id | id in b.records
      ensures RetiredSafely(b, w, id)
    {
      if !b.records[id].lifecycle.Active? {
        assert RetiredSafely(a, w, id);
      }
    }
  }

  lemma SeatActivates(d: Draft, selected: Record, continuing: string, t: Target, w: Facts, continues: bool, unowned: bool)
    requires Seat(d, selected, continuing, t, w, continues, unowned).Ok?
    ensures var r := Seat(d, selected, continuing, t, w, continues, unowned).value;
            forall id :: id in r.records ==> r.records[id].lifecycle.Active? || (id in d.records && d.records[id] == r.records[id])
  {
  }

  lemma TakeRetiresSafely(d: Draft, prior: Option<Record>, selected: Record, exact: set<string>, t: Target, w: Facts, minted: bool)
    requires Keyed(d) && selected.id in d.records && d.records[selected.id] == selected && AllRetiredSafely(d, w)
    requires Take(d, prior, selected, exact, t, w, minted).Ok?
    ensures AllRetiredSafely(Take(d, prior, selected, exact, t, w, minted).value, w)
  {
    var continuing := if prior.Some? then prior.value.history else selected.history;
    JoinPreserves(d, selected, continuing);
    var joined := Join(d, selected, continuing).value;
    SessionsDecide(d, joined.d, w);
    if joined.Joined? {
      var continues := ContinuesActuator(prior, joined.selected, exact, t);
      SeatPreserves(joined.d, joined.selected, continuing, t, w, continues, minted && prior.None?);
      SeatActivates(joined.d, joined.selected, continuing, t, w, continues, minted && prior.None?);
      SessionsDecide(joined.d, Take(d, prior, selected, exact, t, w, minted).value, w);
    }
  }

  lemma PlaceRetiresSafely(d: Draft, prior: Option<Record>, t: Target, w: Facts)
    requires Keyed(d) && Unused(d, t) && AllRetiredSafely(d, w)
    requires Place(d, prior, t, w).Ok?
    ensures AllRetiredSafely(Place(d, prior, t, w).value, w)
  {
    if t.ambiguity.Some? {
      FlagRetiresSafely(d, Claimants(d, t), Incident(IdentityConflict, t.ambiguity.value), Ambiguous(t.subentry), w);
    } else if |Exact(d, t)| > 1 || SameText(d, t) != {} {
      FlagRetiresSafely(d, Exact(d, t) + SameText(d, t), ConflictOf(t), Conflicted(t.subentry), w);
    } else {
      match Select(d, prior, t, w)
      case Stuck => FlagRetiresSafely(d, Unregistered(d, t), MissingOf(t), Unresolvable(t.subentry), w);
      case Chosen(id) => TakeRetiresSafely(d, prior, d.records[id], Exact(d, t), t, w, false);
      case Mint =>
        MintPreserves(d, t, w);
        SessionsDecide(d, MintInto(d, t, w), w);
        TakeRetiresSafely(MintInto(d, t, w), prior, NewRecord(t), Exact(d, t), t, w, true);
    }
  }

  // ----- the loops --------------------------------------------------------------------------------------------------

  /** The ids minted for the zones are new, and no two zones get the same. */
  ghost predicate AllUnused(d: Draft, targets: seq<Target>) {
    && (forall i :: 0 <= i < |targets| ==> Unused(d, targets[i]))
    && (forall i, j :: 0 <= i < j < |targets| ==>
                         targets[i].minted.record != targets[j].minted.record
                         && targets[i].minted.history != targets[j].minted.history)
  }

  lemma {:induction false} PlaceAllKeeps(d: Draft, before: Store, targets: seq<Target>, w: Facts)
    requires OwnersUnique(before) && Keyed(d) && AllUnused(d, targets) && AllRetiredSafely(d, w)
    requires PlaceAll(d, before, targets, w).Ok?
    ensures var r := PlaceAll(d, before, targets, w).value; Preserves(d, r) && AllRetiredSafely(r, w)
    decreases |targets|
  {
    if targets != [] {
      var prior := Prior(before, targets[0].subentry);
      var next := Place(d, prior, targets[0], w).value;
      PlacePreserves(d, prior, targets[0], w);
      PlaceRetiresSafely(d, prior, targets[0], w);
      UnusedRemain(d, next, targets);
      PlaceAllKeeps(next, before, targets[1..], w);
      PreservesChain(d, next, PlaceAll(d, before, targets, w).value);
    }
  }

  lemma UnusedRemain(d: Draft, next: Draft, targets: seq<Target>)
    requires targets != [] && AllUnused(d, targets) && AddsOnly(d, next, targets[0])
    ensures AllUnused(next, targets[1..])
  {
    forall i | 0 <= i < |targets| - 1
      ensures Unused(next, targets[1..][i])
    {
      assert targets[1..][i] == targets[i + 1];
    }
  }

  /** Records not yet visited are as they were. */
  lemma {:induction false} TombstoneAllKeeps(d: Draft, order: seq<string>, targets: map<string, Target>, w: Facts, done: set<string>)
    requires Keyed(d) && TombstoneAll(d, order, targets, w).Ok?
    requires Distinct(order) && forall id :: id in order ==> id !in done && id in d.records && d.records[id].Constructible()
    requires forall id :: id in done ==> id in d.records && RetiredCleanly(d, w, id)
    ensures var r := TombstoneAll(d, order, targets, w).value;
            && Preserves(d, r) && Keyed(r) && r.records.Keys == d.records.Keys && r.histories.Keys == d.histories.Keys
            && forall id :: id in done || id in order ==> id in r.records && RetiredCleanly(r, w, id)
    decreases |order|
  {
    if order != [] {
      var id := order[0];
      var next := Tombstone(d, id, targets, w).value;
      TombstonePreserves(d, id, targets, w);
      TombstoneKeys(d, id, targets, w);
      forall j | j in done || j == id
        ensures RetiredCleanly(next, w, j)
      {
        if j == id {
          TombstoneRetiresOwn(d, id, targets, w);
        } else {
          TombstoneLeavesOthers(d, id, targets, w, j);
        }
      }
      RestUntouched(d, order, targets, w, done);
      TombstoneAllKeeps(next, order[1..], targets, w, done + {id});
      PreservesChain(d, next, TombstoneAll(d, order, targets, w).value);
    }
  }

  lemma TombstoneKeys(d: Draft, id: string, targets: map<string, Target>, w: Facts)
    requires Keyed(d) && Tombstone(d, id, targets, w).Ok?
    ensures var r := Tombstone(d, id, targets, w).value;
            && r.records.Keys == d.records.Keys && r.histories.Keys == d.histories.Keys
            && forall j :: j in d.records && j != id ==> r.records[j] == d.records[j]
  {
  }

  lemma RestUntouched(d: Draft, order: seq<string>, targets: map<string, Target>, w: Facts, done: set<string>)
    requires Keyed(d) && order != [] && Tombstone(d, order[0], targets, w).Ok?
    requires Distinct(order) && forall id :: id in order ==> id !in done && id in d.records && d.records[id].Constructible()
    ensures var next := Tombstone(d, order[0], targets, w).value;
            forall id :: id in order[1..] ==> id !in done + {order[0]} && id in next.records && next.records[id].Constructible()
    ensures Distinct(order[1..])
  {
    TombstoneKeys(d, order[0], targets, w);
    forall id | id in order[1..]
      ensures id in order && id != order[0]
    {
      var i :| 0 <= i < |order[1..]| && order[1..][i] == id;
      assert order[i + 1] == id;
    }
  }

  // ----- what blocks a retired record -----------------------------------------------------------------------------------

  /** The records that placing a zone blocks: everyone caught up in an identity that cannot be told apart. */
  function Flagged(d: Draft, prior: Option<Record>, t: Target, w: Facts): set<string> {
    if t.ambiguity.Some? then Claimants(d, t)
    else if |Exact(d, t)| > 1 || SameText(d, t) != {} then Exact(d, t) + SameText(d, t)
    else if Select(d, prior, t, w).Stuck? then Unregistered(d, t)
    else {}
  }

  /** What a step may make of a retired record: nothing, a blocked one, or an active one. */
  predicate RetiredStep(a: Draft, b: Draft, id: string, blocked: bool) {
    id in b.records && b.records[id].lifecycle.Retired? ==>
      && id in a.records && a.records[id].lifecycle.Retired?
      && (b.records[id].blockers != {} <==> a.records[id].blockers != {} || blocked)
  }

  lemma FlagSteps(d: Draft, ids: set<string>, incident: Incident, trouble: Trouble, id: string)
    ensures RetiredStep(d, Flag(d, ids, incident, trouble), id, id in ids)
    ensures id in ids && id in d.records && d.records[id].lifecycle.Retired? ==>
              Flag(d, ids, incident, trouble).records[id].lifecycle.Retired?
  {
  }

  lemma TakeSteps(d: Draft, prior: Option<Record>, selected: Record, exact: set<string>, t: Target, w: Facts, minted: bool, id: string)
    requires Keyed(d) && selected.id in d.records && d.records[selected.id] == selected
    requires Take(d, prior, selected, exact, t, w, minted).Ok?
    ensures RetiredStep(d, Take(d, prior, selected, exact, t, w, minted).value, id, false)
  {
    var continuing := if prior.Some? then prior.value.history else selected.history;
    JoinPreserves(d, selected, continuing);
    var joined := Join(d, selected, continuing).value;
    if joined.Joined? {
      var continues := ContinuesActuator(prior, joined.selected, exact, t);
      SeatActivates(joined.d, joined.selected, continuing, t, w, continues, minted && prior.None?);
    }
  }

  /** Placing a zone blocks a retired record exactly if it flags it. */
  lemma PlaceBlocksExactly(d: Draft, prior: Option<Record>, t: Target, w: Facts, id: string)
    requires Keyed(d) && Unused(d, t) && Place(d, prior, t, w).Ok?
    ensures RetiredStep(d, Place(d, prior, t, w).value, id, id in Flagged(d, prior, t, w))
    ensures id in Flagged(d, prior, t, w) && id in d.records && d.records[id].lifecycle.Retired? ==>
              Place(d, prior, t, w).value.records[id].lifecycle.Retired?
  {
    if t.ambiguity.Some? {
      FlagSteps(d, Claimants(d, t), Incident(IdentityConflict, t.ambiguity.value), Ambiguous(t.subentry), id);
    } else if |Exact(d, t)| > 1 || SameText(d, t) != {} {
      FlagSteps(d, Exact(d, t) + SameText(d, t), ConflictOf(t), Conflicted(t.subentry), id);
    } else {
      match Select(d, prior, t, w)
      case Stuck => FlagSteps(d, Unregistered(d, t), MissingOf(t), Unresolvable(t.subentry), id);
      case Chosen(chosen) => TakeSteps(d, prior, d.records[chosen], Exact(d, t), t, w, false, id);
      case Mint => TakeSteps(MintInto(d, t, w), prior, NewRecord(t), Exact(d, t), t, w, true, id);
    }
  }

  /** Some zone, when its turn comes, flags the record. */
  predicate EverFlagged(d: Draft, before: Store, targets: seq<Target>, w: Facts, id: string)
    requires OwnersUnique(before)
    decreases |targets|
  {
    targets != [] &&
    var prior := Prior(before, targets[0].subentry);
    || id in Flagged(d, prior, targets[0], w)
    || (Place(d, prior, targets[0], w).Ok? && EverFlagged(Place(d, prior, targets[0], w).value, before, targets[1..], w, id))
  }

  lemma {:induction false} PlaceAllBlocksExactly(d: Draft, before: Store, targets: seq<Target>, w: Facts, id: string)
    requires OwnersUnique(before) && Keyed(d) && AllUnused(d, targets) && PlaceAll(d, before, targets, w).Ok?
    ensures RetiredStep(d, PlaceAll(d, before, targets, w).value, id, EverFlagged(d, before, targets, w, id))
    decreases |targets|
  {
    if targets != [] {
      var prior := Prior(before, targets[0].subentry);
      var next := Place(d, prior, targets[0], w).value;
      PlaceBlocksExactly(d, prior, targets[0], w, id);
      PlacePreserves(d, prior, targets[0], w);
      UnusedRemain(d, next, targets);
      PlaceAllBlocksExactly(next, before, targets[1..], w, id);
    }
  }

  /** The plan flags the record: decided by the store, the configuration and the facts alone. */
  predicate PlanFlags(before: Store, order: seq<string>, targets: seq<Target>, w: Facts, id: string)
    requires OwnersUnique(before)
  {
    var retained := TombstoneAll(Draft(before.records, before.histories, Shared(targets)), order, BySubentry(targets), w);
    retained.Ok? && EverFlagged(retained.value, before, targets, w, id)
  }

  // ----- what no step forgets of the budgets ------------------------------------------------------------------------

  /** The same day's budget and the same interval anchors. */
  predicate SameLedger(a: ZoneHistory, b: ZoneHistory) {
    a.daily == b.daily && a.lastEnd == b.lastEnd && a.lastAutoStart == b.lastAutoStart
  }

  /** The history `b` charges its zone at least what `a` did. */
  predicate Covers(b: ZoneHistory, a: ZoneHistory) {
    NoLess(b.daily, a.daily) && NoEarlier(b.lastEnd, a.lastEnd) && NoEarlier(b.lastAutoStart, a.lastAutoStart)
  }

  ghost predicate BudgetsValid(d: Draft) {
    forall h :: h in d.histories && d.histories[h].daily.Some? ==> d.histories[h].daily.value.Valid()
  }

  lemma CoversChain(c: ZoneHistory, b: ZoneHistory, a: ZoneHistory)
    requires Covers(c, b) && Covers(b, a)
    ensures Covers(c, a)
  {
  }

  /** The history a record belongs to, unless the draft has dropped it. */
  predicate Filed(d: Draft, id: string)
    requires id in d.records
  {
    d.records[id].history in d.histories
  }

  /**
   Since `start` every history still filed covers itself, and every record's own history, if it
   is filed, covers the one the record started with.
   */
  ghost predicate LedgersKept(start: Draft, d: Draft) {
    && (forall h :: h in start.histories && h in d.histories ==> Covers(d.histories[h], start.histories[h]))
    && (forall id :: id in start.records ==>
                       && id in d.records && Filed(start, id)
                       && (Filed(d, id) ==> Covers(d.histories[d.records[id].history], start.histories[start.records[id].history])))
  }

  /** One step: what stays filed covers itself, only the minted history is new, and a record moves only to a covering history. */
  ghost predicate LedgerStep(d: Draft, r: Draft, minted: Option<string>) {
    && (forall h :: h in r.histories ==> minted == Some(h) || (h in d.histories && Covers(r.histories[h], d.histories[h])))
    && (forall id :: id in d.records ==>
                       && id in r.records
                       && (r.records[id].history == d.records[id].history
                           || (Filed(r, id) && Filed(d, id)
                               && Covers(r.histories[r.records[id].history], d.histories[d.records[id].history]))))
  }

  /** No record of the draft belongs to the history of this name. */
  ghost predicate Unowned(d: Draft, name: string) {
    forall id :: id in d.records ==> d.records[id].history != name
  }

  lemma LedgerStepKeeps(start: Draft, d: Draft, r: Draft, minted: Option<string>)
    requires LedgersKept(start, d) && LedgerStep(d, r, minted)
    requires minted.Some? ==> minted.value !in start.histories && Unowned(d, minted.value)
    ensures LedgersKept(start, r)
  {
    forall h | h in start.histories && h in r.histories
      ensures Covers(r.histories[h], start.histories[h])
    {
      CoversChain(r.histories[h], d.histories[h], start.histories[h]);
    }
    forall id | id in start.records && Filed(r, id)
      ensures Covers(r.histories[r.records[id].history], start.histories[start.records[id].history])
    {
      CoversChain(r.histories[r.records[id].history], d.histories[d.records[id].history],
                  start.histories[start.records[id].history]);
    }
  }

  /** A step that leaves the ledgers where they are. */
  lemma SameLedgersStep(d: Draft, r: Draft, minted: Option<string>)
    requires BudgetsValid(d)
    requires forall h :: h in r.histories ==>
                           || (h in d.histories && SameLedger(d.histories[h], r.histories[h]))
                           || (minted == Some(h) && (r.histories[h].daily.Some? ==> r.histories[h].daily.value.Valid()))
    requires forall id :: id in d.records ==> id in r.records && r.records[id].history == d.records[id].history
    ensures LedgerStep(d, r, minted) && BudgetsValid(r)
  {
  }

  /** What joining two histories leaves: every kept ledger covers itself, and the continuing one also the selected. */
  lemma JoinLedgers(d: Draft, selected: Record, continuing: string)
    requires BudgetsValid(d) && Join(d, selected, continuing).Ok?
    ensures var j := Join(d, selected, continuing).value;
            && BudgetsValid(j.d) && j.d.records == d.records
            && (forall h :: h in j.d.histories ==> h in d.histories && Covers(j.d.histories[h], d.histories[h]))
            && (j.Joined? && continuing in j.d.histories ==>
                  selected.history in d.histories && Covers(j.d.histories[continuing], d.histories[selected.history]))
            && (j.Joined? ==> j.selected.id == selected.id && j.selected.history == continuing)
  {
    if selected.history != continuing && Join(d, selected, continuing).value.Joined? {
      HistoryMergeIsConservative(d.histories[continuing], d.histories[selected.history]);
      MergedLedgers(d, selected, continuing);
    }
  }

  lemma MergedLedgers(d: Draft, selected: Record, continuing: string)
    requires selected.history != continuing && Join(d, selected, continuing).Ok? && Join(d, selected, continuing).value.Joined?
    ensures var j := Join(d, selected, continuing).value;
            && continuing in d.histories && selected.history in d.histories
            && MergeHistories(d.histories[continuing], d.histories[selected.history]).Ok?
            && continuing in j.d.histories
            && j.d.histories[continuing] == MergeHistories(d.histories[continuing], d.histories[selected.history]).value
            && (forall h :: h in j.d.histories && h != continuing ==> h in d.histories && j.d.histories[h] == d.histories[h])
  {
  }

  /** Seating moves no record but the selected one, and that one only to the continuing history. */
  lemma SeatLedgers(d: Draft, selected: Record, continuing: string, t: Target, w: Facts, continues: bool, unowned: bool)
    requires selected.id in d.records && Seat(d, selected, continuing, t, w, continues, unowned).Ok?
    ensures var r := Seat(d, selected, continuing, t, w, continues, unowned).value;
            && r.histories.Keys == d.histories.Keys && continuing in d.histories
            && (forall h :: h in d.histories ==> SameLedger(d.histories[h], r.histories[h]))
            && (forall id :: id in d.records ==>
                               && id in r.records
                               && (r.records[id].history == d.records[id].history
                                   || (id == selected.id && r.records[id].history == continuing)))
  {
    SeatKeys(d, selected, continuing, t, w, continues, unowned);
  }

  lemma TakeLedgers(d: Draft, prior: Option<Record>, selected: Record, exact: set<string>, t: Target, w: Facts, minted: bool)
    requires BudgetsValid(d) && selected.id in d.records && d.records[selected.id] == selected
    requires Take(d, prior, selected, exact, t, w, minted).Ok?
    ensures var r := Take(d, prior, selected, exact, t, w, minted).value; LedgerStep(d, r, None) && BudgetsValid(r)
  {
    var continuing := if prior.Some? then prior.value.history else selected.history;
    JoinLedgers(d, selected, continuing);
    var joined := Join(d, selected, continuing).value;
    if joined.Joined? {
      var continues := ContinuesActuator(prior, joined.selected, exact, t);
      SeatLedgers(joined.d, joined.selected, continuing, t, w, continues, minted && prior.None?);
    }
  }

  lemma MintLedgers(d: Draft, t: Target, w: Facts)
    requires BudgetsValid(d) && Unused(d, t)
    ensures LedgerStep(d, MintInto(d, t, w), Some(t.minted.history)) && BudgetsValid(MintInto(d, t, w))
  {
    SameLedgersStep(d, MintInto(d, t, w), Some(t.minted.history));
  }

  lemma MintKeepsLedgers(start: Draft, d: Draft, prior: Option<Record>, t: Target, w: Facts)
    requires Keyed(d) && Unused(d, t) && BudgetsValid(d) && LedgersKept(start, d)
    requires t.minted.history !in start.histories && Unowned(d, t.minted.history)
    requires Take(MintInto(d, t, w), prior, NewRecord(t), Exact(d, t), t, w, true).Ok?
    ensures var r := Take(MintInto(d, t, w), prior, NewRecord(t), Exact(d, t), t, w, true).value;
            LedgersKept(start, r) && BudgetsValid(r)
  {
    var m := MintInto(d, t, w);
    MintLedgers(d, t, w);
    LedgerStepKeeps(start, d, m, Some(t.minted.history));
    TakeLedgers(m, prior, NewRecord(t), Exact(d, t), t, w, true);
    LedgerStepKeeps(start, m, Take(m, prior, NewRecord(t), Exact(d, t), t, w, true).value, None);
  }

  lemma FlagKeepsLedgers(start: Draft, d: Draft, ids: set<string>, incident: Incident, trouble: Trouble)
    requires BudgetsValid(d) && LedgersKept(start, d)
    ensures var r := Flag(d, ids, incident, trouble); LedgersKept(start, r) && BudgetsValid(r)
  {
    var r := Flag(d, ids, incident, trouble);
    SameLedgersStep(d, r, None);
    LedgerStepKeeps(start, d, r, None);
  }

  lemma PlaceKeepsLedgers(start: Draft, d: Draft, prior: Option<Record>, t: Target, w: Facts)
    requires Keyed(d) && Unused(d, t) && BudgetsValid(d) && LedgersKept(start, d)
    requires t.minted.history !in start.histories && Unowned(d, t.minted.history)
    requires Place(d, prior, t, w).Ok?
    ensures var r := Place(d, prior, t, w).value; LedgersKept(start, r) && BudgetsValid(r)
  {
    if t.ambiguity.Some? {
      FlagKeepsLedgers(start, d, Claimants(d, t), Incident(IdentityConflict, t.ambiguity.value), Ambiguous(t.subentry));
    } else if |Exact(d, t)| > 1 || SameText(d, t) != {} {
      FlagKeepsLedgers(start, d, Exact(d, t) + SameText(d, t), ConflictOf(t), Conflicted(t.subentry));
    } else {
      match Select(d, prior, t, w)
      case Stuck => FlagKeepsLedgers(start, d, Unregistered(d, t), MissingOf(t), Unresolvable(t.subentry));
      case Chosen(id) =>
        TakeLedgers(d, prior, d.records[id], Exact(d, t), t, w, false);
        LedgerStepKeeps(start, d, Take(d, prior, d.records[id], Exact(d, t), t, w, false).value, None);
      case Mint => MintKeepsLedgers(start, d, prior, t, w);
    }
  }

  lemma TakeUnowned(d: Draft, prior: Option<Record>, selected: Record, exact: set<string>, t: Target, w: Facts, minted: bool, name: string)
    requires Unowned(d, name) && selected.id in d.records && d.records[selected.id] == selected
    requires prior.Some? ==> prior.value.history != name
    requires Take(d, prior, selected, exact, t, w, minted).Ok?
    ensures Unowned(Take(d, prior, selected, exact, t, w, minted).value, name)
  {
    var continuing := if prior.Some? then prior.value.history else selected.history;
    var joined := Join(d, selected, continuing).value;
    if joined.Joined? {
      var continues := ContinuesActuator(prior, joined.selected, exact, t);
      SeatLedgers(joined.d, joined.selected, continuing, t, w, continues, minted && prior.None?);
      SeatKeys(joined.d, joined.selected, continuing, t, w, continues, minted && prior.None?);
    }
  }

  lemma MintUnowned(d: Draft, prior: Option<Record>, t: Target, w: Facts, name: string)
    requires Unowned(d, name) && t.minted.history != name
    requires prior.Some? ==> prior.value.history != name
    requires Take(MintInto(d, t, w), prior, NewRecord(t), Exact(d, t), t, w, true).Ok?
    ensures Unowned(Take(MintInto(d, t, w), prior, NewRecord(t), Exact(d, t), t, w, true).value, name)
  {
    TakeUnowned(MintInto(d, t, w), prior, NewRecord(t), Exact(d, t), t, w, true, name);
  }

  lemma FlagUnowned(d: Draft, ids: set<string>, incident: Incident, trouble: Trouble, name: string)
    requires Unowned(d, name)
    ensures Unowned(Flag(d, ids, incident, trouble), name)
  {
  }

  lemma PlaceUnowned(d: Draft, prior: Option<Record>, t: Target, w: Facts, name: string)
    requires Keyed(d) && Unowned(d, name) && t.minted.history != name
    requires prior.Some? ==> prior.value.history != name
    requires Place(d, prior, t, w).Ok?
    ensures Unowned(Place(d, prior, t, w).value, name)
  {
    if t.ambiguity.Some? {
      FlagUnowned(d, Claimants(d, t), Incident(IdentityConflict, t.ambiguity.value), Ambiguous(t.subentry), name);
    } else if |Exact(d, t)| > 1 || SameText(d, t) != {} {
      FlagUnowned(d, Exact(d, t) + SameText(d, t), ConflictOf(t), Conflicted(t.subentry), name);
    } else {
      match Select(d, prior, t, w)
      case Stuck => FlagUnowned(d, Unregistered(d, t), MissingOf(t), Unresolvable(t.subentry), name);
      case Chosen(id) => TakeUnowned(d, prior, d.records[id], Exact(d, t), t, w, false, name);
      case Mint => MintUnowned(d, prior, t, w, name);
    }
  }

  /** The histories to be minted are new to the store and nobody's in the draft. */
  ghost predicate NamesFree(start: Draft, d: Draft, targets: seq<Target>) {
    forall i :: 0 <= i < |targets| ==> targets[i].minted.history !in start.histories && Unowned(d, targets[i].minted.history)
  }

  lemma NamesStayFree(start: Draft, d: Draft, before: Store, targets: seq<Target>, w: Facts)
    requires targets != [] && OwnersUnique(before) && ReferencesResolve(before) && start.histories == before.histories
    requires Keyed(d) && AllUnused(d, targets) && NamesFree(start, d, targets)
    requires Place(d, Prior(before, targets[0].subentry), targets[0], w).Ok?
    ensures NamesFree(start, Place(d, Prior(before, targets[0].subentry), targets[0], w).value, targets[1..])
  {
    var prior := Prior(before, targets[0].subentry);
    forall i | 0 <= i < |targets| - 1
      ensures Unowned(Place(d, prior, targets[0], w).value, targets[1..][i].minted.history)
      ensures targets[1..][i].minted.history !in start.histories
    {
      assert targets[1..][i] == targets[i + 1];
      PlaceUnowned(d, prior, targets[0], w, targets[i + 1].minted.history);
    }
  }

  lemma {:induction false} PlaceAllKeepsLedgers(start: Draft, d: Draft, before: Store, targets: seq<Target>, w: Facts)
    requires OwnersUnique(before) && ReferencesResolve(before) && start.histories == before.histories
    requires Keyed(d) && AllUnused(d, targets) && NamesFree(start, d, targets) && BudgetsValid(d) && LedgersKept(start, d)
    requires PlaceAll(d, before, targets, w).Ok?
    ensures LedgersKept(start, PlaceAll(d, before, targets, w).value)
    decreases |targets|
  {
    if targets != [] {
      var prior := Prior(before, targets[0].subentry);
      var next := Place(d, prior, targets[0], w).value;
      PlacePreserves(d, prior, targets[0], w);
      PlaceKeepsLedgers(start, d, prior, targets[0], w);
      UnusedRemain(d, next, targets);
      NamesStayFree(start, d, before, targets, w);
      PlaceAllKeepsLedgers(start, next, before, targets[1..], w);
    }
  }

  lemma TombstoneLeavesLedgers(d: Draft, id: string, targets: map<string, Target>, w: Facts)
    requires Keyed(d) && Tombstone(d, id, targets, w).Ok?
    ensures var r := Tombstone(d, id, targets, w).value;
            && (forall h :: h in r.histories ==> h in d.histories && SameLedger(d.histories[h], r.histories[h]))
            && (forall j :: j in d.records ==> j in r.records && r.records[j].history == d.records[j].history)
  {
    var r := d.records[id];
    TombstoneKeys(d, id, targets, w);
    if !StillConfigured(r, targets) {
      RetainKeeps(Released(r), HistoriesWithout(d, r, targets)[r.history].operation.session.Some?, w);
    }
  }

  lemma TombstoneLedgers(d: Draft, id: string, targets: map<string, Target>, w: Facts)
    requires Keyed(d) && BudgetsValid(d) && Tombstone(d, id, targets, w).Ok?
    ensures var r := Tombstone(d, id, targets, w).value;
            && LedgerStep(d, r, None) && BudgetsValid(r)
            && forall j :: j in d.records ==> j in r.records && r.records[j].history == d.records[j].history
  {
    TombstoneLeavesLedgers(d, id, targets, w);
    SameLedgersStep(d, Tombstone(d, id, targets, w).value, None);
  }

  lemma {:induction false} TombstoneAllKeepsLedgers(start: Draft, d: Draft, order: seq<string>, targets: map<string, Target>, w: Facts)
    requires Keyed(d) && BudgetsValid(d) && LedgersKept(start, d) && TombstoneAll(d, order, targets, w).Ok?
    ensures var r := TombstoneAll(d, order, targets, w).value;
            && LedgersKept(start, r) && BudgetsValid(r)
            && forall j :: j in d.records ==> j in r.records && r.records[j].history == d.records[j].history
    decreases |order|
  {
    if order != [] {
      var next := Tombstone(d, order[0], targets, w).value;
      TombstonePreserves(d, order[0], targets, w);
      TombstoneLedgers(d, order[0], targets, w);
      LedgerStepKeeps(start, d, next, None);
      TombstoneAllKeepsLedgers(start, next, order[1..], targets, w);
    }
  }

  // ----- what no step switches on ------------------------------------------------------------------------------------

  /** Every history is switched as it was before the transaction, and a new one is switched off. */
  ghost predicate SwitchesKept(before: Store, d: Draft) {
    forall h :: h in d.histories ==>
                  if h in before.histories then d.histories[h].operation.enabled == before.histories[h].operation.enabled
                  else !d.histories[h].operation.enabled
  }

  /** From `a` to `b` no switch moves; only the minted history may be new, switched off. */
  ghost predicate Unswitched(a: Draft, b: Draft, minted: Option<string>) {
    forall h :: h in b.histories ==>
                  || (h in a.histories && b.histories[h].operation.enabled == a.histories[h].operation.enabled)
                  || (minted == Some(h) && !b.histories[h].operation.enabled)
  }

  lemma UnswitchedKeeps(before: Store, a: Draft, b: Draft, minted: Option<string>)
    requires SwitchesKept(before, a) && Unswitched(a, b, minted)
    requires minted.Some? ==> minted.value !in before.histories
    ensures SwitchesKept(before, b)
  {
  }

  lemma TombstoneUnswitched(d: Draft, id: string, targets: map<string, Target>, w: Facts)
    requires Tombstone(d, id, targets, w).Ok?
    ensures Unswitched(d, Tombstone(d, id, targets, w).value, None)
  {
  }

  lemma JoinUnswitched(d: Draft, selected: Record, continuing: string)
    requires Join(d, selected, continuing).Ok?
    ensures Unswitched(d, Join(d, selected, continuing).value.d, None)
  {
  }

  lemma SeatUnswitched(d: Draft, selected: Record, continuing: string, t: Target, w: Facts, continues: bool, unowned: bool)
    requires Seat(d, selected, continuing, t, w, continues, unowned).Ok?
    ensures Unswitched(d, Seat(d, selected, continuing, t, w, continues, unowned).value, None)
  {
  }

  lemma TakeKeepsSwitches(before: Store, d: Draft, prior: Option<Record>, selected: Record, exact: set<string>, t: Target, w: Facts, minted: bool)
    requires SwitchesKept(before, d) && Take(d, prior, selected, exact, t, w, minted).Ok?
    ensures SwitchesKept(before, Take(d, prior, selected, exact, t, w, minted).value)
  {
    var continuing := if prior.Some? then prior.value.history else selected.history;
    JoinUnswitched(d, selected, continuing);
    var joined := Join(d, selected, continuing).value;
    UnswitchedKeeps(before, d, joined.d, None);
    if joined.Joined? {
      var continues := ContinuesActuator(prior, joined.selected, exact, t);
      SeatUnswitched(joined.d, joined.selected, continuing, t, w, continues, minted && prior.None?);
      UnswitchedKeeps(before, joined.d, Take(d, prior, selected, exact, t, w, minted).value, None);
    }
  }

  lemma PlaceKeepsSwitches(before: Store, d: Draft, prior: Option<Record>, t: Target, w: Facts)
    requires SwitchesKept(before, d) && t.minted.history !in before.histories && Place(d, prior, t, w).Ok?
    ensures SwitchesKept(before, Place(d, prior, t, w).value)
  {
    if t.ambiguity.None? && |Exact(d, t)| <= 1 && SameText(d, t) == {} {
      match Select(d, prior, t, w)
      case Stuck =>
      case Chosen(id) => TakeKeepsSwitches(before, d, prior, d.records[id], Exact(d, t), t, w, false);
      case Mint =>
        UnswitchedKeeps(before, d, MintInto(d, t, w), Some(t.minted.history));
        TakeKeepsSwitches(before, MintInto(d, t, w), prior, NewRecord(t), Exact(d, t), t, w, true);
    }
  }

  lemma {:induction false} PlaceAllKeepsSwitches(d: Draft, before: Store, targets: seq<Target>, w: Facts)
    requires OwnersUnique(before) && SwitchesKept(before, d) && PlaceAll(d, before, targets, w).Ok?
    requires forall i :: 0 <= i < |targets| ==> targets[i].minted.history !in before.histories
    ensures SwitchesKept(before, PlaceAll(d, before, targets, w).value)
    decreases |targets|
  {
    if targets != [] {
      var prior := Prior(before, targets[0].subentry);
      PlaceKeepsSwitches(before, d, prior, targets[0], w);
      PlaceAllKeepsSwitches(Place(d, prior, targets[0], w).value, before, targets[1..], w);
    }
  }

  lemma {:induction false} TombstoneAllKeepsSwitches(before: Store, d: Draft, order: seq<string>, targets: map<string, Target>, w: Facts)
    requires SwitchesKept(before, d) && TombstoneAll(d, order, targets, w).Ok?
    ensures SwitchesKept(before, TombstoneAll(d, order, targets, w).value)
    decreases |order|
  {
    if order != [] {
      TombstoneUnswitched(d, order[0], targets, w);
      var next := Tombstone(d, order[0], targets, w).value;
      UnswitchedKeeps(before, d, next, None);
      TombstoneAllKeepsSwitches(before, next, order[1..], targets, w);
    }
  }

  // ----- the theorem --------------------------------------------------------------------------------------------------

  /** `order` lists the stored records, and every minted id is new. */
  ghost predicate WellPosed(before: Store, order: seq<string>, targets: seq<Target>) {
    && ValidStore(before)
    && Distinct(order) && (forall id :: id in order <==> id in before.records)
    && AllUnused(Draft(before.records, before.histories, []), targets)
  }

  lemma PlanKeeps(before: Store, order: seq<string>, targets: seq<Target>, w: Facts)
    requires WellPosed(before, order, targets) && PlanOf(before, order, targets, w).Ok?
    ensures var d := PlanOf(before, order, targets, w).value;
            Preserves(Draft(before.records, before.histories, Shared(targets)), d) && AllRetiredSafely(d, w)
  {
    var start := Draft(before.records, before.histories, Shared(targets));
    TombstoneAllKeeps(start, order, BySubentry(targets), w, {});
    var retained := TombstoneAll(start, order, BySubentry(targets), w).value;
    PlaceAllKeeps(retained, before, targets, w);
    PreservesChain(start, retained, PlanOf(before, order, targets, w).value);
  }

  /** A record the plan leaves retired carries a blocker exactly if the plan flagged it. */
  lemma PlanBlocksExactly(before: Store, order: seq<string>, targets: seq<Target>, w: Facts, id: string)
    requires WellPosed(before, order, targets) && PlanOf(before, order, targets, w).Ok?
    requires id in PlanOf(before, order, targets, w).value.records
    requires PlanOf(before, order, targets, w).value.records[id].lifecycle.Retired?
    ensures PlanOf(before, order, targets, w).value.records[id].blockers != {} <==> PlanFlags(before, order, targets, w, id)
  {
    var start := Draft(before.records, before.histories, Shared(targets));
    TombstoneAllKeeps(start, order, BySubentry(targets), w, {});
    PlaceAllBlocksExactly(TombstoneAll(start, order, BySubentry(targets), w).value, before, targets, w, id);
  }

  /** What retirement rests on in a committed store. */
  predicate ProvenRetired(after: Store, w: Facts, id: string)
    requires id in after.records
  {
    var r := after.records[id];
    OffProof(r, w) && r.flow.None? && SessionOf(after.histories, r.history).None?
  }

  /**
   Every committed transaction keeps every record with its lineage, actuator fault,
   acknowledgement flag and fence; keeps exactly the open sessions; and leaves a record
   retired only on OFF proof, without a flow owner or an open session, and with a blocker
   exactly if the plan flagged it.
   */
  lemma CommittedKeepsEvidence(before: Store, order: seq<string>, targets: seq<Target>, w: Facts)
    requires WellPosed(before, order, targets)
    requires Commit(PlanOf(before, order, targets, w)).Ok?
    ensures var after := Commit(PlanOf(before, order, targets, w)).value;
            && ValidStore(after)
            && (forall id :: id in before.records ==> id in after.records && Evidence(before.records[id], after.records[id]))
            && (forall h :: SessionOf(after.histories, h) == SessionOf(before.histories, h))
    ensures var after := Commit(PlanOf(before, order, targets, w)).value;
            forall id :: id in after.records && after.records[id].lifecycle.Retired? ==>
                           && ProvenRetired(after, w, id)
                           && (after.records[id].blockers != {} <==> PlanFlags(before, order, targets, w, id))
  {
    PlanKeeps(before, order, targets, w);
    var d := PlanOf(before, order, targets, w).value;
    CommitAdopts(PlanOf(before, order, targets, w));
    forall id | id in d.records && d.records[id].lifecycle.Retired?
      ensures ProvenRetired(Store(d.records, d.histories), w, id)
      ensures d.records[id].blockers != {} <==> PlanFlags(before, order, targets, w, id)
    {
      assert RetiredSafely(d, w, id);
      PlanBlocksExactly(before, order, targets, w, id);
    }
  }

  lemma CommitAdopts(p: Outcome<Draft>)
    requires Commit(p).Ok?
    ensures p.Ok? && Commit(p).value == Store(p.value.records, p.value.histories) && ValidStore(Commit(p).value)
  {
  }

  /** A flagged record is always reported as trouble. */
  lemma {:induction false} FlaggedIsReported(d: Draft, before: Store, targets: seq<Target>, w: Facts, id: string)
    requires OwnersUnique(before) && Keyed(d) && AllUnused(d, targets) && PlaceAll(d, before, targets, w).Ok?
    requires EverFlagged(d, before, targets, w, id)
    ensures |d.troubles| < |PlaceAll(d, before, targets, w).value.troubles|
    decreases |targets|
  {
    var prior := Prior(before, targets[0].subentry);
    var next := Place(d, prior, targets[0], w).value;
    PlacePreserves(d, prior, targets[0], w);
    UnusedRemain(d, next, targets);
    if id in Flagged(d, prior, targets[0], w) {
      TroublesGrow(next, before, targets[1..], w);
    } else {
      FlaggedIsReported(next, before, targets[1..], w, id);
    }
  }

  lemma {:induction false} TroublesGrow(d: Draft, before: Store, targets: seq<Target>, w: Facts)
    requires OwnersUnique(before) && Keyed(d) && AllUnused(d, targets) && PlaceAll(d, before, targets, w).Ok?
    ensures |d.troubles| <= |PlaceAll(d, before, targets, w).value.troubles|
    decreases |targets|
  {
    if targets != [] {
      var prior := Prior(before, targets[0].subentry);
      var next := Place(d, prior, targets[0], w).value;
      PlacePreserves(d, prior, targets[0], w);
      UnusedRemain(d, next, targets);
      TroublesGrow(next, before, targets[1..], w);
    }
  }

  lemma PlanKeepsLedgers(before: Store, order: seq<string>, targets: seq<Target>, w: Facts)
    requires WellPosed(before, order, targets)
    requires BudgetsValid(Draft(before.records, before.histories, []))
    requires PlanOf(before, order, targets, w).Ok?
    ensures LedgersKept(Draft(before.records, before.histories, Shared(targets)), PlanOf(before, order, targets, w).value)
  {
    var start := Draft(before.records, before.histories, Shared(targets));
    var retained := TombstoneAll(start, order, BySubentry(targets), w).value;
    TombstoneAllKeeps(start, order, BySubentry(targets), w, {});
    StartKeepsLedgers(before, start);
    TombstoneAllKeepsLedgers(start, start, order, BySubentry(targets), w);
    NamesStartFree(before, order, targets, start, retained);
    PlaceAllKeepsLedgers(start, retained, before, targets, w);
  }

  lemma StartKeepsLedgers(before: Store, start: Draft)
    requires ReferencesResolve(before) && start.records == before.records && start.histories == before.histories
    ensures LedgersKept(start, start) && Keyed(start)
  {
  }

  lemma NamesStartFree(before: Store, order: seq<string>, targets: seq<Target>, start: Draft, retained: Draft)
    requires WellPosed(before, order, targets)
    requires start.records == before.records && start.histories == before.histories
    requires retained.records.Keys == start.records.Keys
    requires forall j :: j in start.records ==> j in retained.records && retained.records[j].history == start.records[j].history
    ensures NamesFree(start, retained, targets)
  {
    forall i | 0 <= i < |targets|
      ensures targets[i].minted.history !in start.histories && Unowned(retained, targets[i].minted.history)
    {
      assert Unused(Draft(before.records, before.histories, []), targets[i]);
      forall id | id in retained.records
        ensures retained.records[id].history != targets[i].minted.history
      {
        assert before.records[id].history in before.histories;
      }
    }
  }

  /**
   No committed transaction lowers a day's budget or moves an interval anchor back: every record's
   own history covers the one the record had before, and every history that is still there covers
   itself.
   */
  lemma CommittedKeepsBudgets(before: Store, order: seq<string>, targets: seq<Target>, w: Facts)
    requires WellPosed(before, order, targets)
    requires BudgetsValid(Draft(before.records, before.histories, []))
    requires Commit(PlanOf(before, order, targets, w)).Ok?
    ensures var after := Commit(PlanOf(before, order, targets, w)).value;
            forall id :: id in before.records ==>
                           && id in after.records
                           && before.records[id].history in before.histories && after.records[id].history in after.histories
                           && Covers(after.histories[after.records[id].history], before.histories[before.records[id].history])
    ensures var after := Commit(PlanOf(before, order, targets, w)).value;
            forall h :: h in before.histories && h in after.histories ==> Covers(after.histories[h], before.histories[h])
  {
    PlanKeepsLedgers(before, order, targets, w);
    CommitAdopts(PlanOf(before, order, targets, w));
    var d := PlanOf(before, order, targets, w).value;
    assert forall id :: id in d.records ==> Filed(d, id);
  }

  /** No transaction switches a zone on or off, and a zone new to the store starts switched off. */
  lemma PlanKeepsSwitches(before: Store, order: seq<string>, targets: seq<Target>, w: Facts)
    requires WellPosed(before, order, targets) && PlanOf(before, order, targets, w).Ok?
    ensures SwitchesKept(before, PlanOf(before, order, targets, w).value)
  {
    var start := Draft(before.records, before.histories, Shared(targets));
    TombstoneAllKeepsSwitches(before, start, order, BySubentry(targets), w);
    assert forall i :: 0 <= i < |targets| ==> Unused(Draft(before.records, before.histories, []), targets[i]);
    PlaceAllKeepsSwitches(TombstoneAll(start, order, BySubentry(targets), w).value, before, targets, w);
  }

  // ----- a blocked retired record, committed ---------------------------------------------------------------------------

  const RETIRED_EXAMPLE: Record := Record(
    "r", "z", None, ["z"], "l", "h", [], Retired, None,
    ActuatorIdentity(Some("u"), Some("e"), Some(SwitchDomain), RegistryConfirmed, Some(SwitchTurnOff), Some(5)),
    {}, None, None, None, false, None)

  const HISTORY_EXAMPLE: ZoneHistory :=
    History("h", None, None, None, Operation(None, ["z"], true, State.Idle, None, None, SensorIdentity(None, None), None, None))

  const STORE_EXAMPLE: Store := Store(map["r" := RETIRED_EXAMPLE], map["h" := HISTORY_EXAMPLE])

  /** A configured zone whose actuator cannot be told apart. */
  const AMBIGUOUS_EXAMPLE: Target := Target(
    "z", Some("u"), "e", SwitchDomain, 5, SensorIdentity(None, None),
    Shadow("z", "f", "s", 1, "zone", Config(30.0, 60.0, 10, 20, 3, 60, 60, 100, 50, 5, 60),
           AppliedIdentity(None, "m", SensorDomain), AppliedIdentity(Some("u"), "e", SwitchDomain)),
    Some("two entries claim one actuator"), None, Minted("r2", "l2", "h2"))

  const FACTS_EXAMPLE: Facts := Facts(map["r" := Assessment(true, true, false)], map[], {}, map[], 0)

  const BLOCKED_EXAMPLE: Record :=
    RETIRED_EXAMPLE.(blockers := {ActuatorNotProvenOff},
    incident := Some(Incident(IdentityConflict, "two entries claim one actuator")))

  lemma ExampleIsRetired()
    ensures TombstoneAll(Draft(STORE_EXAMPLE.records, STORE_EXAMPLE.histories, []), ["r"], map["z" := AMBIGUOUS_EXAMPLE], FACTS_EXAMPLE)
         == Ok(Draft(STORE_EXAMPLE.records, STORE_EXAMPLE.histories, []))
  {
    var d := Draft(STORE_EXAMPLE.records, STORE_EXAMPLE.histories, []);
    assert Retain(RETIRED_EXAMPLE, false, FACTS_EXAMPLE) == Ok(RETIRED_EXAMPLE);
    assert d.records["r" := RETIRED_EXAMPLE] == d.records;
    assert Tombstone(d, "r", map["z" := AMBIGUOUS_EXAMPLE], FACTS_EXAMPLE) == Ok(d);
    assert ["r"][1..] == [];
  }

  lemma ExampleIsBlocked()
    ensures var d := Draft(STORE_EXAMPLE.records, STORE_EXAMPLE.histories, []);
            Place(d, None, AMBIGUOUS_EXAMPLE, FACTS_EXAMPLE)
            == Ok(Draft(map["r" := BLOCKED_EXAMPLE], STORE_EXAMPLE.histories, [Ambiguous("z")]))
  {
    var d := Draft(STORE_EXAMPLE.records, STORE_EXAMPLE.histories, []);
    assert "r" in Claimants(d, AMBIGUOUS_EXAMPLE);
    var r := Place(d, None, AMBIGUOUS_EXAMPLE, FACTS_EXAMPLE).value;
    assert r.records["r"] == BLOCKED_EXAMPLE;
    assert r.records == map["r" := BLOCKED_EXAMPLE];
    assert r.troubles == [Ambiguous("z")];
  }

  lemma ExampleIsPlanned()
    requires OwnersUnique(STORE_EXAMPLE)
    ensures PlanOf(STORE_EXAMPLE, ["r"], [AMBIGUOUS_EXAMPLE], FACTS_EXAMPLE)
         == Ok(Draft(map["r" := BLOCKED_EXAMPLE], STORE_EXAMPLE.histories, [Ambiguous("z")]))
  {
    ExampleIsRetired();
    ExampleIsBlocked();
    var t := AMBIGUOUS_EXAMPLE;
    assert [t][..0] == [] && [t][1..] == [];
    assert Shared([t]) == [];
    assert BySubentry([]) == map[] && BySubentry([t]) == BySubentry([])["z" := t] == map["z" := t];
    assert Prior(STORE_EXAMPLE, "z") == None;
    var d := Draft(STORE_EXAMPLE.records, STORE_EXAMPLE.histories, []);
    var blocked := Draft(map["r" := BLOCKED_EXAMPLE], STORE_EXAMPLE.histories, [Ambiguous("z")]);
    assert PlaceAll(blocked, STORE_EXAMPLE, [], FACTS_EXAMPLE) == Ok(blocked);
    assert PlaceAll(d, STORE_EXAMPLE, [t], FACTS_EXAMPLE) == Ok(blocked);
  }

  /** One retired record with its history makes a valid store. */
  lemma ExampleIsValid(r: Record)
    requires r == RETIRED_EXAMPLE || r == BLOCKED_EXAMPLE
    ensures ValidStore(Store(map["r" := r], STORE_EXAMPLE.histories))
  {
  }

  lemma ExampleIsPosed()
    ensures WellPosed(STORE_EXAMPLE, ["r"], [AMBIGUOUS_EXAMPLE])
  {
    ExampleIsValid(RETIRED_EXAMPLE);
    assert STORE_EXAMPLE == Store(map["r" := RETIRED_EXAMPLE], STORE_EXAMPLE.histories);
  }

  /** The transaction commits, and the record is retired and blocked. */
  lemma BlockedRetiredExample()
    ensures WellPosed(STORE_EXAMPLE, ["r"], [AMBIGUOUS_EXAMPLE])
    ensures Commit(PlanOf(STORE_EXAMPLE, ["r"], [AMBIGUOUS_EXAMPLE], FACTS_EXAMPLE))
         == Ok(Store(map["r" := BLOCKED_EXAMPLE], STORE_EXAMPLE.histories))
    ensures BLOCKED_EXAMPLE.lifecycle.Retired? && BLOCKED_EXAMPLE.blockers == {ActuatorNotProvenOff}
  {
    ExampleIsPosed();
    ExampleIsPlanned();
    ExampleIsValid(BLOCKED_EXAMPLE);
  }
}
