/**
 Migration of the first Store schema: one record per zone becomes a safety record and a zone
 history with derived ids. The derived ids are injective functions of the record id.
 */
module Migration {
  import opened Vocabulary
  import opened Merge
  import opened StoreModel
  import opened ZoneActions

  /** A zone as the first schema kept it; a day is its date and runtime. */
  datatype LegacyZone = LegacyZone(
    state: State,
    enabled: bool,
    activeFault: Option<FaultCode>,
    secondaryFault: Option<FaultCode>,
    lastEnd: Option<Time>,
    lastAutoStart: Option<Time>,
    daily: Option<(int, real)>,
    summary: Option<Summary>,
    session: Option<Session>)

  /** What the current configuration says about a record. */
  datatype Context = Context(subentry: string, shadow: Shadow, identity: ActuatorIdentity, sensor: SensorIdentity) {
    /** A context speaks of one subentry, one sensor and one actuator. */
    predicate Constructible() {
      && subentry != "" && shadow.subentry == subentry
      && sensor.entity == Some(shadow.sensor.entity)
      && identity.entity == Some(shadow.actuator.entity)
    }
  }

  /** The derived ids; being injective, each can be read back to the record it was derived from. */
  datatype Naming = Naming(
    lineage: string -> string,
    history: string -> string,
    contribution: (string, int) -> int,
    ofLineage: string -> string,
    ofHistory: string -> string,
    ofContribution: int -> string)
  {
    ghost predicate Proper() {
      && (forall a :: lineage(a) != "" && ofLineage(lineage(a)) == a)
      && (forall a :: history(a) != "" && ofHistory(history(a)) == a)
      && (forall a, d :: ofContribution(contribution(a, d)) == a)
    }
  }

  predicate Scoped(f: Option<FaultCode>) {
    f.Some? && ActuatorScoped(f.value)
  }

  function ZoneScoped(f: Option<FaultCode>): Option<FaultCode> {
    if Scoped(f) then None else f
  }

  function ActuatorFaultOf(z: LegacyZone): Option<FaultCode> {
    if Scoped(z.activeFault) then z.activeFault else if Scoped(z.secondaryFault) then z.secondaryFault else None
  }

  /** Water may still flow from a pulse whose OFF was never confirmed. */
  predicate MayFlow(z: LegacyZone) {
    z.session.Some? && z.session.value.PulseOpen()
  }

  function NewRecord(id: string, z: LegacyZone, c: Option<Context>, names: Naming): Record {
    var flowing := if MayFlow(z) then {FENCE} else {};
    var fault := ActuatorFaultOf(z);
    Record(
      id, id,
      if c.Some? then Some(c.value.subentry) else None,
      if c.Some? && c.value.subentry == id then [] else [id],
      names.lineage(id), names.history(id), [],
      if c.Some? then Active else DeletePending,
      if c.Some? then Some(c.value.shadow) else None,
      if c.Some? then c.value.identity else UNKNOWN_ACTUATOR,
      if c.Some? then flowing else flowing + {ActuatorNotProvenOff},
      if MayFlow(z) then Some(Integration) else None,
      if c.Some? then None else Some(Incident(MigrationUnresolved, "durable actuator identity unavailable")),
      fault, fault.Some? && fault.value.RequiresUserAck(), None)
  }

  function NewDaily(id: string, z: LegacyZone, names: Naming): Option<DayBudget> {
    if z.daily.None? then None
    else
      var (date, runtime) := z.daily.value;
      Some(DayBudget(date, runtime, 0.0,
                     [Contribution(names.contribution(id, date), id, None, runtime, true, Some(date))]))
  }

  function NewHistory(id: string, z: LegacyZone, c: Option<Context>, names: Naming): ZoneHistory {
    History(
      names.history(id), z.lastEnd, z.lastAutoStart, NewDaily(id, z, names),
      Operation(
        if c.Some? then Some(c.value.subentry) else None,
        if c.Some? && c.value.subentry == id then [] else [id],
        z.enabled, z.state, ZoneScoped(z.activeFault), ZoneScoped(z.secondaryFault),
        if c.Some? then c.value.sensor else SensorIdentity(None, None), z.summary,
        if z.session.Some? then Some(PersistedSession(id, z.session.value)) else None))
  }

  /** Both faults belong to the actuator, or the zone's two faults coincide: not representable. */
  predicate FaultsFit(z: LegacyZone) {
    && !(Scoped(z.activeFault) && Scoped(z.secondaryFault))
    && (ZoneScoped(z.activeFault).Some? ==> ZoneScoped(z.activeFault) != ZoneScoped(z.secondaryFault))
  }

  function ContextOf(contexts: map<string, Context>, id: string): Option<Context> {
    if id in contexts then Some(contexts[id]) else None
  }

  /** The record and history of one legacy zone, or the refusal of their constructors. */
  function MigrateOne(id: string, z: LegacyZone, c: Option<Context>, names: Naming): Outcome<(Record, ZoneHistory)> {
    var r := NewRecord(id, z, c, names);
    var h := NewHistory(id, z, c, names);
    if && (c.Some? ==> c.value.Constructible())
       && FaultsFit(z) && r.Constructible() && ProperIds(h.operation.active, h.operation.previous)
       && (h.daily.Some? ==> h.daily.value.Valid())
    then Ok((r, h))
    else Raise(MalformedPayload)
  }

  function MigrateAll(
    zones: map<string, LegacyZone>, contexts: map<string, Context>, names: Naming, order: seq<string>, s: Store): Outcome<Store>
    requires forall id :: id in order ==> id in zones
    decreases |order|
  {
    if order == [] then Ok(s)
    else
      var one :- MigrateOne(order[0], zones[order[0]], ContextOf(contexts, order[0]), names);
      MigrateAll(zones, contexts, names, order[1..], Filed(s, one.0, one.1))
  }

  function Filed(s: Store, r: Record, h: ZoneHistory): Store {
    Store(s.records[r.id := r], s.histories[h.id := h])
  }

  /** `order` lists the legacy zones. */
  function Migrate(zones: map<string, LegacyZone>, contexts: map<string, Context>, names: Naming, order: seq<string>): Outcome<Store>
    requires forall id :: id in order ==> id in zones
  {
    if !(contexts.Keys <= zones.Keys) then Raise(MalformedPayload)
    else
      var s :- MigrateAll(zones, contexts, names, order, Store(map[], map[]));
      if ValidStore(s) then Ok(s) else Raise(MalformedPayload)
  }

  /** The dictionaries are filled one record at a time and validated at the end. */
  method MigrateStore(zones: map<string, LegacyZone>, contexts: map<string, Context>, names: Naming, order: seq<string>)
    returns (r: Outcome<Store>)
    requires forall id :: id in order ==> id in zones
    ensures r == Migrate(zones, contexts, names, order)
  {
    if !(contexts.Keys <= zones.Keys) {
      return Raise(MalformedPayload);
    }
    var records: map<string, Record> := map[];
    var histories: map<string, ZoneHistory> := map[];
    for i := 0 to |order|
      invariant MigrateAll(zones, contexts, names, order[i..], Store(records, histories))
             == MigrateAll(zones, contexts, names, order, Store(map[], map[]))
    {
      var id := order[i];
      assert order[i..][0] == id && order[i..][1..] == order[i + 1..];
      var one := MigrateOne(id, zones[id], ContextOf(contexts, id), names);
      if one.Raise? {
        return Raise(MalformedPayload);
      }
      records := records[one.value.0.id := one.value.0];
      histories := histories[one.value.1.id := one.value.1];
    }
    assert order[|order|..] == [];
    r := if ValidStore(Store(records, histories)) then Ok(Store(records, histories)) else Raise(MalformedPayload);
  }

  // ----- what comes out --------------------------------------------------------------------------------

  ghost predicate RecordsHeld(
    records: map<string, Record>, zones: map<string, LegacyZone>, contexts: map<string, Context>, names: Naming, done: set<string>)
    requires done <= zones.Keys
  {
    && records.Keys == done
    && forall id :: id in done ==> records[id] == NewRecord(id, zones[id], ContextOf(contexts, id), names)
  }

  ghost predicate HistoriesHeld(
    histories: map<string, ZoneHistory>, zones: map<string, LegacyZone>, contexts: map<string, Context>, names: Naming, done: set<string>)
    requires done <= zones.Keys
  {
    && (forall id :: id in done ==> names.history(id) in histories)
    && (forall h :: h in histories ==>
                      var id := names.ofHistory(h);
                      && id in done && h == names.history(id)
                      && histories[h] == NewHistory(id, zones[id], ContextOf(contexts, id), names))
  }

  /** The store holds exactly the migrated zones of `done`. */
  ghost predicate Holds(
    s: Store, zones: map<string, LegacyZone>, contexts: map<string, Context>, names: Naming, done: set<string>)
    requires done <= zones.Keys
  {
    RecordsHeld(s.records, zones, contexts, names, done) && HistoriesHeld(s.histories, zones, contexts, names, done)
  }

  /** One zone can be migrated on its own. */
  ghost predicate Fits(id: string, z: LegacyZone, c: Option<Context>) {
    && id != "" && FaultsFit(z)
    && (z.daily.Some? ==> z.daily.value.1 >= 0.0)
    && (c.Some? ==>
          && c.value.Constructible()
          && (c.value.identity.status.RegistryConfirmed? || c.value.identity.status.RegistryUnavailable?))
  }

  lemma OneFits(id: string, z: LegacyZone, c: Option<Context>, names: Naming)
    requires names.Proper()
    ensures MigrateOne(id, z, c, names).Ok? <==> Fits(id, z, c)
    ensures MigrateOne(id, z, c, names).Ok? ==>
              MigrateOne(id, z, c, names).value == (NewRecord(id, z, c, names), NewHistory(id, z, c, names))
  {
    if z.daily.Some? {
      MigratedDayIsValid(id, z, names);
    }
  }

  lemma HistoriesGrow(histories: map<string, ZoneHistory>, zones: map<string, LegacyZone>, contexts: map<string, Context>, names: Naming,
                      done: set<string>, id: string, h: ZoneHistory)
    requires names.Proper() && done <= zones.Keys && id in zones && id !in done
    requires HistoriesHeld(histories, zones, contexts, names, done)
    requires h == NewHistory(id, zones[id], ContextOf(contexts, id), names)
    ensures HistoriesHeld(histories[names.history(id) := h], zones, contexts, names, done + {id})
  {
  }

  lemma HoldsGrows(s: Store, zones: map<string, LegacyZone>, contexts: map<string, Context>, names: Naming, done: set<string>, id: string)
    requires names.Proper() && done <= zones.Keys && id in zones && id !in done
    requires Holds(s, zones, contexts, names, done)
    ensures var r := NewRecord(id, zones[id], ContextOf(contexts, id), names);
            var h := NewHistory(id, zones[id], ContextOf(contexts, id), names);
            Holds(Filed(s, r, h), zones, contexts, names, done + {id})
  {
    HistoriesGrow(s.histories, zones, contexts, names, done, id, NewHistory(id, zones[id], ContextOf(contexts, id), names));
  }

  /** Zone by zone, nothing but the zone itself decides whether it migrates. */
  lemma {:induction false} AllFit(
    zones: map<string, LegacyZone>, contexts: map<string, Context>, names: Naming, order: seq<string>, s: Store)
    requires names.Proper() && forall id :: id in order ==> id in zones
    ensures MigrateAll(zones, contexts, names, order, s).Ok? <==>
            forall id :: id in order ==> Fits(id, zones[id], ContextOf(contexts, id))
    decreases |order|
  {
    if order != [] {
      var id := order[0];
      assert id in order;
      var one := MigrateOne(id, zones[id], ContextOf(contexts, id), names);
      OneFits(id, zones[id], ContextOf(contexts, id), names);
      if one.Ok? {
        AllFit(zones, contexts, names, order[1..], Filed(s, one.value.0, one.value.1));
        assert forall i :: i in order <==> i == id || i in order[1..];
      }
    }
  }

  lemma {:induction false} AllHeld(
    zones: map<string, LegacyZone>, contexts: map<string, Context>, names: Naming, order: seq<string>, s: Store,
    done: set<string>, all: set<string>)
    requires names.Proper() && done <= all <= zones.Keys && Holds(s, zones, contexts, names, done)
    requires Distinct(order) && forall id :: id in order <==> id in all && id !in done
    requires MigrateAll(zones, contexts, names, order, s).Ok?
    ensures Holds(MigrateAll(zones, contexts, names, order, s).value, zones, contexts, names, all)
    decreases |order|
  {
    if order == [] {
      assert done == all;
    } else {
      var id := order[0];
      assert id in order;
      RestIsNew(order);
      FiledHolds(zones, contexts, names, s, done, id);
      var one := MigrateOne(id, zones[id], ContextOf(contexts, id), names);
      AllHeld(zones, contexts, names, order[1..], Filed(s, one.value.0, one.value.1), done + {id}, all);
    }
  }

  lemma FiledHolds(zones: map<string, LegacyZone>, contexts: map<string, Context>, names: Naming, s: Store, done: set<string>, id: string)
    requires names.Proper() && done <= zones.Keys && Holds(s, zones, contexts, names, done)
    requires id in zones && id !in done && MigrateOne(id, zones[id], ContextOf(contexts, id), names).Ok?
    ensures var one := MigrateOne(id, zones[id], ContextOf(contexts, id), names).value;
            Holds(Filed(s, one.0, one.1), zones, contexts, names, done + {id})
  {
    OneFits(id, zones[id], ContextOf(contexts, id), names);
    HoldsGrows(s, zones, contexts, names, done, id);
  }

  lemma RestIsNew(order: seq<string>)
    requires order != [] && Distinct(order)
    ensures Distinct(order[1..])
    ensures forall id :: id in order <==> id == order[0] || id in order[1..]
    ensures order[0] !in order[1..]
  {
    assert order == [order[0]] + order[1..];
  }

  // ----- the migrated store is valid -------------------------------------------------------------------------

  /** No two records are configured for one subentry. */
  ghost predicate SubentriesDiffer(contexts: map<string, Context>) {
    forall a, b :: a in contexts && b in contexts && a != b ==> contexts[a].subentry != contexts[b].subentry
  }

  lemma MigratedResolves(s: Store, zones: map<string, LegacyZone>, contexts: map<string, Context>, names: Naming)
    requires names.Proper() && Holds(s, zones, contexts, names, zones.Keys)
    requires forall id :: id in zones ==> Fits(id, zones[id], ContextOf(contexts, id))
    ensures ReferencesResolve(s)
  {
    forall k | k in s.histories
      ensures s.histories[k].id == k
      ensures ProperIds(s.histories[k].operation.active, s.histories[k].operation.previous)
      ensures s.histories[k].operation.session.Some? ==> OwnerResolves(s, k)
    {
      var id := names.ofHistory(k);
      OneFits(id, zones[id], ContextOf(contexts, id), names);
    }
    forall id | id in s.records
      ensures s.records[id].id == id && s.records[id].Constructible() && s.records[id].history in s.histories
    {
      OneFits(id, zones[id], ContextOf(contexts, id), names);
    }
  }

  lemma MigratedHistoryOwner(s: Store, zones: map<string, LegacyZone>, contexts: map<string, Context>, names: Naming, k: string)
    requires names.Proper() && Holds(s, zones, contexts, names, zones.Keys) && k in s.histories
    ensures names.ofHistory(k) in zones && k == names.history(names.ofHistory(k))
    ensures s.histories[k].operation.active == ActiveOf(ContextOf(contexts, names.ofHistory(k)))
  {
  }

  lemma MigratedRecordOwner(s: Store, zones: map<string, LegacyZone>, contexts: map<string, Context>, names: Naming, id: string)
    requires names.Proper() && Holds(s, zones, contexts, names, zones.Keys) && id in s.records
    ensures names.ofLineage(s.records[id].lineage) == id && s.records[id].active == ActiveOf(ContextOf(contexts, id))
  {
  }

  lemma MigratedOwners(s: Store, zones: map<string, LegacyZone>, contexts: map<string, Context>, names: Naming)
    requires names.Proper() && Holds(s, zones, contexts, names, zones.Keys)
    requires SubentriesDiffer(contexts)
    ensures OwnersUnique(s)
  {
    forall k | k in s.histories
      ensures names.ofHistory(k) in zones && k == names.history(names.ofHistory(k))
      ensures s.histories[k].operation.active == ActiveOf(ContextOf(contexts, names.ofHistory(k)))
    {
      MigratedHistoryOwner(s, zones, contexts, names, k);
    }
    forall id | id in s.records
      ensures names.ofLineage(s.records[id].lineage) == id && s.records[id].active == ActiveOf(ContextOf(contexts, id))
    {
      MigratedRecordOwner(s, zones, contexts, names, id);
    }
    OwnersByName(s, contexts, names);
  }

  /** Whoever can be told apart by name and subentry is a unique owner. */
  lemma OwnersByName(s: Store, contexts: map<string, Context>, names: Naming)
    requires SubentriesDiffer(contexts)
    requires forall k :: k in s.histories ==>
                           && k == names.history(names.ofHistory(k))
                           && s.histories[k].operation.active == ActiveOf(ContextOf(contexts, names.ofHistory(k)))
    requires forall id :: id in s.records ==>
                            names.ofLineage(s.records[id].lineage) == id && s.records[id].active == ActiveOf(ContextOf(contexts, id))
    ensures OwnersUnique(s)
  {
  }

  function ActiveOf(c: Option<Context>): Option<string> {
    if c.Some? then Some(c.value.subentry) else None
  }

  lemma MigratedPart(s: Store, zones: map<string, LegacyZone>, contexts: map<string, Context>, names: Naming, k: string, c: Contribution)
    requires names.Proper() && Holds(s, zones, contexts, names, zones.Keys)
    requires k in s.histories && c in ContributionsOf(s.histories[k])
    ensures c.source in s.records && names.ofContribution(c.id) == names.ofHistory(k)
    ensures names.history(names.ofHistory(k)) == k
  {
    var id := names.ofHistory(k);
    assert s.histories[k].daily == NewDaily(id, zones[id], names);
  }

  lemma MigratedContributions(s: Store, zones: map<string, LegacyZone>, contexts: map<string, Context>, names: Naming)
    requires names.Proper() && Holds(s, zones, contexts, names, zones.Keys)
    ensures ContributionsUnique(s)
  {
    forall k, c | k in s.histories && c in ContributionsOf(s.histories[k])
      ensures c.source in s.records && names.ofContribution(c.id) == names.ofHistory(k)
      ensures names.history(names.ofHistory(k)) == k
    {
      MigratedPart(s, zones, contexts, names, k, c);
    }
  }

  lemma SubentriesMustDiffer(s: Store, zones: map<string, LegacyZone>, contexts: map<string, Context>, names: Naming)
    requires names.Proper() && Holds(s, zones, contexts, names, zones.Keys)
    requires contexts.Keys <= zones.Keys && OwnersUnique(s)
    ensures SubentriesDiffer(contexts)
  {
    forall a, b | a in contexts && b in contexts && a != b
      ensures contexts[a].subentry != contexts[b].subentry
    {
      assert s.records[a].active == Some(contexts[a].subentry);
      assert s.records[b].active == Some(contexts[b].subentry);
    }
  }

  /** What a legacy store and its contexts must meet. */
  ghost predicate Migratable(zones: map<string, LegacyZone>, contexts: map<string, Context>) {
    && contexts.Keys <= zones.Keys
    && SubentriesDiffer(contexts)
    && forall id :: id in zones ==> Fits(id, zones[id], ContextOf(contexts, id))
  }

  ghost predicate Lists(order: seq<string>, zones: map<string, LegacyZone>) {
    Distinct(order) && forall id :: id in order <==> id in zones
  }

  /** Migration succeeds exactly on migratable stores, and the result is valid. */
  lemma MigratesExactly(zones: map<string, LegacyZone>, contexts: map<string, Context>, names: Naming, order: seq<string>)
    requires names.Proper() && Lists(order, zones)
    ensures Migrate(zones, contexts, names, order).Ok? <==> Migratable(zones, contexts)
    ensures Migrate(zones, contexts, names, order).Ok? ==>
              ValidStore(Migrate(zones, contexts, names, order).value)
              && Holds(Migrate(zones, contexts, names, order).value, zones, contexts, names, zones.Keys)
  {
    var blank := Store(map[], map[]);
    AllFit(zones, contexts, names, order, blank);
    var all := MigrateAll(zones, contexts, names, order, blank);
    if contexts.Keys <= zones.Keys && all.Ok? {
      AllHeld(zones, contexts, names, order, blank, {}, zones.Keys);
      ValidExactly(all.value, zones, contexts, names);
    }
  }

  lemma ValidExactly(s: Store, zones: map<string, LegacyZone>, contexts: map<string, Context>, names: Naming)
    requires names.Proper() && Holds(s, zones, contexts, names, zones.Keys) && contexts.Keys <= zones.Keys
    requires forall id :: id in zones ==> Fits(id, zones[id], ContextOf(contexts, id))
    ensures ValidStore(s) <==> SubentriesDiffer(contexts)
  {
    MigratedResolves(s, zones, contexts, names);
    MigratedContributions(s, zones, contexts, names);
    if SubentriesDiffer(contexts) {
      MigratedOwners(s, zones, contexts, names);
    } else if OwnersUnique(s) {
      SubentriesMustDiffer(s, zones, contexts, names);
    }
  }

  /** The safety meaning of one zone, before and after. */
  predicate KeepsMeaning(id: string, z: LegacyZone, c: Option<Context>, r: Record, h: ZoneHistory) {
    && r.id == id && r.history == h.id
    && h.operation.enabled == z.enabled && h.operation.state == z.state && h.operation.summary == z.summary
    && h.lastEnd == z.lastEnd && h.lastAutoStart == z.lastAutoStart
    && h.operation.session == (if z.session.Some? then Some(PersistedSession(id, z.session.value)) else None)
    && (h.daily.Some? <==> z.daily.Some?)
    && (z.daily.Some? ==> h.daily.value.date == z.daily.value.0 && h.daily.value.runtime == z.daily.value.1)
    && (FENCE in r.blockers <==> MayFlow(z)) && (r.flow == Some(Integration) <==> MayFlow(z))
    && (c.None? ==> r.active.None? && r.lifecycle.DeletePending? && ActuatorNotProvenOff in r.blockers && r.incident.Some?)
    && (r.fault.Some? <==> Scoped(z.activeFault) || Scoped(z.secondaryFault))
    && (r.ackRequired <==> r.fault.Some? && r.fault.value.RequiresUserAck())
  }

  /** Migration keeps every record, budget, anchor, switch and session, and fences possible flow. */
  lemma MigrationKeepsMeaning(zones: map<string, LegacyZone>, contexts: map<string, Context>, names: Naming, order: seq<string>)
    requires names.Proper() && Lists(order, zones)
    requires Migrate(zones, contexts, names, order).Ok?
    ensures var s := Migrate(zones, contexts, names, order).value;
            && s.records.Keys == zones.Keys
            && forall id :: id in zones ==>
                              s.records[id].history in s.histories
                              && KeepsMeaning(id, zones[id], ContextOf(contexts, id), s.records[id], s.histories[s.records[id].history])
  {
    MigratesExactly(zones, contexts, names, order);
    var s := Migrate(zones, contexts, names, order).value;
    forall id | id in zones
      ensures s.records[id].history in s.histories
      ensures KeepsMeaning(id, zones[id], ContextOf(contexts, id), s.records[id], s.histories[s.records[id].history])
    {
      OneKeepsMeaning(id, zones[id], ContextOf(contexts, id), names);
      assert names.ofHistory(names.history(id)) == id;
    }
  }

  lemma OneKeepsMeaning(id: string, z: LegacyZone, c: Option<Context>, names: Naming)
    ensures KeepsMeaning(id, z, c, NewRecord(id, z, c, names), NewHistory(id, z, c, names))
  {
  }

  /** A migrated day is a valid daily record exactly if the legacy runtime was not negative. */
  lemma MigratedDayIsValid(id: string, z: LegacyZone, names: Naming)
    requires z.daily.Some?
    ensures NewDaily(id, z, names).value.Valid() <==> z.daily.value.1 >= 0.0
  {
    var c := NewDaily(id, z, names).value.contributions[0];
    assert Known([c]) == c.runtime + Known([]);
  }
}
