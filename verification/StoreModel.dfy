/**
 The Store's two kinds of owners: safety records, one per actuator lineage, and zone histories,
 one per logical zone.
 */
module StoreModel {
  import opened Vocabulary
  import opened Merge

  datatype IdentityStatus = RegistryConfirmed | RegistryUnavailable | Missing | Conflicting

  datatype Domain = SwitchDomain | ValveDomain | SensorDomain

  datatype OffService = SwitchTurnOff | ValveCloseValve

  /** The service that turns an actuator of this kind off. */
  function ServiceOf(domain: Option<Domain>): Option<OffService> {
    if domain == Some(SwitchDomain) then Some(SwitchTurnOff)
    else if domain == Some(ValveDomain) then Some(ValveCloseValve)
    else None
  }

  datatype ActuatorIdentity = ActuatorIdentity(
    uuid: Option<string>,
    entity: Option<string>,
    domain: Option<Domain>,
    status: IdentityStatus,
    offService: Option<OffService>,
    confirmTimeout: Option<Time>)
  {
    /** What the constructor of an identity accepts. */
    predicate Constructible() {
      && uuid != Some("") && entity != Some("") && domain != Some(SensorDomain)
      && (entity.Some? ==> domain.Some?)
      && offService == ServiceOf(domain)
      && (confirmTimeout.Some? ==> confirmTimeout.value > 0)
      && (status.RegistryConfirmed? || status.RegistryUnavailable? ==>
            entity.Some? && domain.Some? && confirmTimeout.Some?)
      && (status.RegistryConfirmed? ==> uuid.Some?)
      && (status.RegistryUnavailable? ==> uuid.None?)
    }
  }

  const UNKNOWN_ACTUATOR: ActuatorIdentity := ActuatorIdentity(None, None, None, Missing, None, None)

  datatype SensorIdentity = SensorIdentity(uuid: Option<string>, entity: Option<string>)

  datatype Lifecycle = Active | DeletePending | Retired

  datatype FlowOwner = Integration | External

  datatype IncidentKind = IdentityMissing | IdentityConflict | MigrationUnresolved

  datatype Incident = Incident(kind: IncidentKind, detail: string)

  datatype AppliedIdentity = AppliedIdentity(uuid: Option<string>, entity: string, domain: Domain)

  /** The configuration a record was last applied with. */
  datatype Shadow = Shadow(
    subentry: string,
    fingerprint: string,
    entryFingerprint: string,
    generation: int,
    name: string,
    settings: Config,
    sensor: AppliedIdentity,
    actuator: AppliedIdentity)

  /** The operator's word that a removed actuator is physically off. */
  datatype RemovedAck = RemovedAck(at: Time, uuid: string, entity: Option<string>)

  datatype Record = Record(
    id: string,
    zone: string,
    active: Option<string>,
    previous: seq<string>,
    lineage: string,
    history: string,
    pastHistories: seq<string>,
    lifecycle: Lifecycle,
    shadow: Option<Shadow>,
    identity: ActuatorIdentity,
    blockers: set<BlockerReason>,
    flow: Option<FlowOwner>,
    incident: Option<Incident>,
    fault: Option<FaultCode>,
    ackRequired: bool,
    removedAck: Option<RemovedAck>)
  {
    /** What the constructor of a record accepts. */
    predicate Constructible() {
      && id != "" && zone != "" && lineage != "" && history != ""
      && ProperIds(active, previous)
      && Distinct(pastHistories) && history !in pastHistories
      && (fault.Some? ==> ActuatorScoped(fault.value))
      && (ackRequired ==> fault.Some? && fault.value.RequiresUserAck())
      && (lifecycle.Active? ==>
            && removedAck.None? && active.Some?
            && shadow.Some? && shadow.value.subentry == active.value
            && (identity.status.RegistryConfirmed? || identity.status.RegistryUnavailable?))
      && (!lifecycle.Active? ==> active.None?)
    }
  }

  predicate ActuatorScoped(f: FaultCode) {
    f.ActuatorUnavailable? || f.ActuatorOnTimeout? || f.ActuatorOffTimeout? || f.RestoredFromUnsafeState?
  }

  predicate Distinct(s: seq<string>) {
    forall i, j :: 0 <= i < j < |s| ==> s[i] != s[j]
  }

  predicate ProperIds(active: Option<string>, previous: seq<string>) {
    && active != Some("") && "" !in previous
    && Distinct(previous)
    && (active.Some? ==> active.value !in previous)
  }

  datatype PersistedSession = PersistedSession(owner: string, context: Session)

  /** A history's current owner and its operational state. */
  datatype Operation = Operation(
    active: Option<string>,
    previous: seq<string>,
    enabled: bool,
    state: State,
    zoneFault: Option<FaultCode>,
    secondFault: Option<FaultCode>,
    sensor: SensorIdentity,
    summary: Option<Summary>,
    session: Option<PersistedSession>)

  type ZoneHistory = History<Operation>

  datatype Store = Store(records: map<string, Record>, histories: map<string, ZoneHistory>)

  // ----- validation ---------------------------------------------------------------------------------

  /** Ids are keys, references resolve, and owners agree. */
  predicate ReferencesResolve(s: Store) {
    && (forall k :: k in s.records ==> s.records[k].id == k && s.records[k].Constructible())
    && (forall k :: k in s.histories ==> s.histories[k].id == k)
    && (forall k :: k in s.histories ==> ProperIds(s.histories[k].operation.active, s.histories[k].operation.previous))
    && (forall k :: k in s.records ==> s.records[k].history in s.histories)
    && (forall k :: k in s.records && s.records[k].lifecycle.Active? ==>
                      s.histories[s.records[k].history].operation.active == s.records[k].active)
    && (forall k :: k in s.histories && s.histories[k].operation.session.Some? ==> OwnerResolves(s, k))
  }

  predicate OwnerResolves(s: Store, k: string)
    requires k in s.histories && s.histories[k].operation.session.Some?
  {
    var owner := s.histories[k].operation.session.value.owner;
    owner in s.records && s.records[owner].history == k
  }

  /** Each lineage has one record; each subentry owns at most one record and one history. */
  predicate OwnersUnique(s: Store) {
    && (forall j, k :: j in s.records && k in s.records && j != k ==> s.records[j].lineage != s.records[k].lineage)
    && (forall j, k :: j in s.records && k in s.records && j != k ==>
                         s.records[j].active.Some? ==> s.records[j].active != s.records[k].active)
    && (forall j, k :: j in s.histories && k in s.histories && j != k ==>
                         s.histories[j].operation.active.Some? ==>
                           s.histories[j].operation.active != s.histories[k].operation.active)
  }

  function ContributionsOf(h: ZoneHistory): seq<Contribution> {
    if h.daily.Some? then h.daily.value.contributions else []
  }

  /** Contributions come from known records, and no two histories share an id. */
  predicate ContributionsUnique(s: Store) {
    && (forall k, c :: k in s.histories && c in ContributionsOf(s.histories[k]) ==> c.source in s.records)
    && (forall j, k :: j in s.histories && k in s.histories && j != k ==>
                         DisjointIds(ContributionsOf(s.histories[j]), ContributionsOf(s.histories[k])))
  }

  predicate DisjointIds(a: seq<Contribution>, b: seq<Contribution>) {
    forall c, e :: c in a && e in b ==> c.id != e.id
  }

  predicate ValidStore(s: Store) {
    ReferencesResolve(s) && OwnersUnique(s) && ContributionsUnique(s)
  }

  // ----- one blocker of one record ------------------------------------------------------------------

  function OwnerAfter(r: Record, blockers: set<BlockerReason>, reason: BlockerReason, active: bool): Option<FlowOwner> {
    if active then
      match reason
      case ExternalFlow => Some(External)
      case IntegrationOffUnconfirmed => Some(Integration)
      case ActuatorNotProvenOff => r.flow
    else if IntegrationOffUnconfirmed in blockers then Some(Integration)
    else if ExternalFlow in blockers then Some(External)
    else None
  }

  /** Put up or take down one key; nothing to do writes nothing. */
  function SetBlocker(s: Store, id: string, reason: BlockerReason, active: bool): Outcome<Store> {
    if id !in s.records then Raise(MissingRecord)
    else
      var r := s.records[id];
      var blockers := if active then r.blockers + {reason} else r.blockers - {reason};
      if blockers == r.blockers then Ok(s)
      else Ok(s.(records := s.records[id := r.(blockers := blockers, flow := OwnerAfter(r, blockers, reason, active))]))
  }

  /** A blocker write changes that key of that record, its flow owner, and nothing else. */
  lemma SetBlockerIsLocal(s: Store, id: string, reason: BlockerReason, active: bool)
    requires id in s.records
    ensures SetBlocker(s, id, reason, active).Ok?
    ensures var t := SetBlocker(s, id, reason, active).value;
            && t.histories == s.histories && t.records.Keys == s.records.Keys
            && (forall j :: j in s.records && j != id ==> t.records[j] == s.records[j])
            && t.records[id] == s.records[id].(blockers := t.records[id].blockers, flow := t.records[id].flow)
            && (reason in t.records[id].blockers <==> active)
            && (forall b :: b != reason ==> (b in t.records[id].blockers <==> b in s.records[id].blockers))
  {
  }

  /** The same records up to blockers and flow owner. */
  ghost predicate SameBut(s: Store, t: Store) {
    && t.histories == s.histories && t.records.Keys == s.records.Keys
    && forall k :: k in s.records ==> t.records[k] == s.records[k].(blockers := t.records[k].blockers, flow := t.records[k].flow)
  }

  lemma SameReferences(s: Store, t: Store)
    requires ReferencesResolve(s) && SameBut(s, t)
    ensures ReferencesResolve(t)
  {
    forall k | k in t.histories && t.histories[k].operation.session.Some?
      ensures OwnerResolves(t, k)
    {
      assert OwnerResolves(s, k);
    }
  }

  lemma SameOwners(s: Store, t: Store)
    requires OwnersUnique(s) && SameBut(s, t)
    ensures OwnersUnique(t)
  {
    assert forall k :: k in s.records ==> t.records[k].lineage == s.records[k].lineage && t.records[k].active == s.records[k].active;
  }

  /** Blockers and flow owners are no part of what validation looks at. */
  lemma SetBlockerKeepsValidity(s: Store, id: string, reason: BlockerReason, active: bool)
    requires ValidStore(s) && id in s.records
    ensures ValidStore(SetBlocker(s, id, reason, active).value)
  {
    SetBlockerIsLocal(s, id, reason, active);
    var t := SetBlocker(s, id, reason, active).value;
    assert SameBut(s, t);
    SameReferences(s, t);
    SameOwners(s, t);
    assert ContributionsUnique(t);
  }

  /** The recorded flow owner is the one the blockers point to. */
  predicate OwnerMatches(r: Record) {
    && (IntegrationOffUnconfirmed in r.blockers ==> r.flow == Some(Integration))
    && (ExternalFlow in r.blockers && IntegrationOffUnconfirmed !in r.blockers ==> r.flow == Some(External))
  }

  /** A write keeps the owner right exactly when it does not report external flow over unconfirmed flow of our own. */
  lemma OwnerStaysRight(s: Store, id: string, reason: BlockerReason, active: bool)
    requires id in s.records && OwnerMatches(s.records[id])
    ensures SetBlocker(s, id, reason, active).Ok?
    ensures OwnerMatches(SetBlocker(s, id, reason, active).value.records[id]) <==>
            !(active && reason == ExternalFlow && ExternalFlow !in s.records[id].blockers
              && IntegrationOffUnconfirmed in s.records[id].blockers)
  {
    var r := s.records[id];
    var blockers := if active then r.blockers + {reason} else r.blockers - {reason};
    if blockers == r.blockers {
      assert active ==> reason in blockers;
    }
  }

  /** A record with unconfirmed flow of our own. */
  const OWNED_EXAMPLE: Record := Record(
    "r", "z", None, [], "l", "h", [], DeletePending, None, UNKNOWN_ACTUATOR,
    {IntegrationOffUnconfirmed}, Some(Integration), None, None, false, None)

  /** External flow reported over it takes the record's flow away from us. */
  lemma OverwrittenOwnerExample()
    ensures OWNED_EXAMPLE.Constructible() && OwnerMatches(OWNED_EXAMPLE)
    ensures var w := SetBlocker(Store(map["r" := OWNED_EXAMPLE], map[]), "r", ExternalFlow, true);
            && w.Ok? && "r" in w.value.records && IntegrationOffUnconfirmed in w.value.records["r"].blockers
            && w.value.records["r"].flow == Some(External) && !OwnerMatches(w.value.records["r"])
  {
    OwnerStaysRight(Store(map["r" := OWNED_EXAMPLE], map[]), "r", ExternalFlow, true);
  }
}
