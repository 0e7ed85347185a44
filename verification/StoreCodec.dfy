/**
 The Store's printer and its strict parser. Every object must carry exactly its own keys, and the
 parsed store must validate as a whole. Texts of instants, dates and enumeration values stand
 for what they spell, which the printer and the parser translate one to one.
 */
module StoreCodec {
  import opened Vocabulary
  import opened Merge
  import opened StoreModel
  import opened RunProtocol

  // ----- payloads -----------------------------------------------------------------------------------

  datatype StoreName = Version | GenerationId | StoreRevision | Run | ZoneHistories | SafetyRecords

  datatype RunName = ActiveRunId | LastCleanRunId

  datatype HistoryName = HistoryOwner | FormerOwners | LastSessionEnd | LastAutoStart | ZoneRuntime | DailyBudget

  datatype RuntimeName = Enabled | StateName | ZoneFault | SecondaryFault | Sensor | LastSummary | OpenSession

  datatype SensorName = SensorRegistryId | SensorEntityId

  datatype SummaryName =
    | ClosedMode | ClosedReason | ClosedRuntime | ClosedEstimated | ClosedEstimation | ClosedRequested
    | ClosedEffective | ClosedClamps | ClosedCycles | MoistureBefore | MoistureAfter | ClosedStart | ClosedEnd

  datatype DailyName = DateLocal | RuntimeTotal | Unattributed | Contributions

  datatype PartName = PartId | PartSource | PartStart | PartEnd | PartRuntime | PartEstimated | PartDate

  datatype RecordName =
    | ZoneId | ActiveSubentry | PreviousSubentries | Lineage | HistoryId | PastHistories | LifecycleName
    | AppliedConfig | IdentityOf | BlockerReasons | PossibleFlow | IdentityIncident | ActuatorFaultName
    | AckRequired | RemovedAckField

  datatype ShadowName =
    | SubentryId | ConfigFingerprint | EntryFingerprint | AppliedGeneration | Settings | AppliedSensor | AppliedActuator

  datatype SettingName =
    | ZoneName | StartThreshold | TargetThreshold | PulseDuration | SoakDuration | MaxCyclesSetting | MaxSession
    | MaxDaily | MinInterval | SensorMaxAge | ConfirmTimeoutSetting | ManualMax

  datatype AppliedName = AppliedRegistryId | AppliedEntityId | AppliedDomain

  datatype IdentityName = RegistryId | EntityId | DomainName | StatusName | OffServiceName | ConfirmTimeout

  datatype IncidentName = KindName | Detail

  datatype AckName = AcknowledgedAt | AckRegistryId | AckEntityId

  datatype SessionName =
    | OwnerRecord | SessionId | OwnerRun | Fingerprint | ModeName | SessionStart | Cycle | SessionRuntime
    | Estimated | EstimationName | IntentAt | CommandedAt | ConfirmedAt | EndsAt | OffAt | SoakEnds
    | RecheckNotBefore | GraceDeadline | Requested | EffectiveDuration | ClampReasons | RetainedFault | MoistureAtStart

  /** A key is a field name of one kind of object, or an id. */
  datatype Key =
    | Id(id: string)
    | OfStore(store: StoreName)
    | OfRun(run: RunName)
    | OfHistory(history: HistoryName)
    | OfRuntime(runtime: RuntimeName)
    | OfDaily(daily: DailyName)
    | OfPart(part: PartName)
    | OfRecord(record: RecordName)
    | OfShadow(shadow: ShadowName)
    | OfIdentity(identity: IdentityName)
    | OfSession(session: SessionName)
    | OfSensor(sensor: SensorName)
    | OfSummary(summary: SummaryName)
    | OfSetting(setting: SettingName)
    | OfApplied(applied: AppliedName)
    | OfIncident(incident: IncidentName)
    | OfAck(ack: AckName)

  /** An enumeration value as text. */
  datatype EnumWord =
    | StateWord(state: State)
    | ModeWord(mode: Mode)
    | FaultWord(fault: FaultCode)
    | EstimationWord(estimation: Estimation)
    | ClampWord(clamp: ClampReason)
    | BlockerWord(blocker: BlockerReason)
    | LifecycleWord(lifecycle: Lifecycle)
    | FlowWord(flow: FlowOwner)
    | IncidentWord(incident: IncidentKind)
    | ReasonWord(reason: Reason)
    | DomainWord(domain: Domain)
    | ServiceWord(service: OffService)
    | StatusWord(status: IdentityStatus)

  datatype Json =
    | Null
    | Flag(flag: bool)
    | Whole(whole: int)
    | Number(number: real)
    | Text(text: string)
    | Instant(instant: Time)
    | Date(date: int)
    | Word(word: EnumWord)
    | List(items: seq<Json>)
    | Object(fields: map<Key, Json>)

  function Bad<T>(): Outcome<T> {
    Raise(MalformedPayload)
  }

  function At(m: map<Key, Json>, k: Key): Json {
    if k in m then m[k] else Null
  }

  // ----- scalars ------------------------------------------------------------------------------------

  function ParseText(j: Json): Outcome<string> {
    if j.Text? && j.text != "" then Ok(j.text) else Bad()
  }

  function PrintText(o: Option<string>): Json {
    if o.Some? then Text(o.value) else Null
  }

  function ParseTextOrNull(j: Json): Outcome<Option<string>> {
    if j.Null? then Ok(None) else if j.Text? && j.text != "" then Ok(Some(j.text)) else Bad()
  }

  function ParseFlag(j: Json): Outcome<bool> {
    if j.Flag? then Ok(j.flag) else Bad()
  }

  function ParseWhole(j: Json, minimum: int): Outcome<int> {
    if j.Whole? && j.whole >= minimum then Ok(j.whole) else Bad()
  }

  function PrintWhole(o: Option<int>): Json {
    if o.Some? then Whole(o.value) else Null
  }

  function ParseWholeOrNull(j: Json): Outcome<Option<int>> {
    if j.Null? then Ok(None) else if j.Whole? then Ok(Some(j.whole)) else Bad()
  }

  /** A strict number accepts a whole one too. */
  function ParseNumber(j: Json): Outcome<real> {
    if j.Number? && j.number >= 0.0 then Ok(j.number)
    else if j.Whole? && j.whole >= 0 then Ok(j.whole as real)
    else Bad()
  }

  function PrintNumber(o: Option<real>): Json {
    if o.Some? then Number(o.value) else Null
  }

  function ParseNumberOrNull(j: Json): Outcome<Option<real>> {
    if j.Null? then Ok(None) else if j.Number? then Ok(Some(j.number)) else if j.Whole? then Ok(Some(j.whole as real)) else Bad()
  }

  function PrintInstant(o: Option<Time>): Json {
    if o.Some? then Instant(o.value) else Null
  }

  function ParseInstantOrNull(j: Json): Outcome<Option<Time>> {
    if j.Null? then Ok(None) else if j.Instant? then Ok(Some(j.instant)) else Bad()
  }

  function PrintFault(o: Option<FaultCode>): Json {
    if o.Some? then Word(FaultWord(o.value)) else Null
  }

  function ParseFaultOrNull(j: Json): Outcome<Option<FaultCode>> {
    if j.Null? then Ok(None) else if j.Word? && j.word.FaultWord? then Ok(Some(j.word.fault)) else Bad()
  }

  // ----- lists ----------------------------------------------------------------------------------------

  function PrintIds(ids: seq<string>): Json {
    List(seq(|ids|, i requires 0 <= i < |ids| => Text(ids[i])))
  }

  /** A list of non-empty texts without duplicates. */
  function ParseIds(j: Json): Outcome<seq<string>> {
    if j.List? && forall i :: 0 <= i < |j.items| ==> j.items[i].Text? && j.items[i].text != "" then
      var ids := seq(|j.items|, i requires 0 <= i < |j.items| => j.items[i].text);
      if Distinct(ids) then Ok(ids) else Bad()
    else Bad()
  }

  lemma IdsRoundTrip(ids: seq<string>)
    requires Distinct(ids) && "" !in ids
    ensures ParseIds(PrintIds(ids)) == Ok(ids)
  {
    var items := PrintIds(ids).items;
    assert seq(|items|, i requires 0 <= i < |items| => items[i].text) == ids;
  }

  function PrintClamps(clamps: seq<ClampReason>): Json {
    List(seq(|clamps|, i requires 0 <= i < |clamps| => Word(ClampWord(clamps[i]))))
  }

  function ParseClamps(j: Json): Outcome<seq<ClampReason>> {
    if j.List? && forall i :: 0 <= i < |j.items| ==> j.items[i].Word? && j.items[i].word.ClampWord? then
      Ok(seq(|j.items|, i requires 0 <= i < |j.items| => j.items[i].word.clamp))
    else Bad()
  }

  lemma ClampsRoundTrip(clamps: seq<ClampReason>)
    ensures ParseClamps(PrintClamps(clamps)) == Ok(clamps)
  {
    var items := PrintClamps(clamps).items;
    assert seq(|items|, i requires 0 <= i < |items| => items[i].word.clamp) == clamps;
  }

  /** Blockers are printed in one order. */
  function ListBlockers(b: set<BlockerReason>): seq<BlockerReason> {
    (if ActuatorNotProvenOff in b then [ActuatorNotProvenOff] else [])
    + (if ExternalFlow in b then [ExternalFlow] else [])
    + (if IntegrationOffUnconfirmed in b then [IntegrationOffUnconfirmed] else [])
  }

  function PrintBlockers(b: set<BlockerReason>): Json {
    var listed := ListBlockers(b);
    List(seq(|listed|, i requires 0 <= i < |listed| => Word(BlockerWord(listed[i]))))
  }

  function ParseBlockers(j: Json): Outcome<set<BlockerReason>> {
    if && j.List? && (forall i :: 0 <= i < |j.items| ==> j.items[i].Word? && j.items[i].word.BlockerWord?)
       && (forall i, k :: 0 <= i < k < |j.items| ==> j.items[i] != j.items[k])
    then Ok(set i | 0 <= i < |j.items| :: j.items[i].word.blocker)
    else Bad()
  }

  lemma ListsEach(b: set<BlockerReason>, r: BlockerReason)
    ensures r in ListBlockers(b) <==> r in b
  {
    match r
    case ExternalFlow =>
    case IntegrationOffUnconfirmed =>
    case ActuatorNotProvenOff =>
  }

  lemma BlockersRoundTrip(b: set<BlockerReason>)
    ensures ParseBlockers(PrintBlockers(b)) == Ok(b)
  {
    var listed := ListBlockers(b);
    var items := PrintBlockers(b).items;
    assert forall i :: 0 <= i < |items| ==> items[i] == Word(BlockerWord(listed[i]));
    var parsed := set i | 0 <= i < |items| :: items[i].word.blocker;
    forall r
      ensures r in parsed <==> r in b
    {
      ListsEach(b, r);
      if r in b {
        var i :| 0 <= i < |listed| && listed[i] == r;
        assert items[i].word.blocker == r;
      }
    }
    assert parsed == b;
  }

  // ----- sessions ---------------------------------------------------------------------------------------

  /** The live-only fields have no name. */
  function SessionField(p: PersistedSession, n: SessionName): Json {
    var s := p.context;
    match n
    case OwnerRecord => Text(p.owner)
    case SessionId => Text(s.id)
    case OwnerRun => Text(s.ownerRunId)
    case Fingerprint => Text(s.fingerprint)
    case ModeName => Word(ModeWord(s.mode))
    case SessionStart => Instant(s.startedAt)
    case Cycle => Whole(s.cycle)
    case SessionRuntime => Whole(s.runtime)
    case Estimated => Flag(s.estimated)
    case EstimationName => Word(EstimationWord(s.estimation))
    case IntentAt => PrintInstant(s.intentAt)
    case CommandedAt => PrintInstant(s.commandedAt)
    case ConfirmedAt => PrintInstant(s.confirmedAt)
    case EndsAt => PrintInstant(s.endsAt)
    case OffAt => PrintInstant(s.offAt)
    case SoakEnds => PrintInstant(s.soakEnds)
    case RecheckNotBefore => PrintInstant(s.recheckNotBefore)
    case GraceDeadline => PrintInstant(s.graceDeadline)
    case Requested => PrintWhole(s.requested)
    case EffectiveDuration => PrintWhole(s.effective)
    case ClampReasons => PrintClamps(s.clampReasons)
    case RetainedFault => PrintFault(s.retained)
    case MoistureAtStart => PrintNumber(s.moistureAtStart)
  }

  function PrintSession(p: PersistedSession): Json {
    Object(map n: SessionName :: OfSession(n) := SessionField(p, n))
  }

  predicate IsSession(j: Json) {
    j.Object? && (forall k :: k in j.fields ==> k.OfSession?) && forall n: SessionName :: OfSession(n) in j.fields
  }

  /** What the constructors of a persisted session accept. */
  predicate SessionOk(p: PersistedSession) {
    && p.owner != "" && p.context.id != "" && p.context.ownerRunId != "" && p.context.fingerprint != ""
    && p.context.cycle >= 0 && p.context.runtime >= 0
    && (p.context.retained.Some? ==> p.context.retained.value.IsSensorOnly())
  }

  function SessionAt(m: map<Key, Json>, n: SessionName): Json {
    At(m, OfSession(n))
  }

  /** The identity of a session, everything else still at its default. */
  function ParseSessionHead(m: map<Key, Json>): Outcome<Session> {
    var id :- ParseText(SessionAt(m, SessionId));
    var run :- ParseText(SessionAt(m, OwnerRun));
    var fingerprint :- ParseText(SessionAt(m, Fingerprint));
    var mode := SessionAt(m, ModeName);
    var start := SessionAt(m, SessionStart);
    if !(mode.Word? && mode.word.ModeWord?) || !start.Instant? then Bad()
    else
      Ok(Session(id, run, fingerprint, mode.word.mode, start.instant, 0, 0, false, Measured,
                 None, None, None, None, None, 0, None, None, None, None, None, None, [], None, None, None, None))
  }

  function ParseSessionCounts(m: map<Key, Json>, s: Session): Outcome<Session> {
    var cycle :- ParseWhole(SessionAt(m, Cycle), 0);
    var runtime :- ParseWhole(SessionAt(m, SessionRuntime), 0);
    var estimated :- ParseFlag(SessionAt(m, Estimated));
    var estimation := SessionAt(m, EstimationName);
    if !(estimation.Word? && estimation.word.EstimationWord?) then Bad()
    else Ok(s.(cycle := cycle, runtime := runtime, estimated := estimated, estimation := estimation.word.estimation))
  }

  function ParseSessionPulse(m: map<Key, Json>, s: Session): Outcome<Session> {
    var intent :- ParseInstantOrNull(SessionAt(m, IntentAt));
    var commanded :- ParseInstantOrNull(SessionAt(m, CommandedAt));
    var confirmed :- ParseInstantOrNull(SessionAt(m, ConfirmedAt));
    var ends :- ParseInstantOrNull(SessionAt(m, EndsAt));
    var off :- ParseInstantOrNull(SessionAt(m, OffAt));
    Ok(s.(intentAt := intent, commandedAt := commanded, confirmedAt := confirmed, endsAt := ends, offAt := off))
  }

  function ParseSessionSoak(m: map<Key, Json>, s: Session): Outcome<Session> {
    var soak :- ParseInstantOrNull(SessionAt(m, SoakEnds));
    var recheck :- ParseInstantOrNull(SessionAt(m, RecheckNotBefore));
    var grace :- ParseInstantOrNull(SessionAt(m, GraceDeadline));
    Ok(s.(soakEnds := soak, recheckNotBefore := recheck, graceDeadline := grace))
  }

  function ParseSessionManual(m: map<Key, Json>, s: Session): Outcome<Session> {
    var requested :- ParseWholeOrNull(SessionAt(m, Requested));
    var effective :- ParseWholeOrNull(SessionAt(m, EffectiveDuration));
    var clamps :- ParseClamps(SessionAt(m, ClampReasons));
    Ok(s.(requested := requested, effective := effective, clampReasons := clamps))
  }

  function ParseSessionRest(m: map<Key, Json>, s: Session): Outcome<Session> {
    var retained :- ParseFaultOrNull(SessionAt(m, RetainedFault));
    var moisture :- ParseNumberOrNull(SessionAt(m, MoistureAtStart));
    if retained.Some? && !retained.value.IsSensorOnly() then Bad()
    else Ok(s.(retained := retained, moistureAtStart := moisture))
  }

  function ParseSession(j: Json): Outcome<PersistedSession> {
    if !IsSession(j) then Bad()
    else
      var owner :- ParseText(SessionAt(j.fields, OwnerRecord));
      var head :- ParseSessionHead(j.fields);
      var counts :- ParseSessionCounts(j.fields, head);
      var pulse :- ParseSessionPulse(j.fields, counts);
      var soak :- ParseSessionSoak(j.fields, pulse);
      var manual :- ParseSessionManual(j.fields, soak);
      var s :- ParseSessionRest(j.fields, manual);
      Ok(PersistedSession(owner, s))
  }

  function StripSession(p: PersistedSession): PersistedSession {
    PersistedSession(p.owner, Stripped(p.context))
  }

  /** The object holds what the printer writes for the session. */
  ghost predicate HoldsSession(m: map<Key, Json>, p: PersistedSession) {
    forall n: SessionName :: SessionAt(m, n) == SessionField(p, n)
  }

  lemma HeadRoundTrip(m: map<Key, Json>, p: PersistedSession)
    requires HoldsSession(m, p) && SessionOk(p)
    ensures ParseText(SessionAt(m, OwnerRecord)) == Ok(p.owner)
    ensures ParseSessionHead(m)
         == Ok(Session(p.context.id, p.context.ownerRunId, p.context.fingerprint, p.context.mode, p.context.startedAt,
                       0, 0, false, Measured, None, None, None, None, None, 0, None, None, None, None, None, None, [],
                       None, None, None, None))
  {
  }

  lemma CountsRoundTrip(m: map<Key, Json>, p: PersistedSession, s: Session)
    requires HoldsSession(m, p) && SessionOk(p)
    ensures ParseSessionCounts(m, s)
         == Ok(s.(cycle := p.context.cycle, runtime := p.context.runtime, estimated := p.context.estimated,
               estimation := p.context.estimation))
  {
  }

  lemma PulseRoundTrip(m: map<Key, Json>, p: PersistedSession, s: Session)
    requires HoldsSession(m, p)
    ensures ParseSessionPulse(m, s)
         == Ok(s.(intentAt := p.context.intentAt, commandedAt := p.context.commandedAt, confirmedAt := p.context.confirmedAt,
               endsAt := p.context.endsAt, offAt := p.context.offAt))
  {
  }

  lemma SoakRoundTrip(m: map<Key, Json>, p: PersistedSession, s: Session)
    requires HoldsSession(m, p)
    ensures ParseSessionSoak(m, s)
         == Ok(s.(soakEnds := p.context.soakEnds, recheckNotBefore := p.context.recheckNotBefore,
               graceDeadline := p.context.graceDeadline))
  {
  }

  lemma ManualRoundTrip(m: map<Key, Json>, p: PersistedSession, s: Session)
    requires HoldsSession(m, p)
    ensures ParseSessionManual(m, s)
         == Ok(s.(requested := p.context.requested, effective := p.context.effective, clampReasons := p.context.clampReasons))
  {
    ClampsRoundTrip(p.context.clampReasons);
  }

  lemma RestRoundTrip(m: map<Key, Json>, p: PersistedSession, s: Session)
    requires HoldsSession(m, p) && SessionOk(p)
    ensures ParseSessionRest(m, s)
         == Ok(s.(retained := p.context.retained, moistureAtStart := p.context.moistureAtStart))
  {
  }

  /** Parsing a printed session returns it with the live-only fields reset. */
  lemma SessionRoundTrip(p: PersistedSession)
    requires SessionOk(p)
    ensures ParseSession(PrintSession(p)) == Ok(StripSession(p))
  {
    var m := PrintSession(p).fields;
    HeadRoundTrip(m, p);
    var head := ParseSessionHead(m).value;
    CountsRoundTrip(m, p, head);
    var counts := ParseSessionCounts(m, head).value;
    PulseRoundTrip(m, p, counts);
    var pulse := ParseSessionPulse(m, counts).value;
    SoakRoundTrip(m, p, pulse);
    var soak := ParseSessionSoak(m, pulse).value;
    ManualRoundTrip(m, p, soak);
    var manual := ParseSessionManual(m, soak).value;
    RestRoundTrip(m, p, manual);
  }

  /** Printing does not see what stripping resets. */
  lemma PrintsStripped(p: PersistedSession)
    ensures PrintSession(StripSession(p)) == PrintSession(p)
  {
    assert forall n :: SessionField(StripSession(p), n) == SessionField(p, n);
    assert PrintSession(StripSession(p)).fields == PrintSession(p).fields;
  }

  /** What the parser lets through is well formed and has nothing live-only. */
  lemma ParsedSessionOk(j: Json)
    requires ParseSession(j).Ok?
    ensures SessionOk(ParseSession(j).value) && StripSession(ParseSession(j).value) == ParseSession(j).value
  {
  }

  // ----- summaries ------------------------------------------------------------------------------------------

  function SummaryField(s: Summary, n: SummaryName): Json {
    match n
    case ClosedMode => Word(ModeWord(s.mode))
    case ClosedReason => Word(ReasonWord(s.reason))
    case ClosedRuntime => Whole(s.runtime)
    case ClosedEstimated => Flag(s.estimated)
    case ClosedEstimation => Word(EstimationWord(s.estimation))
    case ClosedRequested => PrintWhole(s.requested)
    case ClosedEffective => PrintWhole(s.effective)
    case ClosedClamps => PrintClamps(s.clampReasons)
    case ClosedCycles => Whole(s.cycles)
    case MoistureBefore => PrintNumber(s.moistureBefore)
    case MoistureAfter => PrintNumber(s.moistureAfter)
    case ClosedStart => Instant(s.startedAt)
    case ClosedEnd => Instant(s.endedAt)
  }

  function PrintSummary(s: Summary): Json {
    Object(map n: SummaryName :: OfSummary(n) := SummaryField(s, n))
  }

  predicate IsSummary(j: Json) {
    j.Object? && (forall k :: k in j.fields ==> k.OfSummary?) && forall n: SummaryName :: OfSummary(n) in j.fields
  }

  function SummaryAt(m: map<Key, Json>, n: SummaryName): Json {
    At(m, OfSummary(n))
  }

  predicate SummaryOk(s: Summary) {
    s.runtime >= 0 && s.cycles >= 0
  }

  /** The enumerations and instants of a summary, everything else still at its default. */
  function ParseSummaryHead(m: map<Key, Json>): Outcome<Summary> {
    var mode := SummaryAt(m, ClosedMode);
    var reason := SummaryAt(m, ClosedReason);
    var estimation := SummaryAt(m, ClosedEstimation);
    var start := SummaryAt(m, ClosedStart);
    var end := SummaryAt(m, ClosedEnd);
    if && mode.Word? && mode.word.ModeWord? && reason.Word? && reason.word.ReasonWord?
       && estimation.Word? && estimation.word.EstimationWord? && start.Instant? && end.Instant?
    then Ok(Summary(mode.word.mode, reason.word.reason, 0, false, estimation.word.estimation, None, None, [], 0, None, None,
                    start.instant, end.instant))
    else Bad()
  }

  function ParseSummaryAmounts(m: map<Key, Json>, s: Summary): Outcome<Summary> {
    var runtime :- ParseWhole(SummaryAt(m, ClosedRuntime), 0);
    var estimated :- ParseFlag(SummaryAt(m, ClosedEstimated));
    var cycles :- ParseWhole(SummaryAt(m, ClosedCycles), 0);
    var before :- ParseNumberOrNull(SummaryAt(m, MoistureBefore));
    var after :- ParseNumberOrNull(SummaryAt(m, MoistureAfter));
    Ok(s.(runtime := runtime, estimated := estimated, cycles := cycles, moistureBefore := before, moistureAfter := after))
  }

  function ParseSummaryManual(m: map<Key, Json>, s: Summary): Outcome<Summary> {
    var requested :- ParseWholeOrNull(SummaryAt(m, ClosedRequested));
    var effective :- ParseWholeOrNull(SummaryAt(m, ClosedEffective));
    var clamps :- ParseClamps(SummaryAt(m, ClosedClamps));
    Ok(s.(requested := requested, effective := effective, clampReasons := clamps))
  }

  function ParseSummary(j: Json): Outcome<Summary> {
    if !IsSummary(j) then Bad()
    else
      var head :- ParseSummaryHead(j.fields);
      var amounts :- ParseSummaryAmounts(j.fields, head);
      ParseSummaryManual(j.fields, amounts)
  }

  ghost predicate HoldsSummary(m: map<Key, Json>, s: Summary) {
    forall n: SummaryName :: SummaryAt(m, n) == SummaryField(s, n)
  }

  lemma SummaryHeadRoundTrip(m: map<Key, Json>, s: Summary)
    requires HoldsSummary(m, s)
    ensures ParseSummaryHead(m)
         == Ok(Summary(s.mode, s.reason, 0, false, s.estimation, None, None, [], 0, None, None, s.startedAt, s.endedAt))
  {
  }

  lemma SummaryAmountsRoundTrip(m: map<Key, Json>, s: Summary, r: Summary)
    requires HoldsSummary(m, s) && SummaryOk(s)
    ensures ParseSummaryAmounts(m, r)
         == Ok(r.(runtime := s.runtime, estimated := s.estimated, cycles := s.cycles, moistureBefore := s.moistureBefore,
               moistureAfter := s.moistureAfter))
  {
  }

  lemma SummaryManualRoundTrip(m: map<Key, Json>, s: Summary, r: Summary)
    requires HoldsSummary(m, s)
    ensures ParseSummaryManual(m, r)
         == Ok(r.(requested := s.requested, effective := s.effective, clampReasons := s.clampReasons))
  {
    ClampsRoundTrip(s.clampReasons);
  }

  lemma SummaryRoundTrip(s: Summary)
    requires SummaryOk(s)
    ensures ParseSummary(PrintSummary(s)) == Ok(s)
  {
    var m := PrintSummary(s).fields;
    assert HoldsSummary(m, s);
    SummaryHeadRoundTrip(m, s);
    var head := ParseSummaryHead(m).value;
    SummaryAmountsRoundTrip(m, s, head);
    SummaryManualRoundTrip(m, s, ParseSummaryAmounts(m, head).value);
  }

  lemma ParsedSummaryOk(j: Json)
    requires ParseSummary(j).Ok?
    ensures SummaryOk(ParseSummary(j).value)
  {
  }

  // ----- sensors --------------------------------------------------------------------------------------------

  function PrintSensor(s: SensorIdentity): Json {
    Object(map n: SensorName :: OfSensor(n) :=
                                  match n
                                  case SensorRegistryId => PrintText(s.uuid)
                                  case SensorEntityId => PrintText(s.entity))
  }

  predicate IsSensor(j: Json) {
    j.Object? && (forall k :: k in j.fields ==> k.OfSensor?) && forall n: SensorName :: OfSensor(n) in j.fields
  }

  function ParseSensor(j: Json): Outcome<SensorIdentity> {
    if !IsSensor(j) then Bad()
    else
      var uuid :- ParseTextOrNull(At(j.fields, OfSensor(SensorRegistryId)));
      var entity :- ParseTextOrNull(At(j.fields, OfSensor(SensorEntityId)));
      Ok(SensorIdentity(uuid, entity))
  }

  predicate SensorOk(s: SensorIdentity) {
    s.uuid != Some("") && s.entity != Some("")
  }

  lemma SensorRoundTrip(s: SensorIdentity)
    requires SensorOk(s)
    ensures ParseSensor(PrintSensor(s)) == Ok(s)
  {
  }

  // ----- daily budgets --------------------------------------------------------------------------------------

  function PartField(c: Contribution, n: PartName): Json {
    match n
    case PartId => Whole(c.id)
    case PartSource => Text(c.source)
    case PartStart => if c.interval.Some? then Instant(c.interval.value.0) else Null
    case PartEnd => if c.interval.Some? then Instant(c.interval.value.1) else Null
    case PartRuntime => Number(c.runtime)
    case PartEstimated => Flag(c.estimated)
    case PartDate => if c.date.Some? then Date(c.date.value) else Null
  }

  function PrintPart(c: Contribution): Json {
    Object(map n: PartName :: OfPart(n) := PartField(c, n))
  }

  predicate IsPart(j: Json) {
    j.Object? && (forall k :: k in j.fields ==> k.OfPart?) && forall n: PartName :: OfPart(n) in j.fields
  }

  predicate PartOk(c: Contribution) {
    c.source != "" && c.Valid()
  }

  function ParseDateOrNull(j: Json): Outcome<Option<int>> {
    if j.Null? then Ok(None) else if j.Date? then Ok(Some(j.date)) else Bad()
  }

  /** Both ends of the interval are known, or neither. */
  function ParseInterval(m: map<Key, Json>): Outcome<Option<(Time, Time)>> {
    var start :- ParseInstantOrNull(At(m, OfPart(PartStart)));
    var end :- ParseInstantOrNull(At(m, OfPart(PartEnd)));
    if start.None? && end.None? then Ok(None)
    else if start.Some? && end.Some? && start.value <= end.value then Ok(Some((start.value, end.value)))
    else Bad()
  }

  function ParsePart(j: Json): Outcome<Contribution> {
    if !IsPart(j) || !At(j.fields, OfPart(PartId)).Whole? then Bad()
    else
      var source :- ParseText(At(j.fields, OfPart(PartSource)));
      var interval :- ParseInterval(j.fields);
      var runtime :- ParseNumber(At(j.fields, OfPart(PartRuntime)));
      var estimated :- ParseFlag(At(j.fields, OfPart(PartEstimated)));
      var date :- ParseDateOrNull(At(j.fields, OfPart(PartDate)));
      Ok(Contribution(At(j.fields, OfPart(PartId)).whole, source, interval, runtime, estimated, date))
  }

  lemma PartRoundTrip(c: Contribution)
    requires PartOk(c)
    ensures ParsePart(PrintPart(c)) == Ok(c)
  {
  }

  function ParseParts(items: seq<Json>): Outcome<seq<Contribution>> {
    if items == [] then Ok([])
    else
      var first :- ParsePart(items[0]);
      var rest :- ParseParts(items[1..]);
      Ok([first] + rest)
  }

  function PrintParts(parts: seq<Contribution>): seq<Json> {
    if parts == [] then [] else [PrintPart(parts[0])] + PrintParts(parts[1..])
  }

  lemma {:induction false} PartsRoundTrip(parts: seq<Contribution>)
    requires forall c :: c in parts ==> PartOk(c)
    ensures ParseParts(PrintParts(parts)) == Ok(parts)
  {
    if parts != [] {
      PartRoundTrip(parts[0]);
      PartsRoundTrip(parts[1..]);
      assert PrintParts(parts)[0] == PrintPart(parts[0]) && PrintParts(parts)[1..] == PrintParts(parts[1..]);
      assert parts == [parts[0]] + parts[1..];
    }
  }

  lemma {:induction false} ParsedPartsOk(items: seq<Json>)
    requires ParseParts(items).Ok?
    ensures forall c :: c in ParseParts(items).value ==> PartOk(c)
  {
    if items != [] {
      ParsedPartsOk(items[1..]);
    }
  }

  function DailyField(b: DayBudget, n: DailyName): Json {
    match n
    case DateLocal => Date(b.date)
    case RuntimeTotal => Number(b.runtime)
    case Unattributed => Number(b.unattributed)
    case Contributions => List(PrintParts(b.contributions))
  }

  function PrintDaily(o: Option<DayBudget>): Json {
    if o.None? then Null else Object(map n: DailyName :: OfDaily(n) := DailyField(o.value, n))
  }

  predicate IsDaily(j: Json) {
    j.Object? && (forall k :: k in j.fields ==> k.OfDaily?) && forall n: DailyName :: OfDaily(n) in j.fields
  }

  predicate DailyOk(o: Option<DayBudget>) {
    o.Some? ==> o.value.Valid() && forall c :: c in o.value.contributions ==> PartOk(c)
  }

  function ParseDaily(j: Json): Outcome<Option<DayBudget>> {
    if j.Null? then Ok(None)
    else if !IsDaily(j) || !At(j.fields, OfDaily(DateLocal)).Date? || !At(j.fields, OfDaily(Contributions)).List? then Bad()
    else
      var runtime :- ParseNumber(At(j.fields, OfDaily(RuntimeTotal)));
      var unattributed :- ParseNumber(At(j.fields, OfDaily(Unattributed)));
      var parts :- ParseParts(At(j.fields, OfDaily(Contributions)).items);
      var b := DayBudget(At(j.fields, OfDaily(DateLocal)).date, runtime, unattributed, parts);
      if b.Valid() then Ok(Some(b)) else Bad()
  }

  lemma DailyRoundTrip(o: Option<DayBudget>)
    requires DailyOk(o)
    ensures ParseDaily(PrintDaily(o)) == Ok(o)
  {
    if o.Some? {
      PartsRoundTrip(o.value.contributions);
    }
  }

  lemma ParsedDailyOk(j: Json)
    requires ParseDaily(j).Ok?
    ensures DailyOk(ParseDaily(j).value)
  {
    if !j.Null? {
      ParsedPartsOk(At(j.fields, OfDaily(Contributions)).items);
    }
  }

  // ----- histories ---------------------------------------------------------------------------------------------

  function RuntimeField(o: Operation, n: RuntimeName): Json {
    match n
    case Enabled => Flag(o.enabled)
    case StateName => Word(StateWord(o.state))
    case ZoneFault => PrintFault(o.zoneFault)
    case SecondaryFault => PrintFault(o.secondFault)
    case Sensor => PrintSensor(o.sensor)
    case LastSummary => if o.summary.Some? then PrintSummary(o.summary.value) else Null
    case OpenSession => if o.session.Some? then PrintSession(o.session.value) else Null
  }

  function PrintRuntime(o: Operation): Json {
    Object(map n: RuntimeName :: OfRuntime(n) := RuntimeField(o, n))
  }

  predicate IsRuntime(j: Json) {
    j.Object? && (forall k :: k in j.fields ==> k.OfRuntime?) && forall n: RuntimeName :: OfRuntime(n) in j.fields
  }

  function ParseSessionOrNull(j: Json): Outcome<Option<PersistedSession>> {
    if j.Null? then Ok(None)
    else
      var s :- ParseSession(j);
      Ok(Some(s))
  }

  predicate ZoneFaultsOk(first: Option<FaultCode>, second: Option<FaultCode>) {
    && (first.Some? ==> !ActuatorScoped(first.value)) && (second.Some? ==> !ActuatorScoped(second.value))
    && (first.Some? ==> first != second)
  }

  function ParseSummaryOrNull(j: Json): Outcome<Option<Summary>> {
    if j.Null? then Ok(None)
    else
      var s :- ParseSummary(j);
      Ok(Some(s))
  }

  /** The switch, state and faults of a history, under its owners; nothing else yet. */
  function ParseRuntimeHead(m: map<Key, Json>, active: Option<string>, previous: seq<string>): Outcome<Operation> {
    var state := At(m, OfRuntime(StateName));
    var enabled :- ParseFlag(At(m, OfRuntime(Enabled)));
    var first :- ParseFaultOrNull(At(m, OfRuntime(ZoneFault)));
    var second :- ParseFaultOrNull(At(m, OfRuntime(SecondaryFault)));
    if state.Word? && state.word.StateWord? && ZoneFaultsOk(first, second) then
      Ok(Operation(active, previous, enabled, state.word.state, first, second, SensorIdentity(None, None), None, None))
    else Bad()
  }

  /** The operational part of a history, under its owners. */
  function ParseRuntime(j: Json, active: Option<string>, previous: seq<string>): Outcome<Operation> {
    if !IsRuntime(j) then Bad()
    else
      var head :- ParseRuntimeHead(j.fields, active, previous);
      var sensor :- ParseSensor(At(j.fields, OfRuntime(Sensor)));
      var summary :- ParseSummaryOrNull(At(j.fields, OfRuntime(LastSummary)));
      var session :- ParseSessionOrNull(At(j.fields, OfRuntime(OpenSession)));
      Ok(head.(sensor := sensor, summary := summary, session := session))
  }

  predicate OperationOk(o: Operation) {
    && ZoneFaultsOk(o.zoneFault, o.secondFault) && SensorOk(o.sensor)
    && (o.summary.Some? ==> SummaryOk(o.summary.value))
    && (o.session.Some? ==> SessionOk(o.session.value))
  }

  function StripOperation(o: Operation): Operation {
    o.(session := if o.session.Some? then Some(StripSession(o.session.value)) else None)
  }

  lemma SessionOrNullRoundTrip(o: Option<PersistedSession>)
    requires o.Some? ==> SessionOk(o.value)
    ensures ParseSessionOrNull(if o.Some? then PrintSession(o.value) else Null)
         == Ok(if o.Some? then Some(StripSession(o.value)) else None)
  {
    if o.Some? {
      SessionRoundTrip(o.value);
    }
  }

  lemma SummaryOrNullRoundTrip(o: Option<Summary>)
    requires o.Some? ==> SummaryOk(o.value)
    ensures ParseSummaryOrNull(if o.Some? then PrintSummary(o.value) else Null) == Ok(o)
  {
    if o.Some? {
      SummaryRoundTrip(o.value);
    }
  }

  ghost predicate HoldsRuntime(m: map<Key, Json>, o: Operation) {
    forall n: RuntimeName :: At(m, OfRuntime(n)) == RuntimeField(o, n)
  }

  lemma RuntimeHeadRoundTrip(m: map<Key, Json>, o: Operation)
    requires HoldsRuntime(m, o) && ZoneFaultsOk(o.zoneFault, o.secondFault)
    ensures ParseRuntimeHead(m, o.active, o.previous)
         == Ok(o.(sensor := SensorIdentity(None, None), summary := None, session := None))
  {
  }

  /** An operational part comes back if its parts do. */
  lemma RuntimeAssembles(j: Json, o: Operation, sensor: Json, summary: Json, session: Json)
    requires IsRuntime(j)
    requires ParseRuntimeHead(j.fields, o.active, o.previous)
          == Ok(o.(sensor := SensorIdentity(None, None), summary := None, session := None))
    requires At(j.fields, OfRuntime(Sensor)) == sensor && ParseSensor(sensor) == Ok(o.sensor)
    requires At(j.fields, OfRuntime(LastSummary)) == summary && ParseSummaryOrNull(summary) == Ok(o.summary)
    requires At(j.fields, OfRuntime(OpenSession)) == session && ParseSessionOrNull(session) == Ok(StripOperation(o).session)
    ensures ParseRuntime(j, o.active, o.previous) == Ok(StripOperation(o))
  {
  }

  lemma RuntimeRoundTrip(o: Operation)
    requires OperationOk(o)
    ensures ParseRuntime(PrintRuntime(o), o.active, o.previous) == Ok(StripOperation(o))
  {
    var j := PrintRuntime(o);
    assert HoldsRuntime(j.fields, o);
    RuntimeHeadRoundTrip(j.fields, o);
    SensorRoundTrip(o.sensor);
    SummaryOrNullRoundTrip(o.summary);
    SessionOrNullRoundTrip(o.session);
    RuntimeAssembles(j, o, RuntimeField(o, Sensor), RuntimeField(o, LastSummary), RuntimeField(o, OpenSession));
  }

  lemma ParsedRuntimeOk(j: Json, active: Option<string>, previous: seq<string>)
    requires ParseRuntime(j, active, previous).Ok?
    ensures OperationOk(ParseRuntime(j, active, previous).value)
    ensures StripOperation(ParseRuntime(j, active, previous).value) == ParseRuntime(j, active, previous).value
  {
    var session := At(j.fields, OfRuntime(OpenSession));
    if !session.Null? {
      ParsedSessionOk(session);
    }
    var summary := At(j.fields, OfRuntime(LastSummary));
    if !summary.Null? {
      ParsedSummaryOk(summary);
    }
  }

  function HistoryField(h: ZoneHistory, n: HistoryName): Json {
    match n
    case HistoryOwner => PrintText(h.operation.active)
    case FormerOwners => PrintIds(h.operation.previous)
    case LastSessionEnd => PrintInstant(h.lastEnd)
    case LastAutoStart => PrintInstant(h.lastAutoStart)
    case ZoneRuntime => PrintRuntime(h.operation)
    case DailyBudget => PrintDaily(h.daily)
  }

  function PrintHistory(h: ZoneHistory): Json {
    Object(map n: HistoryName :: OfHistory(n) := HistoryField(h, n))
  }

  predicate IsHistory(j: Json) {
    j.Object? && (forall k :: k in j.fields ==> k.OfHistory?) && forall n: HistoryName :: OfHistory(n) in j.fields
  }

  /** The owners and interval anchors of a history. */
  function ParseHistoryHead(m: map<Key, Json>): Outcome<(Option<string>, seq<string>, Option<Time>, Option<Time>)> {
    var active :- ParseTextOrNull(At(m, OfHistory(HistoryOwner)));
    var previous :- ParseIds(At(m, OfHistory(FormerOwners)));
    var lastEnd :- ParseInstantOrNull(At(m, OfHistory(LastSessionEnd)));
    var lastAutoStart :- ParseInstantOrNull(At(m, OfHistory(LastAutoStart)));
    Ok((active, previous, lastEnd, lastAutoStart))
  }

  function ParseHistory(id: string, j: Json): Outcome<ZoneHistory> {
    if !IsHistory(j) || id == "" then Bad()
    else
      var head :- ParseHistoryHead(j.fields);
      var operation :- ParseRuntime(At(j.fields, OfHistory(ZoneRuntime)), head.0, head.1);
      var daily :- ParseDaily(At(j.fields, OfHistory(DailyBudget)));
      if ProperIds(head.0, head.1) then Ok(History(id, head.2, head.3, daily, operation)) else Bad()
  }

  predicate HistoryOk(h: ZoneHistory) {
    h.id != "" && ProperIds(h.operation.active, h.operation.previous) && OperationOk(h.operation) && DailyOk(h.daily)
  }

  function StripHistory(h: ZoneHistory): ZoneHistory {
    h.(operation := StripOperation(h.operation))
  }

  ghost predicate HoldsHistory(m: map<Key, Json>, h: ZoneHistory) {
    forall n: HistoryName :: At(m, OfHistory(n)) == HistoryField(h, n)
  }

  lemma HistoryHeadRoundTrip(m: map<Key, Json>, h: ZoneHistory)
    requires HoldsHistory(m, h) && ProperIds(h.operation.active, h.operation.previous)
    ensures ParseHistoryHead(m) == Ok((h.operation.active, h.operation.previous, h.lastEnd, h.lastAutoStart))
  {
    IdsRoundTrip(h.operation.previous);
  }

  /** A history comes back if its parts do. */
  lemma HistoryAssembles(j: Json, h: ZoneHistory, runtime: Json, daily: Json)
    requires HistoryOk(h) && IsHistory(j)
    requires ParseHistoryHead(j.fields) == Ok((h.operation.active, h.operation.previous, h.lastEnd, h.lastAutoStart))
    requires At(j.fields, OfHistory(ZoneRuntime)) == runtime && At(j.fields, OfHistory(DailyBudget)) == daily
    requires ParseRuntime(runtime, h.operation.active, h.operation.previous) == Ok(StripOperation(h.operation))
    requires ParseDaily(daily) == Ok(h.daily)
    ensures ParseHistory(h.id, j) == Ok(StripHistory(h))
  {
  }

  lemma HistoryRoundTrip(h: ZoneHistory)
    requires HistoryOk(h)
    ensures ParseHistory(h.id, PrintHistory(h)) == Ok(StripHistory(h))
  {
    var m := PrintHistory(h).fields;
    assert HoldsHistory(m, h);
    HistoryHeadRoundTrip(m, h);
    RuntimeRoundTrip(h.operation);
    DailyRoundTrip(h.daily);
    HistoryAssembles(PrintHistory(h), h, PrintRuntime(h.operation), PrintDaily(h.daily));
  }

  lemma ParsedHistoryOk(id: string, j: Json)
    requires ParseHistory(id, j).Ok?
    ensures HistoryOk(ParseHistory(id, j).value) && StripHistory(ParseHistory(id, j).value) == ParseHistory(id, j).value
    ensures ParseHistory(id, j).value.id == id
  {
    var head := ParseHistoryHead(j.fields).value;
    ParsedRuntimeOk(At(j.fields, OfHistory(ZoneRuntime)), head.0, head.1);
    ParsedDailyOk(At(j.fields, OfHistory(DailyBudget)));
  }

  lemma PrintsStrippedHistory(h: ZoneHistory)
    ensures PrintHistory(StripHistory(h)) == PrintHistory(h)
  {
    var o := h.operation;
    if o.session.Some? {
      PrintsStripped(o.session.value);
    }
    assert PrintRuntime(StripOperation(o)).fields == PrintRuntime(o).fields;
    assert PrintHistory(StripHistory(h)).fields == PrintHistory(h).fields;
  }

  // ----- records --------------------------------------------------------------------------------------------------

  function PrintDomain(o: Option<Domain>): Json {
    if o.Some? then Word(DomainWord(o.value)) else Null
  }

  function ParseDomainOrNull(j: Json): Outcome<Option<Domain>> {
    if j.Null? then Ok(None) else if j.Word? && j.word.DomainWord? then Ok(Some(j.word.domain)) else Bad()
  }

  function PrintService(o: Option<OffService>): Json {
    if o.Some? then Word(ServiceWord(o.value)) else Null
  }

  function ParseServiceOrNull(j: Json): Outcome<Option<OffService>> {
    if j.Null? then Ok(None) else if j.Word? && j.word.ServiceWord? then Ok(Some(j.word.service)) else Bad()
  }

  function IdentityField(i: ActuatorIdentity, n: IdentityName): Json {
    match n
    case RegistryId => PrintText(i.uuid)
    case EntityId => PrintText(i.entity)
    case DomainName => PrintDomain(i.domain)
    case StatusName => Word(StatusWord(i.status))
    case OffServiceName => PrintService(i.offService)
    case ConfirmTimeout => PrintWhole(i.confirmTimeout)
  }

  function PrintIdentity(i: ActuatorIdentity): Json {
    Object(map n: IdentityName :: OfIdentity(n) := IdentityField(i, n))
  }

  predicate IsIdentity(j: Json) {
    j.Object? && (forall k :: k in j.fields ==> k.OfIdentity?) && forall n: IdentityName :: OfIdentity(n) in j.fields
  }

  function ParseIdentity(j: Json): Outcome<ActuatorIdentity> {
    if !IsIdentity(j) then Bad()
    else
      var uuid :- ParseTextOrNull(At(j.fields, OfIdentity(RegistryId)));
      var entity :- ParseTextOrNull(At(j.fields, OfIdentity(EntityId)));
      var domain :- ParseDomainOrNull(At(j.fields, OfIdentity(DomainName)));
      var service :- ParseServiceOrNull(At(j.fields, OfIdentity(OffServiceName)));
      var timeout :- ParseWholeOrNull(At(j.fields, OfIdentity(ConfirmTimeout)));
      var status := At(j.fields, OfIdentity(StatusName));
      if !(status.Word? && status.word.StatusWord?) then Bad()
      else
        var i := ActuatorIdentity(uuid, entity, domain, status.word.status, service, timeout);
        if i.Constructible() then Ok(i) else Bad()
  }

  lemma IdentityRoundTrip(i: ActuatorIdentity)
    requires i.Constructible()
    ensures ParseIdentity(PrintIdentity(i)) == Ok(i)
  {
    var m := PrintIdentity(i).fields;
    assert forall n: IdentityName :: At(m, OfIdentity(n)) == IdentityField(i, n);
  }

  // ----- the applied configuration -----------------------------------------------------------------------------

  function AppliedField(a: AppliedIdentity, n: AppliedName): Json {
    match n
    case AppliedRegistryId => PrintText(a.uuid)
    case AppliedEntityId => Text(a.entity)
    case AppliedDomain => Word(DomainWord(a.domain))
  }

  function PrintApplied(a: AppliedIdentity): Json {
    Object(map n: AppliedName :: OfApplied(n) := AppliedField(a, n))
  }

  predicate IsApplied(j: Json) {
    j.Object? && (forall k :: k in j.fields ==> k.OfApplied?) && forall n: AppliedName :: OfApplied(n) in j.fields
  }

  function ParseApplied(j: Json): Outcome<AppliedIdentity> {
    if !IsApplied(j) then Bad()
    else
      var uuid :- ParseTextOrNull(At(j.fields, OfApplied(AppliedRegistryId)));
      var entity :- ParseText(At(j.fields, OfApplied(AppliedEntityId)));
      var domain := At(j.fields, OfApplied(AppliedDomain));
      if domain.Word? && domain.word.DomainWord? then Ok(AppliedIdentity(uuid, entity, domain.word.domain)) else Bad()
  }

  predicate AppliedOk(a: AppliedIdentity) {
    a.uuid != Some("") && a.entity != ""
  }

  lemma AppliedRoundTrip(a: AppliedIdentity)
    requires AppliedOk(a)
    ensures ParseApplied(PrintApplied(a)) == Ok(a)
  {
  }

  function SettingField(name: string, c: Config, n: SettingName): Json {
    match n
    case ZoneName => Text(name)
    case StartThreshold => Number(c.startThreshold)
    case TargetThreshold => Number(c.targetThreshold)
    case PulseDuration => Whole(c.pulse)
    case SoakDuration => Whole(c.soak)
    case MaxCyclesSetting => Whole(c.maxCycles)
    case MaxSession => Whole(c.maxSession)
    case MaxDaily => Whole(c.maxDaily)
    case MinInterval => Whole(c.minInterval)
    case SensorMaxAge => Whole(c.maxAge)
    case ConfirmTimeoutSetting => Whole(c.confirmTimeout)
    case ManualMax => Whole(c.manualMax)
  }

  function PrintSettings(name: string, c: Config): Json {
    Object(map n: SettingName :: OfSetting(n) := SettingField(name, c, n))
  }

  predicate IsSettings(j: Json) {
    j.Object? && (forall k :: k in j.fields ==> k.OfSetting?) && forall n: SettingName :: OfSetting(n) in j.fields
  }

  function SettingAt(m: map<Key, Json>, n: SettingName): Json {
    At(m, OfSetting(n))
  }

  /** Settings are validated as a zone configuration. */
  predicate SettingsOk(name: string, c: Config) {
    name != "" && c.Sound() && 0.0 <= c.startThreshold
  }

  /** The thresholds and the pulse, everything else still at nothing. */
  function ParsePulseSettings(m: map<Key, Json>): Outcome<Config> {
    var start :- ParseNumber(SettingAt(m, StartThreshold));
    var target :- ParseNumber(SettingAt(m, TargetThreshold));
    var pulse :- ParseWhole(SettingAt(m, PulseDuration), 0);
    var soak :- ParseWhole(SettingAt(m, SoakDuration), 0);
    var cycles :- ParseWhole(SettingAt(m, MaxCyclesSetting), 0);
    Ok(Config(start, target, pulse, soak, cycles, 0, 0, 0, 0, 0, 0))
  }

  function ParseLimitSettings(m: map<Key, Json>, c: Config): Outcome<Config> {
    var session :- ParseWhole(SettingAt(m, MaxSession), 0);
    var daily :- ParseWhole(SettingAt(m, MaxDaily), 0);
    var interval :- ParseWhole(SettingAt(m, MinInterval), 0);
    var age :- ParseWhole(SettingAt(m, SensorMaxAge), 0);
    var confirm :- ParseWhole(SettingAt(m, ConfirmTimeoutSetting), 0);
    var manual :- ParseWhole(SettingAt(m, ManualMax), 0);
    Ok(c.(maxSession := session, maxDaily := daily, minInterval := interval, maxAge := age, confirmTimeout := confirm,
       manualMax := manual))
  }

  function ParseSettings(j: Json): Outcome<(string, Config)> {
    if !IsSettings(j) then Bad()
    else
      var name :- ParseText(SettingAt(j.fields, ZoneName));
      var pulse :- ParsePulseSettings(j.fields);
      var c :- ParseLimitSettings(j.fields, pulse);
      if SettingsOk(name, c) then Ok((name, c)) else Bad()
  }

  ghost predicate HoldsSettings(m: map<Key, Json>, name: string, c: Config) {
    forall n: SettingName :: SettingAt(m, n) == SettingField(name, c, n)
  }

  lemma PulseSettingsRoundTrip(m: map<Key, Json>, name: string, c: Config)
    requires HoldsSettings(m, name, c) && SettingsOk(name, c)
    ensures ParsePulseSettings(m)
         == Ok(Config(c.startThreshold, c.targetThreshold, c.pulse, c.soak, c.maxCycles, 0, 0, 0, 0, 0, 0))
  {
  }

  lemma LimitSettingsRoundTrip(m: map<Key, Json>, name: string, c: Config, r: Config)
    requires HoldsSettings(m, name, c) && SettingsOk(name, c)
    ensures ParseLimitSettings(m, r)
         == Ok(r.(maxSession := c.maxSession, maxDaily := c.maxDaily, minInterval := c.minInterval, maxAge := c.maxAge,
               confirmTimeout := c.confirmTimeout, manualMax := c.manualMax))
  {
  }

  lemma SettingsRoundTrip(name: string, c: Config)
    requires SettingsOk(name, c)
    ensures ParseSettings(PrintSettings(name, c)) == Ok((name, c))
  {
    var m := PrintSettings(name, c).fields;
    assert HoldsSettings(m, name, c);
    PulseSettingsRoundTrip(m, name, c);
    LimitSettingsRoundTrip(m, name, c, ParsePulseSettings(m).value);
  }

  function ShadowField(s: Shadow, n: ShadowName): Json {
    match n
    case SubentryId => Text(s.subentry)
    case ConfigFingerprint => Text(s.fingerprint)
    case EntryFingerprint => Text(s.entryFingerprint)
    case AppliedGeneration => Whole(s.generation)
    case Settings => PrintSettings(s.name, s.settings)
    case AppliedSensor => PrintApplied(s.sensor)
    case AppliedActuator => PrintApplied(s.actuator)
  }

  function PrintShadow(o: Option<Shadow>): Json {
    if o.None? then Null else Object(map n: ShadowName :: OfShadow(n) := ShadowField(o.value, n))
  }

  predicate IsShadow(j: Json) {
    j.Object? && (forall k :: k in j.fields ==> k.OfShadow?) && forall n: ShadowName :: OfShadow(n) in j.fields
  }

  /** What the constructor of an applied configuration accepts. */
  predicate ShadowOk(s: Shadow) {
    && s.subentry != "" && s.fingerprint != "" && s.entryFingerprint != "" && s.generation >= 0
    && SettingsOk(s.name, s.settings)
    && AppliedOk(s.sensor) && s.sensor.domain.SensorDomain?
    && AppliedOk(s.actuator) && !s.actuator.domain.SensorDomain?
  }

  /** The settings and identities of an applied configuration. */
  function ParseShadowParts(m: map<Key, Json>): Outcome<((string, Config), AppliedIdentity, AppliedIdentity)> {
    var settings :- ParseSettings(At(m, OfShadow(Settings)));
    var sensor :- ParseApplied(At(m, OfShadow(AppliedSensor)));
    var actuator :- ParseApplied(At(m, OfShadow(AppliedActuator)));
    Ok((settings, sensor, actuator))
  }

  function ParseShadowBody(m: map<Key, Json>): Outcome<Shadow> {
    var subentry :- ParseText(At(m, OfShadow(SubentryId)));
    var fingerprint :- ParseText(At(m, OfShadow(ConfigFingerprint)));
    var entry :- ParseText(At(m, OfShadow(EntryFingerprint)));
    var generation :- ParseWhole(At(m, OfShadow(AppliedGeneration)), 0);
    var parts :- ParseShadowParts(m);
    Ok(Shadow(subentry, fingerprint, entry, generation, parts.0.0, parts.0.1, parts.1, parts.2))
  }

  function ParseShadow(j: Json): Outcome<Option<Shadow>> {
    if j.Null? then Ok(None)
    else if !IsShadow(j) then Bad()
    else
      var s :- ParseShadowBody(j.fields);
      if ShadowOk(s) then Ok(Some(s)) else Bad()
  }

  ghost predicate HoldsShadow(m: map<Key, Json>, s: Shadow) {
    forall n: ShadowName :: At(m, OfShadow(n)) == ShadowField(s, n)
  }

  lemma ShadowPartsRoundTrip(m: map<Key, Json>, s: Shadow)
    requires HoldsShadow(m, s) && ShadowOk(s)
    ensures ParseShadowParts(m) == Ok(((s.name, s.settings), s.sensor, s.actuator))
  {
    SettingsRoundTrip(s.name, s.settings);
    AppliedRoundTrip(s.sensor);
    AppliedRoundTrip(s.actuator);
  }

  lemma ShadowBodyRoundTrip(m: map<Key, Json>, s: Shadow)
    requires HoldsShadow(m, s) && ShadowOk(s)
    ensures ParseShadowBody(m) == Ok(s)
  {
    ShadowPartsRoundTrip(m, s);
  }

  lemma ShadowRoundTrip(o: Option<Shadow>)
    requires o.Some? ==> ShadowOk(o.value)
    ensures ParseShadow(PrintShadow(o)) == Ok(o)
  {
    if o.Some? {
      var m := PrintShadow(o).fields;
      assert HoldsShadow(m, o.value);
      ShadowBodyRoundTrip(m, o.value);
    }
  }

  // ----- incidents and acknowledgements ----------------------------------------------------------------------

  function IncidentField(i: Incident, n: IncidentName): Json {
    match n
    case KindName => Word(IncidentWord(i.kind))
    case Detail => Text(i.detail)
  }

  function PrintIncident(o: Option<Incident>): Json {
    if o.None? then Null else Object(map n: IncidentName :: OfIncident(n) := IncidentField(o.value, n))
  }

  predicate IsIncident(j: Json) {
    j.Object? && (forall k :: k in j.fields ==> k.OfIncident?) && forall n: IncidentName :: OfIncident(n) in j.fields
  }

  function ParseIncident(j: Json): Outcome<Option<Incident>> {
    if j.Null? then Ok(None)
    else if !IsIncident(j) then Bad()
    else
      var detail :- ParseText(At(j.fields, OfIncident(Detail)));
      var kind := At(j.fields, OfIncident(KindName));
      if kind.Word? && kind.word.IncidentWord? then Ok(Some(Incident(kind.word.incident, detail))) else Bad()
  }

  lemma IncidentRoundTrip(o: Option<Incident>)
    requires o.Some? ==> o.value.detail != ""
    ensures ParseIncident(PrintIncident(o)) == Ok(o)
  {
  }

  function AckField(a: RemovedAck, n: AckName): Json {
    match n
    case AcknowledgedAt => Instant(a.at)
    case AckRegistryId => Text(a.uuid)
    case AckEntityId => PrintText(a.entity)
  }

  function PrintAck(o: Option<RemovedAck>): Json {
    if o.None? then Null else Object(map n: AckName :: OfAck(n) := AckField(o.value, n))
  }

  predicate IsAck(j: Json) {
    j.Object? && (forall k :: k in j.fields ==> k.OfAck?) && forall n: AckName :: OfAck(n) in j.fields
  }

  function ParseAck(j: Json): Outcome<Option<RemovedAck>> {
    if j.Null? then Ok(None)
    else if !IsAck(j) || !At(j.fields, OfAck(AcknowledgedAt)).Instant? then Bad()
    else
      var uuid :- ParseText(At(j.fields, OfAck(AckRegistryId)));
      var entity :- ParseTextOrNull(At(j.fields, OfAck(AckEntityId)));
      Ok(Some(RemovedAck(At(j.fields, OfAck(AcknowledgedAt)).instant, uuid, entity)))
  }

  predicate AckOk(o: Option<RemovedAck>) {
    o.Some? ==> o.value.uuid != "" && o.value.entity != Some("")
  }

  lemma AckRoundTrip(o: Option<RemovedAck>)
    requires AckOk(o)
    ensures ParseAck(PrintAck(o)) == Ok(o)
  {
  }

  function RecordField(r: Record, n: RecordName): Json {
    match n
    case ZoneId => Text(r.zone)
    case ActiveSubentry => PrintText(r.active)
    case PreviousSubentries => PrintIds(r.previous)
    case Lineage => Text(r.lineage)
    case HistoryId => Text(r.history)
    case PastHistories => PrintIds(r.pastHistories)
    case LifecycleName => Word(LifecycleWord(r.lifecycle))
    case AppliedConfig => PrintShadow(r.shadow)
    case IdentityOf => PrintIdentity(r.identity)
    case BlockerReasons => PrintBlockers(r.blockers)
    case PossibleFlow => if r.flow.Some? then Word(FlowWord(r.flow.value)) else Null
    case IdentityIncident => PrintIncident(r.incident)
    case ActuatorFaultName => PrintFault(r.fault)
    case AckRequired => Flag(r.ackRequired)
    case RemovedAckField => PrintAck(r.removedAck)
  }

  function PrintRecord(r: Record): Json {
    Object(map n: RecordName :: OfRecord(n) := RecordField(r, n))
  }

  predicate IsRecord(j: Json) {
    j.Object? && (forall k :: k in j.fields ==> k.OfRecord?) && forall n: RecordName :: OfRecord(n) in j.fields
  }

  function RecordAt(m: map<Key, Json>, n: RecordName): Json {
    At(m, OfRecord(n))
  }

  function ParseFlowOrNull(j: Json): Outcome<Option<FlowOwner>> {
    if j.Null? then Ok(None) else if j.Word? && j.word.FlowWord? then Ok(Some(j.word.flow)) else Bad()
  }

  /** The owners and references of a record, everything else still at its default. */
  function ParseRecordHead(id: string, m: map<Key, Json>): Outcome<Record> {
    var zone :- ParseText(RecordAt(m, ZoneId));
    var active :- ParseTextOrNull(RecordAt(m, ActiveSubentry));
    var previous :- ParseIds(RecordAt(m, PreviousSubentries));
    var lineage :- ParseText(RecordAt(m, Lineage));
    var history :- ParseText(RecordAt(m, HistoryId));
    var past :- ParseIds(RecordAt(m, PastHistories));
    Ok(Record(id, zone, active, previous, lineage, history, past, DeletePending, None,
              UNKNOWN_ACTUATOR, {}, None, None, None, false, None))
  }

  function ParseRecordConfig(m: map<Key, Json>, r: Record): Outcome<Record> {
    var shadow :- ParseShadow(RecordAt(m, AppliedConfig));
    var identity :- ParseIdentity(RecordAt(m, IdentityOf));
    var lifecycle := RecordAt(m, LifecycleName);
    if !(lifecycle.Word? && lifecycle.word.LifecycleWord?) then Bad()
    else Ok(r.(lifecycle := lifecycle.word.lifecycle, shadow := shadow, identity := identity))
  }

  function ParseRecordHazards(m: map<Key, Json>, r: Record): Outcome<Record> {
    var blockers :- ParseBlockers(RecordAt(m, BlockerReasons));
    var flow :- ParseFlowOrNull(RecordAt(m, PossibleFlow));
    var fault :- ParseFaultOrNull(RecordAt(m, ActuatorFaultName));
    var ack :- ParseFlag(RecordAt(m, AckRequired));
    Ok(r.(blockers := blockers, flow := flow, fault := fault, ackRequired := ack))
  }

  function ParseRecordNotes(m: map<Key, Json>, r: Record): Outcome<Record> {
    var incident :- ParseIncident(RecordAt(m, IdentityIncident));
    var removed :- ParseAck(RecordAt(m, RemovedAckField));
    Ok(r.(incident := incident, removedAck := removed))
  }

  function ParseRecord(id: string, j: Json): Outcome<Record> {
    if !IsRecord(j) then Bad()
    else
      var head :- ParseRecordHead(id, j.fields);
      var config :- ParseRecordConfig(j.fields, head);
      var hazards :- ParseRecordHazards(j.fields, config);
      var r :- ParseRecordNotes(j.fields, hazards);
      if r.Constructible() then Ok(r) else Bad()
  }

  /** A record whose parts can all be constructed. */
  predicate RecordOk(r: Record) {
    && r.Constructible() && r.identity.Constructible() && (r.shadow.Some? ==> ShadowOk(r.shadow.value))
    && (r.incident.Some? ==> r.incident.value.detail != "") && AckOk(r.removedAck)
    && "" !in r.pastHistories
  }

  ghost predicate HoldsRecord(m: map<Key, Json>, r: Record) {
    forall n: RecordName :: RecordAt(m, n) == RecordField(r, n)
  }

  lemma RecordHeadRoundTrip(m: map<Key, Json>, r: Record)
    requires HoldsRecord(m, r) && RecordOk(r)
    ensures ParseRecordHead(r.id, m)
         == Ok(Record(r.id, r.zone, r.active, r.previous, r.lineage, r.history, r.pastHistories, DeletePending, None,
                      UNKNOWN_ACTUATOR, {}, None, None, None, false, None))
  {
    IdsRoundTrip(r.previous);
    IdsRoundTrip(r.pastHistories);
  }

  lemma RecordConfigRoundTrip(m: map<Key, Json>, r: Record, s: Record)
    requires HoldsRecord(m, r) && RecordOk(r)
    ensures ParseRecordConfig(m, s) == Ok(s.(lifecycle := r.lifecycle, shadow := r.shadow, identity := r.identity))
  {
    IdentityRoundTrip(r.identity);
    ShadowRoundTrip(r.shadow);
  }

  lemma RecordHazardsRoundTrip(m: map<Key, Json>, r: Record, s: Record)
    requires HoldsRecord(m, r)
    ensures ParseRecordHazards(m, s)
         == Ok(s.(blockers := r.blockers, flow := r.flow, fault := r.fault, ackRequired := r.ackRequired))
  {
    BlockersRoundTrip(r.blockers);
  }

  lemma RecordNotesRoundTrip(m: map<Key, Json>, r: Record, s: Record)
    requires HoldsRecord(m, r) && RecordOk(r)
    ensures ParseRecordNotes(m, s) == Ok(s.(incident := r.incident, removedAck := r.removedAck))
  {
    IncidentRoundTrip(r.incident);
    AckRoundTrip(r.removedAck);
  }

  lemma RecordRoundTrip(r: Record)
    requires RecordOk(r)
    ensures ParseRecord(r.id, PrintRecord(r)) == Ok(r)
  {
    var m := PrintRecord(r).fields;
    assert HoldsRecord(m, r);
    RecordHeadRoundTrip(m, r);
    var head := ParseRecordHead(r.id, m).value;
    RecordConfigRoundTrip(m, r, head);
    var config := ParseRecordConfig(m, head).value;
    RecordHazardsRoundTrip(m, r, config);
    RecordNotesRoundTrip(m, r, ParseRecordHazards(m, config).value);
  }

  lemma ParsedRecordOk(id: string, j: Json)
    requires ParseRecord(id, j).Ok?
    ensures RecordOk(ParseRecord(id, j).value) && ParseRecord(id, j).value.id == id
  {
    ParsedIdsProper(RecordAt(j.fields, PastHistories));
    var head := ParseRecordHead(id, j.fields).value;
    ParsedConfigOk(j.fields, head);
    var config := ParseRecordConfig(j.fields, head).value;
    ParsedNotesOk(j.fields, ParseRecordHazards(j.fields, config).value);
  }

  lemma ParsedIdsProper(j: Json)
    requires ParseIds(j).Ok?
    ensures "" !in ParseIds(j).value
  {
  }

  lemma ParsedConfigOk(m: map<Key, Json>, r: Record)
    requires ParseRecordConfig(m, r).Ok?
    ensures var s := ParseRecordConfig(m, r).value;
            && s == r.(lifecycle := s.lifecycle, shadow := s.shadow, identity := s.identity)
            && s.identity.Constructible() && (s.shadow.Some? ==> ShadowOk(s.shadow.value))
  {
  }

  lemma ParsedNotesOk(m: map<Key, Json>, r: Record)
    requires ParseRecordNotes(m, r).Ok?
    ensures var s := ParseRecordNotes(m, r).value;
            && s == r.(incident := s.incident, removedAck := s.removedAck)
            && (s.incident.Some? ==> s.incident.value.detail != "") && AckOk(s.removedAck)
  {
  }

  // ----- the whole store --------------------------------------------------------------------------------------------

  datatype Document = Document(generation: string, revision: int, run: RunIds, store: Store)

  const SCHEMA: int := 3

  function PrintRun(r: RunIds): Json {
    Object(map n: RunName :: OfRun(n) := match n case ActiveRunId => PrintText(r.active) case LastCleanRunId => PrintText(r.clean))
  }

  predicate IsRun(j: Json) {
    j.Object? && (forall k :: k in j.fields ==> k.OfRun?) && forall n: RunName :: OfRun(n) in j.fields
  }

  function ParseRun(j: Json): Outcome<RunIds> {
    if !IsRun(j) then Bad()
    else
      var active :- ParseTextOrNull(At(j.fields, OfRun(ActiveRunId)));
      var clean :- ParseTextOrNull(At(j.fields, OfRun(LastCleanRunId)));
      Ok(RunIds(active, clean))
  }

  /** A dictionary is an object keyed by ids. */
  function PrintMap<T>(m: map<string, T>, printed: T -> Json): Json {
    Object(map id | id in m :: Id(id) := printed(m[id]))
  }

  predicate MapParses<T>(j: Json, parsed: (string, Json) -> Outcome<T>) {
    j.Object? && forall k :: k in j.fields ==> k.Id? && k.id != "" && parsed(k.id, j.fields[k]).Ok?
  }

  function ParseMap<T>(j: Json, parsed: (string, Json) -> Outcome<T>): Outcome<map<string, T>> {
    if !MapParses(j, parsed) then Bad()
    else Ok(map k | k in j.fields && k.Id? :: k.id := parsed(k.id, j.fields[k]).value)
  }

  lemma PrintedEntries<T>(m: map<string, T>, printed: T -> Json)
    ensures var j := PrintMap(m, printed);
            && (forall id :: id in m ==> Id(id) in j.fields && j.fields[Id(id)] == printed(m[id]))
            && (forall k :: k in j.fields ==> k.Id? && k.id in m)
  {
  }

  lemma ParsedEntry<T>(j: Json, parsed: (string, Json) -> Outcome<T>, id: string)
    requires MapParses(j, parsed)
    ensures id in ParseMap(j, parsed).value <==> Id(id) in j.fields
    ensures Id(id) in j.fields ==> ParseMap(j, parsed).value[id] == parsed(id, j.fields[Id(id)]).value
  {
  }

  /** What each entry comes back as is what the dictionary comes back as. */
  lemma MapRoundTrip<T>(m: map<string, T>, printed: T -> Json, parsed: (string, Json) -> Outcome<T>, out: map<string, T>)
    requires out.Keys == m.Keys && "" !in m
    requires forall id :: id in m ==> parsed(id, printed(m[id])) == Ok(out[id])
    ensures ParseMap(PrintMap(m, printed), parsed) == Ok(out)
  {
    var j := PrintMap(m, printed);
    PrintedEntries(m, printed);
    forall k | k in j.fields
      ensures k.Id? && k.id != "" && parsed(k.id, j.fields[k]).Ok?
    {
      assert k == Id(k.id) && k.id in m;
    }
    var r := ParseMap(j, parsed).value;
    forall id: string
      ensures id in r <==> id in out
      ensures id in out ==> r[id] == out[id]
    {
      ParsedEntry(j, parsed, id);
    }
    assert r == out;
  }

  lemma ParsedEach<T>(j: Json, parsed: (string, Json) -> Outcome<T>, good: (string, T) -> bool)
    requires ParseMap(j, parsed).Ok?
    requires forall id, raw :: parsed(id, raw).Ok? ==> good(id, parsed(id, raw).value)
    ensures forall id :: id in ParseMap(j, parsed).value ==> good(id, ParseMap(j, parsed).value[id])
  {
    forall k | k in j.fields
      ensures good(k.id, parsed(k.id, j.fields[k]).value)
    {
    }
  }

  function StripHistories(m: map<string, ZoneHistory>): map<string, ZoneHistory> {
    map h | h in m :: StripHistory(m[h])
  }

  ghost predicate HistoriesOk(m: map<string, ZoneHistory>) {
    forall h :: h in m ==> m[h].id == h && HistoryOk(m[h])
  }

  ghost predicate RecordsOk(m: map<string, Record>) {
    forall r :: r in m ==> m[r].id == r && RecordOk(m[r])
  }

  lemma HistoriesRoundTrip(m: map<string, ZoneHistory>)
    requires HistoriesOk(m)
    ensures ParseMap(PrintMap(m, PrintHistory), ParseHistory) == Ok(StripHistories(m))
  {
    forall h | h in m
      ensures ParseHistory(h, PrintHistory(m[h])) == Ok(StripHistory(m[h]))
    {
      HistoryRoundTrip(m[h]);
    }
    MapRoundTrip(m, PrintHistory, ParseHistory, StripHistories(m));
  }

  lemma RecordsRoundTrip(m: map<string, Record>)
    requires RecordsOk(m)
    ensures ParseMap(PrintMap(m, PrintRecord), ParseRecord) == Ok(m)
  {
    forall r | r in m
      ensures ParseRecord(r, PrintRecord(m[r])) == Ok(m[r])
    {
      RecordRoundTrip(m[r]);
    }
    MapRoundTrip(m, PrintRecord, ParseRecord, m);
  }

  function DocumentField(d: Document, n: StoreName): Json {
    match n
    case Version => Whole(SCHEMA)
    case GenerationId => Text(d.generation)
    case StoreRevision => Whole(d.revision)
    case Run => PrintRun(d.run)
    case ZoneHistories => PrintMap(d.store.histories, PrintHistory)
    case SafetyRecords => PrintMap(d.store.records, PrintRecord)
  }

  function PrintDocument(d: Document): Json {
    Object(map n: StoreName :: OfStore(n) := DocumentField(d, n))
  }

  predicate IsDocument(j: Json) {
    j.Object? && (forall k :: k in j.fields ==> k.OfStore?) && forall n: StoreName :: OfStore(n) in j.fields
  }

  function ParseHeader(m: map<Key, Json>, store: Store): Outcome<Document> {
    var generation :- ParseText(At(m, OfStore(GenerationId)));
    var revision :- ParseWhole(At(m, OfStore(StoreRevision)), 1);
    var run :- ParseRun(At(m, OfStore(Run)));
    Ok(Document(generation, revision, run, store))
  }

  function ParseMaps(m: map<Key, Json>): Outcome<Store> {
    var histories :- ParseMap(At(m, OfStore(ZoneHistories)), ParseHistory);
    var records :- ParseMap(At(m, OfStore(SafetyRecords)), ParseRecord);
    Ok(Store(records, histories))
  }

  /** A newer schema is refused as such, any other defect as malformed. */
  function ParseEntries(j: Json): Outcome<Document> {
    if !j.Object? || !At(j.fields, OfStore(Version)).Whole? then Bad()
    else if At(j.fields, OfStore(Version)).whole > SCHEMA then Raise(FutureSchema)
    else if At(j.fields, OfStore(Version)).whole != SCHEMA || !IsDocument(j) then Bad()
    else
      var store :- ParseMaps(j.fields);
      ParseHeader(j.fields, store)
  }

  /** Every entry is well formed, and the store as a whole validates. */
  function ParseDocument(j: Json): Outcome<Document> {
    var d :- ParseEntries(j);
    if ValidStore(d.store) then Ok(d) else Bad()
  }

  ghost predicate EntriesOk(d: Document) {
    && d.generation != "" && d.revision >= 1
    && d.run.active != Some("") && d.run.clean != Some("")
    && HistoriesOk(d.store.histories) && RecordsOk(d.store.records)
  }

  /** A store that can be constructed. */
  ghost predicate DocumentOk(d: Document) {
    EntriesOk(d) && ValidStore(d.store)
  }

  /** The document with the live-only fields of its sessions reset. */
  function StripDocument(d: Document): Document {
    d.(store := Store(d.store.records, StripHistories(d.store.histories)))
  }

  lemma StrippedIsValid(s: Store)
    requires ValidStore(s)
    ensures ValidStore(Store(s.records, StripHistories(s.histories)))
  {
    var t := Store(s.records, StripHistories(s.histories));
    forall k | k in t.histories && t.histories[k].operation.session.Some?
      ensures OwnerResolves(t, k)
    {
      assert OwnerResolves(s, k);
    }
    assert ReferencesResolve(t);
    assert forall k :: k in t.histories ==> ContributionsOf(t.histories[k]) == ContributionsOf(s.histories[k]);
  }

  lemma RunRoundTrip(r: RunIds)
    requires r.active != Some("") && r.clean != Some("")
    ensures ParseRun(PrintRun(r)) == Ok(r)
  {
  }

  ghost predicate HoldsDocument(m: map<Key, Json>, d: Document) {
    forall n: StoreName :: At(m, OfStore(n)) == DocumentField(d, n)
  }

  lemma HeaderRoundTrip(m: map<Key, Json>, d: Document, store: Store)
    requires EntriesOk(d) && HoldsDocument(m, d)
    ensures ParseHeader(m, store) == Ok(d.(store := store))
  {
    RunRoundTrip(d.run);
  }

  lemma MapsRoundTrip(m: map<Key, Json>, d: Document)
    requires EntriesOk(d) && HoldsDocument(m, d)
    ensures ParseMaps(m) == Ok(StripDocument(d).store)
  {
    BothMapsRoundTrip(m, d.store);
  }

  lemma BothMapsRoundTrip(m: map<Key, Json>, s: Store)
    requires HistoriesOk(s.histories) && RecordsOk(s.records)
    requires At(m, OfStore(ZoneHistories)) == PrintMap(s.histories, PrintHistory)
    requires At(m, OfStore(SafetyRecords)) == PrintMap(s.records, PrintRecord)
    ensures ParseMaps(m) == Ok(Store(s.records, StripHistories(s.histories)))
  {
    HistoriesRoundTrip(s.histories);
    RecordsRoundTrip(s.records);
  }

  lemma EntriesRoundTrip(d: Document)
    requires EntriesOk(d)
    ensures ParseEntries(PrintDocument(d)) == Ok(StripDocument(d))
  {
    var m := PrintDocument(d).fields;
    assert HoldsDocument(m, d);
    MapsRoundTrip(m, d);
    HeaderRoundTrip(m, d, StripDocument(d).store);
  }

  /** Strict parsing of a printed store returns it with only the live-only session fields reset. */
  lemma DocumentRoundTrip(d: Document)
    requires DocumentOk(d)
    ensures ParseDocument(PrintDocument(d)) == Ok(StripDocument(d))
  {
    EntriesRoundTrip(d);
    StrippedIsValid(d.store);
  }

  lemma PrintsStrippedHistories(m: map<string, ZoneHistory>)
    ensures PrintMap(StripHistories(m), PrintHistory) == PrintMap(m, PrintHistory)
  {
    forall h | h in m
      ensures PrintHistory(StripHistory(m[h])) == PrintHistory(m[h])
    {
      PrintsStrippedHistory(m[h]);
    }
    assert PrintMap(StripHistories(m), PrintHistory).fields == PrintMap(m, PrintHistory).fields;
  }

  /** Printing it again gives the identical payload. */
  lemma PrintsStrippedDocument(d: Document)
    ensures PrintDocument(StripDocument(d)) == PrintDocument(d)
  {
    PrintsStrippedHistories(d.store.histories);
    assert forall n :: DocumentField(StripDocument(d), n) == DocumentField(d, n);
    assert PrintDocument(StripDocument(d)).fields == PrintDocument(d).fields;
  }

  lemma ParsedEntriesOk(j: Json)
    requires ParseEntries(j).Ok?
    ensures EntriesOk(ParseEntries(j).value) && StripDocument(ParseEntries(j).value) == ParseEntries(j).value
  {
    ParsedHistoriesOk(At(j.fields, OfStore(ZoneHistories)));
    ParsedRecordsOk(At(j.fields, OfStore(SafetyRecords)));
  }

  lemma ParsedDocumentOk(j: Json)
    requires ParseDocument(j).Ok?
    ensures DocumentOk(ParseDocument(j).value) && StripDocument(ParseDocument(j).value) == ParseDocument(j).value
  {
    ParsedEntriesOk(j);
  }

  lemma ParsedHistoriesOk(j: Json)
    requires ParseMap(j, ParseHistory).Ok?
    ensures var m := ParseMap(j, ParseHistory).value; HistoriesOk(m) && StripHistories(m) == m
  {
    forall id, raw | ParseHistory(id, raw).Ok?
      ensures var h := ParseHistory(id, raw).value; h.id == id && HistoryOk(h) && StripHistory(h) == h
    {
      ParsedHistoryOk(id, raw);
    }
    ParsedEach(j, ParseHistory, (id: string, h: ZoneHistory) => h.id == id && HistoryOk(h) && StripHistory(h) == h);
  }

  lemma ParsedRecordsOk(j: Json)
    requires ParseMap(j, ParseRecord).Ok?
    ensures RecordsOk(ParseMap(j, ParseRecord).value)
  {
    forall id, raw | ParseRecord(id, raw).Ok?
      ensures ParseRecord(id, raw).value.id == id && RecordOk(ParseRecord(id, raw).value)
    {
      ParsedRecordOk(id, raw);
    }
    ParsedEach(j, ParseRecord, (id: string, r: Record) => r.id == id && RecordOk(r));
  }

  // ----- the verified write -------------------------------------------------------------------------------------------

  /** The read-back check of a write: parse what is there, print it, compare. */
  predicate ReadsBack(d: Document, raw: Json) {
    ParseDocument(raw).Ok? && PrintDocument(ParseDocument(raw).value) == PrintDocument(d)
  }

  /** A write is adopted only when what the disk holds is the document's projection; an intact write always is. */
  lemma AdoptedMeansDurable(d: Document, raw: Json)
    requires DocumentOk(d)
    ensures ReadsBack(d, raw) <==> ParseDocument(raw) == Ok(StripDocument(d))
    ensures ReadsBack(d, PrintDocument(d))
  {
    DocumentRoundTrip(d);
    PrintsStrippedDocument(d);
    if ReadsBack(d, raw) {
      var loaded := ParseDocument(raw).value;
      ParsedDocumentOk(raw);
      DocumentRoundTrip(loaded);
    }
  }
}
