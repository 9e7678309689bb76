/** models.py: observations and whole snapshots in JSON, the collector dispatch and the version gate. */
module SnapshotJson {
  import opened Text
  import opened Sorting
  import opened Snapshots
  import opened Findings
  import opened Strings
  import opened Records
  import opened EntityJson

  // ---------------------------------------------------------------------------------------------
  // Enumerations

  function TrustName(t: TrustLevel): Text {
    match t case TrustLow => Lit("LOW") case TrustMedium => Lit("MEDIUM") case TrustHigh => Lit("HIGH")
  }

  function TrustFrom(j: Json): Load<TrustLevel> {
    if j == Str(TrustName(TrustLow)) then Loaded(TrustLow)
    else if j == Str(TrustName(TrustMedium)) then Loaded(TrustMedium)
    else if j == Str(TrustName(TrustHigh)) then Loaded(TrustHigh)
    else Rejected
  }

  function StatusName(s: Status): Text {
    match s case Ok => Lit("OK") case Partial => Lit("PARTIAL") case Failed => Lit("FAILED")
  }

  function StatusFrom(j: Json): Load<Status> {
    if j == Str(StatusName(Ok)) then Loaded(Ok)
    else if j == Str(StatusName(Partial)) then Loaded(Partial)
    else if j == Str(StatusName(Failed)) then Loaded(Failed)
    else Rejected
  }

  function KindName(k: ErrorKind): Text {
    match k
    case Vanished => Lit("vanished")
    case Denied => Lit("denied")
    case Malformed => Lit("malformed")
    case IoError => Lit("io_error")
  }

  function KindFrom(j: Json): Load<ErrorKind> {
    if j == Str(KindName(Vanished)) then Loaded(Vanished)
    else if j == Str(KindName(Denied)) then Loaded(Denied)
    else if j == Str(KindName(Malformed)) then Loaded(Malformed)
    else if j == Str(KindName(IoError)) then Loaded(IoError)
    else Rejected
  }

  function TrustOf(v: Load<Json>): Load<TrustLevel> { var j :- v; TrustFrom(j) }

  function StatusOf(v: Load<Json>): Load<Status> { var j :- v; StatusFrom(j) }

  lemma TrustRoundTrip(t: TrustLevel)
    ensures TrustFrom(Str(TrustName(t))) == Loaded(t)
  {
    assert |TrustName(TrustLow)| == 3 && |TrustName(TrustMedium)| == 6 && |TrustName(TrustHigh)| == 4;
  }

  lemma StatusRoundTrip(s: Status)
    ensures StatusFrom(Str(StatusName(s))) == Loaded(s)
  {
    assert |StatusName(Ok)| == 2 && |StatusName(Partial)| == 7 && |StatusName(Failed)| == 6;
  }

  lemma KindRoundTrip(k: ErrorKind)
    ensures KindFrom(Str(KindName(k))) == Loaded(k)
  {
    assert |KindName(Vanished)| == 8 && |KindName(Denied)| == 6 && |KindName(Malformed)| == 9 && |KindName(IoError)| == 8;
    assert KindName(Vanished)[0] == 'v' as int && KindName(IoError)[0] == 'i' as int;
  }

  // ---------------------------------------------------------------------------------------------
  // Collection errors

  function ErrorFields(e: CollectionError): map<Field, Json> {
    map[EntityIdKey := FromOption(e.entityId, IntJson), KindKey := Str(KindName(e.kind)), DetailKey := Str(e.detail)]
  }

  function ErrorEncoder(n: Naming): CollectionError -> Json
    requires Injective(n)
  {
    (e: CollectionError) => Object(Dict(ErrorFields(e), n))
  }

  function ErrorFrom(j: Json, n: Naming): Load<CollectionError> {
    var d :- AsDict(j);
    var id, kindJ, detail := OptIntAt(d, n, EntityIdKey), At(d, n, KindKey), TextAt(d, n, DetailKey);
    if id.Rejected? || kindJ.Rejected? || detail.Rejected? then Rejected
    else
      var kind :- KindFrom(kindJ.value);
      Loaded(CollectionError(id.value, kind, detail.value))
  }

  function ErrorDecoder(n: Naming): Json -> Load<CollectionError> { (j: Json) => ErrorFrom(j, n) }

  lemma ErrorRoundTrip(e: CollectionError, n: Naming)
    requires Injective(n)
    ensures ErrorFrom(ErrorEncoder(n)(e), n) == Loaded(e)
  {
    var values := ErrorFields(e);
    DictAt(values, n, EntityIdKey);
    DictAt(values, n, KindKey);
    DictAt(values, n, DetailKey);
    KindRoundTrip(e.kind);
  }

  lemma ErrorsRoundTrip(es: seq<CollectionError>, n: Naming)
    requires Injective(n)
    ensures AsList(FromList(es, ErrorEncoder(n)), ErrorDecoder(n)) == Loaded(es)
  {
    forall e | e in es ensures ErrorDecoder(n)(ErrorEncoder(n)(e)) == Loaded(Same(e)) {
      ErrorRoundTrip(e, n);
    }
    ListRoundTrip(es, ErrorEncoder(n), ErrorDecoder(n), Same);
    SameAll(es, Same);
  }

  // ---------------------------------------------------------------------------------------------
  // Collector dispatch

  const PROCESSES_NAME: Text := Lit("procfs.processes")
  const SWEEP_NAME: Text := Lit("syscall_sweep.processes")
  const MODULES_NAME: Text := Lit("procfs.modules")
  const EVIDENCE_NAME: Text := Lit("kernel.module_evidence")
  const HOOKS_NAME: Text := Lit("kernel.hooks")
  const SOCKETS_NAME: Text := Lit("procfs.sockets")

  function CollectorOf(name: Text): Collector {
    if name == PROCESSES_NAME then ProcfsProcesses
    else if name == SWEEP_NAME then SyscallSweep
    else if name == MODULES_NAME then ProcfsModules
    else if name == EVIDENCE_NAME then KernelModuleEvidence
    else if name == HOOKS_NAME then KernelHooks
    else if name == SOCKETS_NAME then ProcfsSockets
    else OtherCollector(name)
  }

  lemma NamesDiffer()
    ensures |PROCESSES_NAME| == 16 && |SWEEP_NAME| == 23 && |MODULES_NAME| == 14
    ensures |EVIDENCE_NAME| == 22 && |HOOKS_NAME| == 12 && |SOCKETS_NAME| == 14
    ensures MODULES_NAME != SOCKETS_NAME
  {
    assert MODULES_NAME[7] == 'm' as int;
    assert SOCKETS_NAME[7] == 's' as int;
  }

  /** An observation of an unknown collector does not carry the name of a known one. */
  predicate WellNamed(es: Entities) {
    es.Others? ==> CollectorOf(es.otherName) == OtherCollector(es.otherName)
  }

  /** The processes hold values of their fields' types. */
  predicate WellTyped(es: Entities) {
    match es
    case Processes(_, m) => forall id :: id in m ==> m[id].ProcessEntity?
    case Others(_, _, m) => forall id :: id in m ==> m[id].ProcessEntity?
    case _ => true
  }

  function NameOfEntities(es: Entities): Text {
    match es
    case Processes(_, _) => PROCESSES_NAME
    case Sweep(_, _) => SWEEP_NAME
    case Modules(_, _) => MODULES_NAME
    case Evidences(_) => EVIDENCE_NAME
    case Hooks(_, _) => HOOKS_NAME
    case Sockets(_, _) => SOCKETS_NAME
    case Others(name, _, _) => name
  }

  /** The collector's name finds the entity type that the collector stores. */
  lemma DispatchInverts(o: Observation)
    requires WellNamed(o.entities)
    ensures CollectorOf(NameOfEntities(o.entities)) == o.Collector()
  {
    NamesDiffer();
  }

  // ---------------------------------------------------------------------------------------------
  // Entities

  function ProcessEncoder(n: Naming): ProcessEntity -> Json
    requires Injective(n)
  {
    (e: ProcessEntity) => ProcessJson(e, n)
  }

  function SweepEncoder(n: Naming): SweepEntity -> Json
    requires Injective(n)
  {
    (e: SweepEntity) => SweepJson(e, n)
  }

  function ModuleEncoder(n: Naming): ModuleEntity -> Json
    requires Injective(n)
  {
    (e: ModuleEntity) => ModuleJson(e, n)
  }

  function HookEncoder(n: Naming): HookEntity -> Json
    requires Injective(n)
  {
    (e: HookEntity) => HookJson(e, n)
  }

  function SocketEncoder(n: Naming): SocketEntity -> Json
    requires Injective(n)
  {
    (e: SocketEntity) => SocketJson(e, n)
  }

  function ProcessDecoder(n: Naming): Json -> Load<ProcessEntity> { (j: Json) => ProcessFrom(j, n) }

  function SweepDecoder(n: Naming): Json -> Load<SweepEntity> { (j: Json) => SweepFrom(j, n) }

  function ModuleDecoder(n: Naming): Json -> Load<ModuleEntity> { (j: Json) => ModuleFrom(j, n) }

  function HookDecoder(n: Naming): Json -> Load<HookEntity> { (j: Json) => HookFrom(j, n) }

  function SocketDecoder(n: Naming): Json -> Load<SocketEntity> { (j: Json) => SocketFrom(j, n) }

  function SortedIds(ids: seq<int>): seq<int> { SortBy(ids, IntKey) }

  function SortedNames(names: seq<Text>): seq<Text> { SortBy(names, TextKey) }

  function IdsJson(es: Entities): Json {
    match es
    case Processes(ids, _) => FromInts(SortedIds(ids))
    case Sweep(ids, _) => FromInts(SortedIds(ids))
    case Modules(names, _) => FromTexts(SortedNames(names))
    case Evidences(ids) => FromInts(SortedIds(ids))
    case Hooks(names, _) => FromTexts(SortedNames(names))
    case Sockets(names, _) => FromTexts(SortedNames(names))
    case Others(_, ids, _) => FromInts(SortedIds(ids))
  }

  function EntitiesJson(es: Entities, n: Naming): Json
    requires Injective(n)
  {
    match es
    case Processes(_, m) => Object(DumpById(m, ProcessEncoder(n)))
    case Sweep(_, m) => Object(DumpById(m, SweepEncoder(n)))
    case Modules(_, m) => Object(MapValues(m, ModuleEncoder(n)))
    case Evidences(_) => Object(map[])
    case Hooks(_, m) => Object(MapValues(m, HookEncoder(n)))
    case Sockets(_, m) => Object(MapValues(m, SocketEncoder(n)))
    case Others(_, _, m) => Object(DumpById(m, ProcessEncoder(n)))
  }

  function LoadPids<T>(ids: Json, entities: Load<Fields>, from: Json -> Load<T>): Load<(seq<int>, map<int, T>)> {
    var keys :- AsInts(ids);
    var d :- entities;
    var m :- LoadById(d, from);
    Loaded((keys, m))
  }

  function LoadNames<T>(ids: Json, entities: Load<Fields>, from: Json -> Load<T>): Load<(seq<Text>, map<Text, T>)> {
    var keys :- AsTexts(ids);
    var d :- entities;
    var m :- LoadByName(d, from);
    Loaded((keys, m))
  }

  /** Entities of the type the collector stores, under keys of the type it uses. The entities of a
      collector that only records existence are not looked at. */
  function EntitiesFrom(name: Text, ids: Json, entities: Load<Fields>, n: Naming): Load<Entities> {
    match CollectorOf(name)
    case ProcfsProcesses => var p :- LoadPids(ids, entities, ProcessDecoder(n)); Loaded(Processes(p.0, p.1))
    case SyscallSweep => var p :- LoadPids(ids, entities, SweepDecoder(n)); Loaded(Sweep(p.0, p.1))
    case ProcfsModules => var p :- LoadNames(ids, entities, ModuleDecoder(n)); Loaded(Modules(p.0, p.1))
    case KernelModuleEvidence => var keys :- AsInts(ids); Loaded(Evidences(keys))
    case KernelHooks => var p :- LoadNames(ids, entities, HookDecoder(n)); Loaded(Hooks(p.0, p.1))
    case ProcfsSockets => var p :- LoadNames(ids, entities, SocketDecoder(n)); Loaded(Sockets(p.0, p.1))
    case OtherCollector(_) => var p :- LoadPids(ids, entities, ProcessDecoder(n)); Loaded(Others(name, p.0, p.1))
  }

  function NormalEntities(es: Entities): Entities {
    match es
    case Processes(ids, m) => Processes(SortedIds(ids), MapValues(m, NormalProcess))
    case Sweep(ids, m) => Sweep(SortedIds(ids), m)
    case Modules(names, m) => Modules(SortedNames(names), m)
    case Evidences(ids) => Evidences(SortedIds(ids))
    case Hooks(names, m) => Hooks(SortedNames(names), m)
    case Sockets(names, m) => Sockets(SortedNames(names), MapValues(m, NormalSocket))
    case Others(name, ids, m) => Others(name, SortedIds(ids), MapValues(m, NormalProcess))
  }

  lemma SameMap<K, T>(m: map<K, T>)
    ensures MapValues(m, Same) == m
  {
  }

  lemma ProcessesRoundTrip(ids: seq<int>, m: map<int, ProcessEntity>, n: Naming)
    requires Injective(n) && forall id :: id in m ==> m[id].ProcessEntity?
    ensures LoadPids(FromInts(ids), Loaded(DumpById(m, ProcessEncoder(n))), ProcessDecoder(n))
         == Loaded((ids, MapValues(m, NormalProcess)))
  {
    IntsRoundTrip(ids);
    forall id | id in m ensures ProcessDecoder(n)(ProcessEncoder(n)(m[id])) == Loaded(NormalProcess(m[id])) {
      ProcessRoundTrip(m[id], n);
    }
    ByIdRoundTrip(m, ProcessEncoder(n), ProcessDecoder(n), NormalProcess);
  }

  lemma SweepsRoundTrip(ids: seq<int>, m: map<int, SweepEntity>, n: Naming)
    requires Injective(n)
    ensures LoadPids(FromInts(ids), Loaded(DumpById(m, SweepEncoder(n))), SweepDecoder(n)) == Loaded((ids, m))
  {
    IntsRoundTrip(ids);
    forall id | id in m ensures SweepDecoder(n)(SweepEncoder(n)(m[id])) == Loaded(Same(m[id])) {
      SweepRoundTrip(m[id], n);
    }
    ByIdRoundTrip(m, SweepEncoder(n), SweepDecoder(n), Same);
    SameMap(m);
  }

  lemma ModulesRoundTrip(names: seq<Text>, m: map<Text, ModuleEntity>, n: Naming)
    requires Injective(n)
    ensures LoadNames(FromTexts(names), Loaded(MapValues(m, ModuleEncoder(n))), ModuleDecoder(n)) == Loaded((names, m))
  {
    TextsRoundTrip(names);
    forall id | id in m ensures ModuleDecoder(n)(ModuleEncoder(n)(m[id])) == Loaded(Same(m[id])) {
      ModuleRoundTrip(m[id], n);
    }
    ByNameRoundTrip(m, ModuleEncoder(n), ModuleDecoder(n), Same);
    SameMap(m);
  }

  lemma HooksRoundTrip(names: seq<Text>, m: map<Text, HookEntity>, n: Naming)
    requires Injective(n)
    ensures LoadNames(FromTexts(names), Loaded(MapValues(m, HookEncoder(n))), HookDecoder(n)) == Loaded((names, m))
  {
    TextsRoundTrip(names);
    forall id | id in m ensures HookDecoder(n)(HookEncoder(n)(m[id])) == Loaded(Same(m[id])) {
      HookRoundTrip(m[id], n);
    }
    ByNameRoundTrip(m, HookEncoder(n), HookDecoder(n), Same);
    SameMap(m);
  }

  lemma SocketsRoundTrip(names: seq<Text>, m: map<Text, SocketEntity>, n: Naming)
    requires Injective(n)
    ensures LoadNames(FromTexts(names), Loaded(MapValues(m, SocketEncoder(n))), SocketDecoder(n))
         == Loaded((names, MapValues(m, NormalSocket)))
  {
    TextsRoundTrip(names);
    forall id | id in m ensures SocketDecoder(n)(SocketEncoder(n)(m[id])) == Loaded(NormalSocket(m[id])) {
      SocketRoundTrip(m[id], n);
    }
    ByNameRoundTrip(m, SocketEncoder(n), SocketDecoder(n), NormalSocket);
  }

  lemma EntitiesRoundTrip(o: Observation, n: Naming)
    requires Injective(n) && WellNamed(o.entities) && WellTyped(o.entities)
    ensures var es := o.entities;
      EntitiesFrom(NameOfEntities(es), IdsJson(es), Loaded(EntitiesJson(es, n).fields), n) == Loaded(NormalEntities(es))
  {
    DispatchInverts(o);
    match o.entities
    case Processes(ids, m) => ProcessesRoundTrip(SortedIds(ids), m, n);
    case Sweep(ids, m) => SweepsRoundTrip(SortedIds(ids), m, n);
    case Modules(names, m) => ModulesRoundTrip(SortedNames(names), m, n);
    case Evidences(ids) => IntsRoundTrip(SortedIds(ids));
    case Hooks(names, m) => HooksRoundTrip(SortedNames(names), m, n);
    case Sockets(names, m) => SocketsRoundTrip(SortedNames(names), m, n);
    case Others(_, ids, m) => ProcessesRoundTrip(SortedIds(ids), m, n);
  }

  // ---------------------------------------------------------------------------------------------
  // Observations

  /** The values under an observation's keys. */
  datatype ObservationRow = ObservationRow(
    collector: Json, version: Json, view: Json, trust: Json, status: Json, duration: Json, ids: Json,
    entities: Json, stats: Json, errors: Json)

  function HeadFields(r: ObservationRow): map<Field, Json> {
    map[CollectorKey := r.collector, VersionKey := r.version, ViewKey := r.view, TrustKey := r.trust,
        StatusKey := r.status]
  }

  function BodyFields(r: ObservationRow): map<Field, Json> {
    map[DurationKey := r.duration, EntityIdsKey := r.ids, EntitiesKey := r.entities, StatsKey := r.stats,
        ErrorsKey := r.errors]
  }

  /** The keys that are only written when there is something to write. */
  function OptionalFields(pass: Option<Text>, extra: Option<Fields>): map<Field, Json> {
    (if pass.Some? then map[PassKey := Str(pass.value)] else map[])
    + (if extra.Some? then map[ExtraKey := Object(extra.value)] else map[])
  }

  function RowFields(r: ObservationRow, pass: Option<Text>, extra: Option<Fields>): map<Field, Json> {
    OptionalFields(pass, extra) + BodyFields(r) + HeadFields(r)
  }

  function ObservationRowOf(o: Observation, n: Naming): ObservationRow
    requires Injective(n)
  {
    ObservationRow(
      Str(NameOfEntities(o.entities)), Str(o.version), Str(o.view), Str(TrustName(o.trust)),
      Str(StatusName(o.status)), Int(o.durationMs), IdsJson(o.entities), EntitiesJson(o.entities, n),
      Object(o.stats), FromList(o.errors, ErrorEncoder(n)))
  }

  function ObservationJson(o: Observation, n: Naming): Json
    requires Injective(n)
  {
    Object(Dict(RowFields(ObservationRowOf(o, n), o.pass, o.extra), n))
  }

  /** What is under each of an observation's keys. */
  datatype ObservationReads = ObservationReads(
    collector: Load<Json>, version: Load<Json>, view: Load<Json>, trust: Load<Json>, status: Load<Json>,
    duration: Load<Json>, ids: Load<Json>, entities: Load<Json>, stats: Load<Json>, errors: Load<Json>,
    pass: Load<Json>, extra: Load<Json>)

  function ReadsOf(d: Fields, n: Naming): ObservationReads {
    ObservationReads(
      At(d, n, CollectorKey), At(d, n, VersionKey), At(d, n, ViewKey), At(d, n, TrustKey), At(d, n, StatusKey),
      At(d, n, DurationKey), At(d, n, EntityIdsKey), At(d, n, EntitiesKey), At(d, n, StatsKey),
      At(d, n, ErrorsKey), At(d, n, PassKey), At(d, n, ExtraKey))
  }

  function ReadsOfRow(r: ObservationRow, pass: Option<Text>, extra: Option<Fields>): ObservationReads {
    ObservationReads(
      Loaded(r.collector), Loaded(r.version), Loaded(r.view), Loaded(r.trust), Loaded(r.status),
      Loaded(r.duration), Loaded(r.ids), Loaded(r.entities), Loaded(r.stats), Loaded(r.errors),
      if pass.Some? then Loaded(Str(pass.value)) else Rejected,
      if extra.Some? then Loaded(Object(extra.value)) else Rejected)
  }

  /** Everything but the entities and the collector that names their type. */
  function ObservationWith(es: Entities, r: ObservationReads, n: Naming): Load<Observation> {
    var version, view, duration := TextOf(r.version), TextOf(r.view), IntOf(r.duration);
    var trust, status := TrustOf(r.trust), StatusOf(r.status);
    var stats, errors := DictOf(r.stats), ListOf(r.errors, ErrorDecoder(n));
    var pass, extra := OptionOf(r.pass, AsText), OptionOf(r.extra, AsDict);
    if version.Rejected? || view.Rejected? || trust.Rejected? || status.Rejected? || duration.Rejected?
       || stats.Rejected? || errors.Rejected? || pass.Rejected? || extra.Rejected?
    then Rejected
    else Loaded(Observation(es, version.value, view.value, trust.value, status.value, duration.value,
                            stats.value, errors.value, pass.value, extra.value))
  }

  function EntitiesOf(r: ObservationReads, n: Naming): Load<Entities> {
    var collector :- TextOf(r.collector);
    var ids :- r.ids;
    EntitiesFrom(collector, ids, DictOf(r.entities), n)
  }

  function ObservationOf(r: ObservationReads, n: Naming): Load<Observation> {
    var es :- EntitiesOf(r, n);
    ObservationWith(es, r, n)
  }

  function ObservationFrom(j: Json, n: Naming): Load<Observation> {
    var d :- AsDict(j);
    ObservationOf(ReadsOf(d, n), n)
  }

  function NormalObservation(o: Observation): Observation { o.(entities := NormalEntities(o.entities)) }

  lemma HeadReads(r: ObservationRow, pass: Option<Text>, extra: Option<Fields>, n: Naming)
    requires Injective(n)
    ensures var d := Dict(RowFields(r, pass, extra), n);
      && At(d, n, CollectorKey) == Loaded(r.collector) && At(d, n, VersionKey) == Loaded(r.version)
      && At(d, n, ViewKey) == Loaded(r.view)
  {
    var values := RowFields(r, pass, extra);
    DictAt(values, n, CollectorKey);
    DictAt(values, n, VersionKey);
    DictAt(values, n, ViewKey);
  }

  lemma OutcomeReads(r: ObservationRow, pass: Option<Text>, extra: Option<Fields>, n: Naming)
    requires Injective(n)
    ensures var d := Dict(RowFields(r, pass, extra), n);
      At(d, n, TrustKey) == Loaded(r.trust) && At(d, n, StatusKey) == Loaded(r.status)
  {
    var values := RowFields(r, pass, extra);
    DictAt(values, n, TrustKey);
    DictAt(values, n, StatusKey);
  }

  lemma BodyReads(r: ObservationRow, pass: Option<Text>, extra: Option<Fields>, n: Naming)
    requires Injective(n)
    ensures var d := Dict(RowFields(r, pass, extra), n);
      && At(d, n, DurationKey) == Loaded(r.duration) && At(d, n, EntityIdsKey) == Loaded(r.ids)
  {
    var values := RowFields(r, pass, extra);
    DictAt(values, n, DurationKey);
    DictAt(values, n, EntityIdsKey);
  }

  lemma DetailReads(r: ObservationRow, pass: Option<Text>, extra: Option<Fields>, n: Naming)
    requires Injective(n)
    ensures At(Dict(RowFields(r, pass, extra), n), n, EntitiesKey) == Loaded(r.entities)
  {
    DictAt(RowFields(r, pass, extra), n, EntitiesKey);
  }

  lemma RunReads(r: ObservationRow, pass: Option<Text>, extra: Option<Fields>, n: Naming)
    requires Injective(n)
    ensures var d := Dict(RowFields(r, pass, extra), n);
      At(d, n, StatsKey) == Loaded(r.stats) && At(d, n, ErrorsKey) == Loaded(r.errors)
  {
    var values := RowFields(r, pass, extra);
    DictAt(values, n, StatsKey);
    DictAt(values, n, ErrorsKey);
  }

  lemma PassReads(r: ObservationRow, pass: Option<Text>, extra: Option<Fields>, n: Naming)
    requires Injective(n)
    ensures At(Dict(RowFields(r, pass, extra), n), n, PassKey) == if pass.Some? then Loaded(Str(pass.value)) else Rejected
  {
    DictAt(RowFields(r, pass, extra), n, PassKey);
  }

  lemma ExtraReads(r: ObservationRow, pass: Option<Text>, extra: Option<Fields>, n: Naming)
    requires Injective(n)
    ensures At(Dict(RowFields(r, pass, extra), n), n, ExtraKey)
         == if extra.Some? then Loaded(Object(extra.value)) else Rejected
  {
    DictAt(RowFields(r, pass, extra), n, ExtraKey);
  }

  lemma RowReads(r: ObservationRow, pass: Option<Text>, extra: Option<Fields>, n: Naming)
    requires Injective(n)
    ensures ReadsOf(Dict(RowFields(r, pass, extra), n), n) == ReadsOfRow(r, pass, extra)
  {
    HeadReads(r, pass, extra, n);
    OutcomeReads(r, pass, extra, n);
    BodyReads(r, pass, extra, n);
    DetailReads(r, pass, extra, n);
    RunReads(r, pass, extra, n);
    PassReads(r, pass, extra, n);
    ExtraReads(r, pass, extra, n);
  }

  lemma RestRoundTrip(es: Entities, o: Observation, n: Naming)
    requires Injective(n)
    ensures ObservationWith(es, ReadsOfRow(ObservationRowOf(o, n), o.pass, o.extra), n) == Loaded(o.(entities := es))
  {
    TrustRoundTrip(o.trust);
    StatusRoundTrip(o.status);
    ErrorsRoundTrip(o.errors, n);
  }

  lemma EntitiesOfRow(o: Observation, n: Naming)
    requires Injective(n) && WellNamed(o.entities) && WellTyped(o.entities)
    ensures EntitiesOf(ReadsOfRow(ObservationRowOf(o, n), o.pass, o.extra), n) == Loaded(NormalEntities(o.entities))
  {
    EntitiesRoundTrip(o, n);
  }

  lemma ObservationRoundTrip(o: Observation, n: Naming)
    requires Injective(n) && WellNamed(o.entities) && WellTyped(o.entities)
    ensures ObservationFrom(ObservationJson(o, n), n) == Loaded(NormalObservation(o))
  {
    RowReads(ObservationRowOf(o, n), o.pass, o.extra, n);
    EntitiesOfRow(o, n);
    RestRoundTrip(NormalEntities(o.entities), o, n);
  }

  // ---------------------------------------------------------------------------------------------
  // Host, capture and schema version

  function HostFields(h: HostFacts): map<Field, Json> {
    map[HostnameKey := Str(h.hostname), KernelKey := Str(h.kernelRelease), ArchKey := Str(h.arch),
        BootIdKey := Str(h.bootId), BtimeKey := Int(h.btime), ClockTicksKey := Int(h.clockTicks)]
  }

  function HostFrom(d: Fields, n: Naming): Load<HostFacts> {
    var hostname, kernel, arch := TextAt(d, n, HostnameKey), TextAt(d, n, KernelKey), TextAt(d, n, ArchKey);
    var boot, btime, ticks := TextAt(d, n, BootIdKey), IntAt(d, n, BtimeKey), IntAt(d, n, ClockTicksKey);
    if hostname.Rejected? || kernel.Rejected? || arch.Rejected? || boot.Rejected? || btime.Rejected?
       || ticks.Rejected?
    then Rejected
    else Loaded(HostFacts(hostname.value, kernel.value, arch.value, boot.value, btime.value, ticks.value))
  }

  lemma HostRoundTrip(h: HostFacts, n: Naming)
    requires Injective(n)
    ensures HostFrom(Dict(HostFields(h), n), n) == Loaded(h)
  {
    var values := HostFields(h);
    DictAt(values, n, HostnameKey);
    DictAt(values, n, KernelKey);
    DictAt(values, n, ArchKey);
    DictAt(values, n, BootIdKey);
    DictAt(values, n, BtimeKey);
    DictAt(values, n, ClockTicksKey);
  }

  function CaptureFields(c: CaptureMeta): map<Field, Json> {
    map[ToolVersionKey := Str(c.toolVersion), EuidKey := Int(c.euid)]
  }

  function CaptureFrom(d: Fields, n: Naming): Load<CaptureMeta> {
    var tool, euid := TextAt(d, n, ToolVersionKey), IntAt(d, n, EuidKey);
    if tool.Rejected? || euid.Rejected? then Rejected else Loaded(CaptureMeta(tool.value, euid.value))
  }

  lemma CaptureRoundTrip(c: CaptureMeta, n: Naming)
    requires Injective(n)
    ensures CaptureFrom(Dict(CaptureFields(c), n), n) == Loaded(c)
  {
    var values := CaptureFields(c);
    DictAt(values, n, ToolVersionKey);
    DictAt(values, n, EuidKey);
  }

  const DOT: CodePoint := 0x2E

  /** MAJOR.MINOR, two integers around the only dot; None where reading it raises. */
  function Version(t: Text): Option<(int, int)> {
    match Find(t, DOT)
    case None => None
    case Some(at) =>
      var major, minor := t[..at], t[at + 1..];
      if Find(minor, DOT).Some? || ParseInt(major).None? || ParseInt(minor).None? then None
      else Some((ParseInt(major).value, ParseInt(minor).value))
  }

  const OUR_MAJOR := 1

  predicate Compatible(t: Text) {
    Version(t).Some? && Version(t).value.0 == OUR_MAJOR
  }

  /** A printed version reads back, so exactly the versions with our major number are compatible. */
  lemma VersionRoundTrip(major: int, minor: int)
    ensures Version(Decimal(major) + [DOT] + Decimal(minor)) == Some((major, minor))
    ensures Compatible(Decimal(major) + [DOT] + Decimal(minor)) <==> major == OUR_MAJOR
  {
    DecimalChars(major);
    DecimalChars(minor);
    FindFirst(Decimal(major), DOT, Decimal(minor));
    var t := Decimal(major) + [DOT] + Decimal(minor);
    assert t[..|Decimal(major)|] == Decimal(major) && t[|Decimal(major)| + 1..] == Decimal(minor);
    DecimalRoundTrip(major);
    DecimalRoundTrip(minor);
  }

  // ---------------------------------------------------------------------------------------------
  // Snapshots

  function ObservationEncoder(n: Naming): Observation -> Json
    requires Injective(n)
  {
    (o: Observation) => ObservationJson(o, n)
  }

  function ObservationDecoder(n: Naming): Json -> Load<Observation> { (j: Json) => ObservationFrom(j, n) }

  function SnapshotFields(s: Snapshot, n: Naming): map<Field, Json>
    requires Injective(n)
  {
    map[SchemaKey := Str(s.schemaVersion), SnapshotIdKey := Str(s.snapshotId), CapturedAtKey := Str(s.capturedAt),
        HostKey := Object(Dict(HostFields(s.host), n)), CaptureKey := Object(Dict(CaptureFields(s.capture), n)),
        ObservationsKey := FromList(s.observations, ObservationEncoder(n))]
  }

  function ToDict(s: Snapshot, n: Naming): Json
    requires Injective(n)
  {
    Object(Dict(SnapshotFields(s, n), n))
  }

  /** The version gate comes first: nothing else of an incompatible snapshot is looked at. */
  function SnapshotOf(version: Load<Json>, id: Load<Json>, at: Load<Json>, host: Load<Json>, capture: Load<Json>,
                      observations: Load<Json>, n: Naming): Load<Snapshot> {
    var versionT :- TextOf(version);
    if !Compatible(versionT) then Rejected
    else
      var idT, atT, hostD, captureD := TextOf(id), TextOf(at), DictOf(host), DictOf(capture);
      var os := ListOf(observations, ObservationDecoder(n));
      if idT.Rejected? || atT.Rejected? || hostD.Rejected? || captureD.Rejected? || os.Rejected? then Rejected
      else
        var hostV :- HostFrom(hostD.value, n);
        var captureV :- CaptureFrom(captureD.value, n);
        Loaded(Snapshot(versionT, idT.value, atT.value, hostV, captureV, os.value))
  }

  function FromDict(j: Json, n: Naming): Load<Snapshot> {
    var d :- AsDict(j);
    SnapshotOf(At(d, n, SchemaKey), At(d, n, SnapshotIdKey), At(d, n, CapturedAtKey), At(d, n, HostKey),
               At(d, n, CaptureKey), At(d, n, ObservationsKey), n)
  }

  /** Entities match their collector. */
  predicate WellFormed(s: Snapshot) {
    forall o :: o in s.observations ==> WellNamed(o.entities) && WellTyped(o.entities)
  }

  function Normal(s: Snapshot): Snapshot { s.(observations := MapAll(s.observations, NormalObservation)) }

  lemma ObservationsRoundTrip(os: seq<Observation>, n: Naming)
    requires Injective(n)
    requires forall o :: o in os ==> WellNamed(o.entities) && WellTyped(o.entities)
    ensures AsList(FromList(os, ObservationEncoder(n)), ObservationDecoder(n)) == Loaded(MapAll(os, NormalObservation))
  {
    forall o | o in os ensures ObservationDecoder(n)(ObservationEncoder(n)(o)) == Loaded(NormalObservation(o)) {
      ObservationRoundTrip(o, n);
    }
    ListRoundTrip(os, ObservationEncoder(n), ObservationDecoder(n), NormalObservation);
  }

  lemma HeaderReads(s: Snapshot, n: Naming)
    requires Injective(n)
    ensures var d := Dict(SnapshotFields(s, n), n);
      && At(d, n, SchemaKey) == Loaded(Str(s.schemaVersion)) && At(d, n, SnapshotIdKey) == Loaded(Str(s.snapshotId))
      && At(d, n, CapturedAtKey) == Loaded(Str(s.capturedAt))
  {
    var values := SnapshotFields(s, n);
    DictAt(values, n, SchemaKey);
    DictAt(values, n, SnapshotIdKey);
    DictAt(values, n, CapturedAtKey);
  }

  lemma PartReads(s: Snapshot, n: Naming)
    requires Injective(n)
    ensures var d := Dict(SnapshotFields(s, n), n);
      && At(d, n, HostKey) == Loaded(Object(Dict(HostFields(s.host), n)))
      && At(d, n, CaptureKey) == Loaded(Object(Dict(CaptureFields(s.capture), n)))
      && At(d, n, ObservationsKey) == Loaded(FromList(s.observations, ObservationEncoder(n)))
  {
    var values := SnapshotFields(s, n);
    DictAt(values, n, HostKey);
    DictAt(values, n, CaptureKey);
    DictAt(values, n, ObservationsKey);
  }

  lemma PartsRoundTrip(s: Snapshot, n: Naming)
    requires Injective(n) && WellFormed(s)
    ensures SnapshotOf(Loaded(Str(s.schemaVersion)), Loaded(Str(s.snapshotId)), Loaded(Str(s.capturedAt)),
                       Loaded(Object(Dict(HostFields(s.host), n))), Loaded(Object(Dict(CaptureFields(s.capture), n))),
                       Loaded(FromList(s.observations, ObservationEncoder(n))), n)
         == if Compatible(s.schemaVersion) then Loaded(Normal(s)) else Rejected
  {
    HostRoundTrip(s.host, n);
    CaptureRoundTrip(s.capture, n);
    ObservationsRoundTrip(s.observations, n);
  }

  /** from_dict(to_dict(s)) is s with its id lists, partial lists and owners sorted, when the schema
      version is compatible, and is refused when it is not. */
  lemma SnapshotRoundTrip(s: Snapshot, n: Naming)
    requires Injective(n) && WellFormed(s)
    ensures FromDict(ToDict(s, n), n) == if Compatible(s.schemaVersion) then Loaded(Normal(s)) else Rejected
  {
    HeaderReads(s, n);
    PartReads(s, n);
    PartsRoundTrip(s, n);
  }

  // ---------------------------------------------------------------------------------------------
  // One trip is enough

  lemma SortedTwice<T>(xs: seq<T>, key: T -> seq<int>)
    ensures SortBy(SortBy(xs, key), key) == SortBy(xs, key)
  {
    SortAscends(xs, key);
    SortFixpoint(SortBy(xs, key), key);
  }

  lemma NormalProcesses(m: map<int, ProcessEntity>)
    ensures MapValues(MapValues(m, NormalProcess), NormalProcess) == MapValues(m, NormalProcess)
  {
    forall id | id in m ensures NormalProcess(NormalProcess(m[id])) == NormalProcess(m[id]) {
      if m[id].ProcessEntity? {
        SortedTwice(m[id].partial, TextKey);
      }
    }
  }

  lemma NormalSockets(m: map<Text, SocketEntity>)
    ensures MapValues(MapValues(m, NormalSocket), NormalSocket) == MapValues(m, NormalSocket)
  {
    forall id | id in m ensures NormalSocket(NormalSocket(m[id])) == NormalSocket(m[id]) {
      SortedTwice(m[id].ownerPids, IntKey);
    }
  }

  lemma NormalEntitiesTwice(es: Entities)
    ensures NormalEntities(NormalEntities(es)) == NormalEntities(es)
  {
    match es
    case Processes(ids, m) => SortedTwice(ids, IntKey); NormalProcesses(m);
    case Sweep(ids, m) => SortedTwice(ids, IntKey);
    case Modules(names, m) => SortedTwice(names, TextKey);
    case Evidences(ids) => SortedTwice(ids, IntKey);
    case Hooks(names, m) => SortedTwice(names, TextKey);
    case Sockets(names, m) => SortedTwice(names, TextKey); NormalSockets(m);
    case Others(_, ids, m) => SortedTwice(ids, IntKey); NormalProcesses(m);
  }

  lemma NormalTwice(s: Snapshot)
    ensures Normal(Normal(s)) == Normal(s)
  {
    forall o | o in s.observations ensures NormalObservation(NormalObservation(o)) == NormalObservation(o) {
      NormalEntitiesTwice(o.entities);
    }
    var once := MapAll(s.observations, NormalObservation);
    assert MapAll(once, NormalObservation) == once;
  }

  lemma ProcessJsonOfNormal(e: ProcessEntity, n: Naming)
    requires Injective(n)
    ensures ProcessJson(NormalProcess(e), n) == ProcessJson(e, n)
  {
    if e.ProcessEntity? {
      SortedTwice(e.partial, TextKey);
    }
    assert ValuesOf(NormalProcess(e)) == ValuesOf(e);
  }

  lemma DumpNormalProcesses(m: map<int, ProcessEntity>, n: Naming)
    requires Injective(n)
    ensures DumpById(MapValues(m, NormalProcess), ProcessEncoder(n)) == DumpById(m, ProcessEncoder(n))
  {
    var normal := MapValues(m, NormalProcess);
    forall id | id in normal ensures ProcessEncoder(n)(normal[id]) == ProcessEncoder(n)(m[id]) {
      ProcessJsonOfNormal(m[id], n);
    }
    DumpAgrees(normal, m, ProcessEncoder(n));
  }

  lemma DumpNormalSockets(m: map<Text, SocketEntity>, n: Naming)
    requires Injective(n)
    ensures MapValues(MapValues(m, NormalSocket), SocketEncoder(n)) == MapValues(m, SocketEncoder(n))
  {
    forall id | id in m ensures SocketFields(NormalSocket(m[id])) == SocketFields(m[id]) {
      SortedTwice(m[id].ownerPids, IntKey);
    }
  }

  lemma DumpNormalIds(es: Entities)
    ensures IdsJson(NormalEntities(es)) == IdsJson(es)
    ensures NameOfEntities(NormalEntities(es)) == NameOfEntities(es)
  {
    match es
    case Processes(ids, _) => SortedTwice(ids, IntKey);
    case Sweep(ids, _) => SortedTwice(ids, IntKey);
    case Modules(names, _) => SortedTwice(names, TextKey);
    case Evidences(ids) => SortedTwice(ids, IntKey);
    case Hooks(names, _) => SortedTwice(names, TextKey);
    case Sockets(names, _) => SortedTwice(names, TextKey);
    case Others(_, ids, _) => SortedTwice(ids, IntKey);
  }

  lemma DumpNormalEntities(es: Entities, n: Naming)
    requires Injective(n)
    ensures EntitiesJson(NormalEntities(es), n) == EntitiesJson(es, n)
  {
    match es
    case Processes(_, m) => DumpNormalProcesses(m, n);
    case Sockets(_, m) => DumpNormalSockets(m, n);
    case Others(_, _, m) => DumpNormalProcesses(m, n);
    case _ =>
  }

  /** to_dict of what one trip leaves is the dict the trip went through. */
  lemma ToDictFixpoint(s: Snapshot, n: Naming)
    requires Injective(n)
    ensures ToDict(Normal(s), n) == ToDict(s, n)
  {
    forall o | o in s.observations ensures ObservationJson(NormalObservation(o), n) == ObservationJson(o, n) {
      DumpNormalIds(o.entities);
      DumpNormalEntities(o.entities, n);
    }
    var was, now := s.observations, MapAll(s.observations, NormalObservation);
    assert MapAll(now, ObservationEncoder(n)) == MapAll(was, ObservationEncoder(n));
  }
}
