/** Loading a redacted snapshot gives what redacting the loaded one gives. */
module RedactionLoads {
  import opened Text
  import opened Snapshots
  import opened Records
  import opened EntityJson
  import opened SnapshotJson
  import opened Redaction

  // ---------------------------------------------------------------------------------------------
  // Redaction of a typed snapshot

  function RedactedValues(v: ProcessValues): ProcessValues { v.(cmdline := FromTexts(Placeholder())) }

  /** The placeholder may be what makes an untyped process a typed one. */
  function RedactedProcess(e: ProcessEntity): ProcessEntity {
    match e
    case ProcessEntity(_, _, _, _, _, _, _, _, _, _, _, _) => e.(cmdline := Placeholder())
    case UntypedProcess(v) =>
      match ProcessOf(RedactedValues(v)) case Loaded(r) => r case Rejected => e
  }

  function RedactedView(es: Entities): Entities {
    match es
    case Processes(ids, m) => Processes(ids, MapValues(m, RedactedProcess))
    case Others(name, ids, m) => Others(name, ids, MapValues(m, RedactedProcess))
    case _ => es
  }

  function RedactedLoaded(o: Observation): Observation { o.(entities := RedactedView(o.entities)) }

  function RedactedSnapshot(s: Snapshot): Snapshot {
    s.(observations := MapAll(s.observations, RedactedLoaded))
  }

  // ---------------------------------------------------------------------------------------------
  // Entities

  /** The field g apart, r reads as d does. */
  ghost predicate KeptBut(d: Fields, r: Fields, n: Naming, g: Field) {
    forall f :: f != g ==> At(r, n, f) == At(d, n, f)
  }

  lemma Replaced(d: Fields, n: Naming, g: Field, j: Json)
    requires Injective(n)
    ensures KeptBut(d, d[n(g) := j], n, g)
    ensures At(d[n(g) := j], n, g) == Loaded(j)
  {
  }

  lemma CmdlineReplaced(d: Fields, n: Naming)
    requires Injective(n)
    ensures KeptBut(d, RedactedFields(d, n), n, CmdlineKey)
    ensures At(d, n, CmdlineKey).Loaded? ==> At(RedactedFields(d, n), n, CmdlineKey) == Loaded(FromTexts(Placeholder()))
  {
    Replaced(d, n, CmdlineKey, FromTexts(Placeholder()));
  }

  lemma ReadsKept(d: Fields, r: Fields, n: Naming)
    requires KeptBut(d, r, n, CmdlineKey) && ProcessReads(d, n).Loaded?
    requires At(r, n, CmdlineKey) == Loaded(FromTexts(Placeholder()))
    ensures ProcessReads(r, n) == Loaded(RedactedValues(ProcessReads(d, n).value))
  {
  }

  lemma TypedRedacted(v: ProcessValues)
    requires TypedProcess(v).Loaded?
    ensures TypedProcess(RedactedValues(v)) == Loaded(RedactedProcess(TypedProcess(v).value))
  {
    TextsRoundTrip(Placeholder());
  }

  lemma ValuesRedacted(v: ProcessValues)
    requires ProcessOf(v).Loaded?
    ensures ProcessOf(RedactedValues(v)) == Loaded(RedactedProcess(ProcessOf(v).value))
  {
    assert Listables(RedactedValues(v));
    if TypedProcess(v).Loaded? {
      TypedRedacted(v);
    }
  }

  lemma ProcessLoads(j: Json, n: Naming)
    requires Injective(n) && ProcessFrom(j, n).Loaded?
    ensures ProcessFrom(RedactedEntity(j, n), n) == Loaded(RedactedProcess(ProcessFrom(j, n).value))
  {
    CmdlineReplaced(j.fields, n);
    ReadsKept(j.fields, RedactedFields(j.fields, n), n);
    ValuesRedacted(ProcessReads(j.fields, n).value);
  }

  lemma SweepKept(d: Fields, r: Fields, n: Naming)
    requires KeptBut(d, r, n, CmdlineKey)
    ensures SweepFrom(Object(r), n) == SweepFrom(Object(d), n)
  {
  }

  lemma SweepLoads(j: Json, n: Naming)
    requires Injective(n)
    ensures SweepFrom(RedactedEntity(j, n), n) == SweepFrom(j, n)
  {
    if j.Object? {
      CmdlineReplaced(j.fields, n);
      SweepKept(j.fields, RedactedFields(j.fields, n), n);
    }
  }

  lemma ModuleKept(d: Fields, r: Fields, n: Naming)
    requires KeptBut(d, r, n, CmdlineKey)
    ensures ModuleFrom(Object(r), n) == ModuleFrom(Object(d), n)
  {
  }

  lemma ModuleLoads(j: Json, n: Naming)
    requires Injective(n)
    ensures ModuleFrom(RedactedEntity(j, n), n) == ModuleFrom(j, n)
  {
    if j.Object? {
      CmdlineReplaced(j.fields, n);
      ModuleKept(j.fields, RedactedFields(j.fields, n), n);
    }
  }

  lemma HookKept(d: Fields, r: Fields, n: Naming)
    requires KeptBut(d, r, n, CmdlineKey)
    ensures HookFrom(Object(r), n) == HookFrom(Object(d), n)
  {
  }

  lemma HookLoads(j: Json, n: Naming)
    requires Injective(n)
    ensures HookFrom(RedactedEntity(j, n), n) == HookFrom(j, n)
  {
    if j.Object? {
      CmdlineReplaced(j.fields, n);
      HookKept(j.fields, RedactedFields(j.fields, n), n);
    }
  }

  lemma SocketKept(d: Fields, r: Fields, n: Naming)
    requires KeptBut(d, r, n, CmdlineKey)
    ensures SocketFrom(Object(r), n) == SocketFrom(Object(d), n)
  {
  }

  lemma SocketLoads(j: Json, n: Naming)
    requires Injective(n)
    ensures SocketFrom(RedactedEntity(j, n), n) == SocketFrom(j, n)
  {
    if j.Object? {
      CmdlineReplaced(j.fields, n);
      SocketKept(j.fields, RedactedFields(j.fields, n), n);
    }
  }

  lemma RekeyedAt<T>(d: Fields, from: Json -> Load<T>)
    requires LoadById(d, from).Loaded?
    ensures var m := LoadById(d, from).value;
      && (forall k :: k in d ==> ParseInt(k).value in m && m[ParseInt(k).value] == from(d[k]).value)
      && (forall id :: id in m ==> exists k :: k in d && ParseInt(k).value == id)
  {
  }

  lemma SameNumericKeys(d: Fields, r: Fields)
    requires r.Keys == d.Keys
    ensures NumericKeys(r) <==> NumericKeys(d)
  {
  }

  lemma SameIds<T>(d: Fields, r: Fields, m: map<int, T>)
    requires r.Keys == d.Keys && NumericKeys(d)
    requires forall id :: id in m ==> exists k :: k in d && ParseInt(k).value == id
    ensures NumericKeys(r) && forall id :: id in m ==> exists k :: k in r && ParseInt(k).value == id
  {
    forall id | id in m ensures exists k :: k in r && ParseInt(k).value == id {
      var k :| k in d && ParseInt(k).value == id;
    }
  }

  lemma ByIdLoads<T>(d: Fields, r: Fields, from: Json -> Load<T>, norm: T -> T)
    requires LoadById(d, from).Loaded? && r.Keys == d.Keys
    requires forall k :: k in d ==> from(r[k]) == Loaded(norm(from(d[k]).value))
    ensures LoadById(r, from) == Loaded(MapValues(LoadById(d, from).value, norm))
  {
    var m := LoadById(d, from).value;
    RekeyedAt(d, from);
    SameNumericKeys(d, r);
    SameIds(d, r, m);
    LoadedIds(r, from, MapValues(m, norm));
  }

  lemma ProcessesLoad(ids: Json, d: Fields, n: Naming)
    requires Injective(n)
    ensures var was := LoadPids(ids, Loaded(d), ProcessDecoder(n));
      was.Loaded? ==>
        LoadPids(ids, Loaded(RedactedEntities(d, n)), ProcessDecoder(n))
        == Loaded((was.value.0, MapValues(was.value.1, RedactedProcess)))
  {
    if LoadById(d, ProcessDecoder(n)).Loaded? {
      forall k | k in d
        ensures ProcessDecoder(n)(RedactedEntities(d, n)[k]) == Loaded(RedactedProcess(ProcessDecoder(n)(d[k]).value))
      {
        assert ProcessDecoder(n)(d[k]).Loaded?;
        ProcessLoads(d[k], n);
      }
      ByIdLoads(d, RedactedEntities(d, n), ProcessDecoder(n), RedactedProcess);
    }
  }

  lemma SweepsLoad(ids: Json, d: Fields, n: Naming)
    requires Injective(n)
    ensures var was := LoadPids(ids, Loaded(d), SweepDecoder(n));
      was.Loaded? ==> LoadPids(ids, Loaded(RedactedEntities(d, n)), SweepDecoder(n)) == was
  {
    if LoadById(d, SweepDecoder(n)).Loaded? {
      forall k | k in d ensures SweepDecoder(n)(RedactedEntities(d, n)[k]) == Loaded(Same(SweepDecoder(n)(d[k]).value)) {
        assert SweepDecoder(n)(d[k]).Loaded?;
        SweepLoads(d[k], n);
      }
      ByIdLoads(d, RedactedEntities(d, n), SweepDecoder(n), Same);
      SameMap(LoadById(d, SweepDecoder(n)).value);
    }
  }

  lemma NamesLoad<T>(ids: Json, d: Fields, from: Json -> Load<T>, n: Naming)
    requires forall k :: k in d ==> from(RedactedEntity(d[k], n)) == from(d[k])
    ensures LoadNames(ids, Loaded(RedactedEntities(d, n)), from) == LoadNames(ids, Loaded(d), from)
  {
    var r := RedactedEntities(d, n);
    assert forall k :: k in d ==> from(r[k]) == from(d[k]);
    assert AllLoad(r, from) <==> AllLoad(d, from);
    if AllLoad(d, from) {
      assert LoadByName(r, from).value == LoadByName(d, from).value;
    }
  }

  lemma NamedEntitiesLoad(ids: Json, d: Fields, n: Naming)
    requires Injective(n)
    ensures LoadNames(ids, Loaded(RedactedEntities(d, n)), ModuleDecoder(n)) == LoadNames(ids, Loaded(d), ModuleDecoder(n))
    ensures LoadNames(ids, Loaded(RedactedEntities(d, n)), HookDecoder(n)) == LoadNames(ids, Loaded(d), HookDecoder(n))
    ensures LoadNames(ids, Loaded(RedactedEntities(d, n)), SocketDecoder(n)) == LoadNames(ids, Loaded(d), SocketDecoder(n))
  {
    forall k | k in d
      ensures ModuleDecoder(n)(RedactedEntity(d[k], n)) == ModuleDecoder(n)(d[k])
      ensures HookDecoder(n)(RedactedEntity(d[k], n)) == HookDecoder(n)(d[k])
      ensures SocketDecoder(n)(RedactedEntity(d[k], n)) == SocketDecoder(n)(d[k])
    {
      ModuleLoads(d[k], n);
      HookLoads(d[k], n);
      SocketLoads(d[k], n);
    }
    NamesLoad(ids, d, ModuleDecoder(n), n);
    NamesLoad(ids, d, HookDecoder(n), n);
    NamesLoad(ids, d, SocketDecoder(n), n);
  }

  // ---------------------------------------------------------------------------------------------
  // Observations and snapshots

  lemma EntitiesLoad(name: Text, ids: Json, d: Fields, n: Naming)
    requires Injective(n)
    ensures var was := EntitiesFrom(name, ids, Loaded(d), n);
      was.Loaded? ==> EntitiesFrom(name, ids, Loaded(RedactedEntities(d, n)), n) == Loaded(RedactedView(was.value))
  {
    match CollectorOf(name)
    case ProcfsProcesses => ProcessesLoad(ids, d, n);
    case SyscallSweep => SweepsLoad(ids, d, n);
    case ProcfsModules => NamedEntitiesLoad(ids, d, n);
    case KernelModuleEvidence =>
    case KernelHooks => NamedEntitiesLoad(ids, d, n);
    case ProcfsSockets => NamedEntitiesLoad(ids, d, n);
    case OtherCollector(_) => ProcessesLoad(ids, d, n);
  }

  /** Only a collector whose entities are looked at needs them to be there. */
  lemma EntitiesNeeded(name: Text, ids: Json, n: Naming)
    ensures EntitiesFrom(name, ids, Rejected, n).Loaded?
       <==> CollectorOf(name) == KernelModuleEvidence && AsInts(ids).Loaded?
  {
  }

  lemma RestKept(es: Entities, fs: Entities, r: ObservationReads, entities: Load<Json>, n: Naming)
    requires ObservationWith(es, r, n).Loaded?
    ensures ObservationWith(fs, r.(entities := entities), n) == Loaded(ObservationWith(es, r, n).value.(entities := fs))
  {
  }

  /** Putting other entities under the key changes the entities of the observation and nothing else. */
  lemma ObservationKept(r: ObservationReads, entities: Load<Json>, n: Naming)
    requires ObservationOf(r, n).Loaded? && EntitiesOf(r.(entities := entities), n).Loaded?
    ensures EntitiesOf(r, n) == Loaded(ObservationOf(r, n).value.entities)
    ensures ObservationOf(r.(entities := entities), n)
         == Loaded(ObservationOf(r, n).value.(entities := EntitiesOf(r.(entities := entities), n).value))
  {
    var es, fs := EntitiesOf(r, n).value, EntitiesOf(r.(entities := entities), n).value;
    RestKept(es, fs, r, entities, n);
  }

  lemma LoadedReads(r: ObservationReads, n: Naming)
    requires ObservationOf(r, n).Loaded?
    ensures EntitiesOf(r, n) == Loaded(ObservationOf(r, n).value.entities)
    ensures TextOf(r.collector).Loaded? && r.ids.Loaded?
  {
  }

  lemma ReplacedReads(d: Fields, n: Naming, j: Json)
    requires Injective(n)
    ensures ReadsOf(d[n(EntitiesKey) := j], n) == ReadsOf(d, n).(entities := Loaded(j))
  {
    Replaced(d, n, EntitiesKey, j);
  }

  lemma ObservationLoads(j: Json, n: Naming)
    requires Injective(n) && ObservationFrom(j, n).Loaded? && RedactableObservation(j, n)
    ensures ObservationFrom(RedactedObservation(j, n), n) == Loaded(RedactedLoaded(ObservationFrom(j, n).value))
  {
    var d := j.fields;
    var r := ReadsOf(d, n);
    LoadedReads(r, n);
    var name, ids := TextOf(r.collector).value, r.ids.value;
    if n(EntitiesKey) in d {
      var es := d[n(EntitiesKey)].fields;
      EntitiesLoad(name, ids, es, n);
      ReplacedReads(d, n, Object(RedactedEntities(es, n)));
      ObservationKept(r, Loaded(Object(RedactedEntities(es, n))), n);
    } else {
      EntitiesNeeded(name, ids, n);
    }
  }

  lemma MapAllCons<S, T>(v: S, vs: seq<S>, f: S -> T)
    ensures MapAll([v] + vs, f) == [f(v)] + MapAll(vs, f)
  {
  }

  /** A relation between the ways two lists load, from one between their items. */
  lemma {:induction false} ListLoads<T>(items: seq<Json>, others: seq<Json>, from: Json -> Load<T>, norm: T -> T)
    requires LoadAll(items, from).Loaded? && |others| == |items|
    requires forall i :: 0 <= i < |items| && from(items[i]).Loaded? ==> from(others[i]) == Loaded(norm(from(items[i]).value))
    ensures LoadAll(others, from) == Loaded(MapAll(LoadAll(items, from).value, norm))
  {
    if items != [] {
      var xs, ys := items[1..], others[1..];
      assert forall i :: 0 <= i < |xs| ==> xs[i] == items[i + 1] && ys[i] == others[i + 1];
      ListLoads(xs, ys, from, norm);
      MapAllCons(from(items[0]).value, LoadAll(xs, from).value, norm);
    }
  }

  lemma ItemsLoad(items: seq<Json>, n: Naming)
    requires Injective(n) && LoadAll(items, ObservationDecoder(n)).Loaded? && RedactableItems(items, n)
    ensures LoadAll(RedactedItems(items, n), ObservationDecoder(n))
         == Loaded(MapAll(LoadAll(items, ObservationDecoder(n)).value, RedactedLoaded))
  {
    forall i | 0 <= i < |items| && ObservationDecoder(n)(items[i]).Loaded?
      ensures ObservationDecoder(n)(RedactedItems(items, n)[i])
           == Loaded(RedactedLoaded(ObservationDecoder(n)(items[i]).value))
    {
      ObservationLoads(items[i], n);
    }
    ListLoads(items, RedactedItems(items, n), ObservationDecoder(n), RedactedLoaded);
  }

  lemma SnapshotKept(v: Load<Json>, id: Load<Json>, at: Load<Json>, host: Load<Json>, capture: Load<Json>,
                     os: Load<Json>, ps: Load<Json>, n: Naming)
    requires SnapshotOf(v, id, at, host, capture, os, n).Loaded? && ListOf(ps, ObservationDecoder(n)).Loaded?
    ensures ListOf(os, ObservationDecoder(n)) == Loaded(SnapshotOf(v, id, at, host, capture, os, n).value.observations)
    ensures SnapshotOf(v, id, at, host, capture, ps, n)
         == Loaded(SnapshotOf(v, id, at, host, capture, os, n).value.(observations := ListOf(ps, ObservationDecoder(n)).value))
  {
  }

  lemma LoadedObservations(j: Json, n: Naming)
    requires FromDict(j, n).Loaded?
    ensures j.Object? && n(ObservationsKey) in j.fields && j.fields[n(ObservationsKey)].List?
    ensures LoadAll(j.fields[n(ObservationsKey)].items, ObservationDecoder(n)) == Loaded(FromDict(j, n).value.observations)
  {
    var d := j.fields;
    SnapshotKept(At(d, n, SchemaKey), At(d, n, SnapshotIdKey), At(d, n, CapturedAtKey), At(d, n, HostKey),
                 At(d, n, CaptureKey), At(d, n, ObservationsKey), Loaded(List([])), n);
  }

  /** from_dict(redact_snapshot(raw)) is from_dict(raw) with the command lines replaced. */
  lemma RedactionCommutesWithLoading(j: Json, s: Snapshot, n: Naming)
    requires Injective(n) && FromDict(j, n) == Loaded(s) && Redactable(j, n)
    ensures FromDict(Redacted(j, n), n) == Loaded(RedactedSnapshot(s))
  {
    LoadedObservations(j, n);
    var d := j.fields;
    var items := d[n(ObservationsKey)].items;
    ItemsLoad(items, n);
    ReplacedObservations(d, s, List(RedactedItems(items, n)), n);
  }

  /** Other observations under their key change the observations of the snapshot and nothing else. */
  lemma ReplacedObservations(d: Fields, s: Snapshot, os: Json, n: Naming)
    requires Injective(n) && FromDict(Object(d), n) == Loaded(s) && ListOf(Loaded(os), ObservationDecoder(n)).Loaded?
    ensures FromDict(Object(d[n(ObservationsKey) := os]), n)
         == Loaded(s.(observations := ListOf(Loaded(os), ObservationDecoder(n)).value))
  {
    Replaced(d, n, ObservationsKey, os);
    SnapshotKept(At(d, n, SchemaKey), At(d, n, SnapshotIdKey), At(d, n, CapturedAtKey), At(d, n, HostKey),
                 At(d, n, CaptureKey), At(d, n, ObservationsKey), Loaded(os), n);
  }

  // ---------------------------------------------------------------------------------------------
  // When redaction raises on a snapshot that loads

  /** An observation that only records existence, with "entities" that are not an object: loading does
      not look at them, redaction does. */
  predicate IgnoredEntities(j: Json, n: Naming) {
    && j.Object?
    && At(j.fields, n, CollectorKey) == Loaded(Str(EVIDENCE_NAME))
    && n(EntitiesKey) in j.fields && !j.fields[n(EntitiesKey)].Object?
  }

  lemma LoadedObservationRedactable(j: Json, n: Naming)
    requires ObservationFrom(j, n).Loaded?
    ensures RedactableObservation(j, n) <==> !IgnoredEntities(j, n)
  {
    NamesDiffer();
    var r := ReadsOf(j.fields, n);
    LoadedReads(r, n);
    if !RedactableObservation(j, n) {
      assert DictOf(r.entities) == Rejected;
      EntitiesNeeded(TextOf(r.collector).value, r.ids.value, n);
    }
  }

  lemma {:induction false} LoadAllEach<T>(items: seq<Json>, from: Json -> Load<T>, i: nat)
    requires LoadAll(items, from).Loaded? && i < |items|
    ensures from(items[i]).Loaded?
  {
    if i > 0 {
      LoadAllEach(items[1..], from, i - 1);
    }
  }

  /** On a snapshot that loads, redaction raises exactly when some observation of the evidence
      collector has entities that are not an object. */
  lemma RaisesExactly(j: Json, n: Naming)
    requires FromDict(j, n).Loaded?
    ensures j.Object? && n(ObservationsKey) in j.fields && j.fields[n(ObservationsKey)].List?
    ensures RedactSnapshot(j, n) == Rejected
       <==> exists i :: 0 <= i < |j.fields[n(ObservationsKey)].items| && IgnoredEntities(j.fields[n(ObservationsKey)].items[i], n)
  {
    LoadedObservations(j, n);
    var items := j.fields[n(ObservationsKey)].items;
    forall i | 0 <= i < |items| ensures RedactableObservation(items[i], n) <==> !IgnoredEntities(items[i], n) {
      LoadAllEach(items, ObservationDecoder(n), i);
      assert ObservationDecoder(n)(items[i]).Loaded?;
      LoadedObservationRedactable(items[i], n);
    }
  }

  lemma IgnoredStillLoads(r: ObservationReads, n: Naming)
    requires ObservationOf(r, n).Loaded? && r.collector == Loaded(Str(EVIDENCE_NAME))
    ensures ObservationOf(r.(entities := Loaded(Null)), n) == ObservationOf(r, n)
  {
    NamesDiffer();
    LoadedReads(r, n);
    ObservationKept(r, Loaded(Null), n);
  }

  /** Such an observation exists: any of the evidence collector's own, with "entities" set to null,
      loads as before and cannot be redacted. */
  lemma RaisesOnIgnoredEntities(o: Observation, n: Naming)
    requires Injective(n) && o.entities.Evidences?
    ensures var spoilt := Object(ObservationJson(o, n).fields[n(EntitiesKey) := Null]);
      ObservationFrom(spoilt, n) == Loaded(NormalObservation(o)) && !RedactableObservation(spoilt, n)
  {
    ObservationRoundTrip(o, n);
    var d := ObservationJson(o, n).fields;
    ReplacedReads(d, n, Null);
    RowReads(ObservationRowOf(o, n), o.pass, o.extra, n);
    IgnoredStillLoads(ReadsOf(d, n), n);
  }
}
