/** JSON objects with fixed keys, and reading their fields back.

    The keys are a parameter: any naming that gives each field of the schema a key of its own. A
    value of another JSON type than the field's is rejected here; numbers are integers. */
module Records {
  import opened Text
  import opened Snapshots

  datatype Field =
    | PidKey | PpidKey | CommKey | StateKey | FlagsKey | NumThreadsKey | StarttimeKey | CmdlineKey | ExeKey
    | UidKey | GidKey | PartialKey | TgidKey | StatusReadableKey | NameKey | SizeKey | RefcountKey
    | DependentsKey | BaseAddrKey | TaintKey | FunctionKey | HookTypeKey | CallbackKey | OwnerModuleKey
    | InodeKey | KindKey | LocalKey | RemoteKey | InTableKey | OwnerPidsKey | EntityIdKey | DetailKey
    | CollectorKey | VersionKey | ViewKey | TrustKey | StatusKey | DurationKey | EntityIdsKey | EntitiesKey
    | StatsKey | ErrorsKey | PassKey | ExtraKey | HostnameKey | KernelKey | ArchKey | BootIdKey | BtimeKey
    | ClockTicksKey | ToolVersionKey | EuidKey | SchemaKey | SnapshotIdKey | CapturedAtKey | HostKey
    | CaptureKey | ObservationsKey

  type Naming = Field -> Text

  type Fields = map<Text, Json>

  ghost predicate Inverts(back: Text -> Option<Field>, n: Naming) {
    forall f :: back(n(f)) == Some(f)
  }

  /** No two fields share a key. */
  ghost predicate Injective(n: Naming) {
    exists back :: Inverts(back, n)
  }

  /** A loaded value, or the exception that loading raises. */
  datatype Load<+T> = Loaded(value: T) | Rejected {
    predicate IsFailure() { Rejected? }
    function PropagateFailure<U>(): Load<U> requires Rejected? { Rejected }
    function Extract(): T requires Loaded? { value }
  }

  function Dict(values: map<Field, Json>, n: Naming): Fields
    requires Injective(n)
  {
    map f | f in values :: n(f) := values[f]
  }

  lemma DictAt(values: map<Field, Json>, n: Naming, f: Field)
    requires Injective(n)
    ensures At(Dict(values, n), n, f) == if f in values then Loaded(values[f]) else Rejected
  {
  }

  /** d[key], which raises when the key is absent. */
  function At(d: Fields, n: Naming, f: Field): Load<Json> {
    if n(f) in d then Loaded(d[n(f)]) else Rejected
  }

  // ---------------------------------------------------------------------------------------------
  // Values of one JSON type

  function AsDict(j: Json): Load<Fields> { if j.Object? then Loaded(j.fields) else Rejected }

  function AsInt(j: Json): Load<int> { if j.Int? then Loaded(j.n) else Rejected }

  function AsBool(j: Json): Load<bool> { if j.Bool? then Loaded(j.b) else Rejected }

  function AsText(j: Json): Load<Text> { if j.Str? then Loaded(j.s) else Rejected }

  /** null, or a value. */
  function AsOption<T>(j: Json, from: Json -> Load<T>): Load<Option<T>> {
    if j.Null? then Loaded(None) else var v :- from(j); Loaded(Some(v))
  }

  function FromOption<T>(o: Option<T>, to: T -> Json): Json {
    match o case None => Null case Some(v) => to(v)
  }

  /** [from(item) for item in items], which raises when one of the calls does. */
  function LoadAll<T>(items: seq<Json>, from: Json -> Load<T>): Load<seq<T>> {
    if items == [] then Loaded([])
    else
      var first :- from(items[0]);
      var rest :- LoadAll(items[1..], from);
      Loaded([first] + rest)
  }

  /** [f(v) for v in values]. */
  function MapAll<S, T>(values: seq<S>, f: S -> T): (r: seq<T>)
    ensures |r| == |values|
    ensures forall i :: 0 <= i < |values| ==> r[i] == f(values[i])
  {
    seq(|values|, i requires 0 <= i < |values| => f(values[i]))
  }

  function AsList<T>(j: Json, from: Json -> Load<T>): Load<seq<T>> {
    if j.List? then LoadAll(j.items, from) else Rejected
  }

  function FromList<T>(values: seq<T>, to: T -> Json): Json { List(MapAll(values, to)) }

  lemma {:induction false} ListRoundTrip<T>(values: seq<T>, to: T -> Json, from: Json -> Load<T>, norm: T -> T)
    requires forall v :: v in values ==> from(to(v)) == Loaded(norm(v))
    ensures AsList(FromList(values, to), from) == Loaded(MapAll(values, norm))
  {
    if values != [] {
      var rest := values[1..];
      assert forall v :: v in rest ==> v in values;
      ListRoundTrip(rest, to, from, norm);
      assert MapAll(values, to)[1..] == MapAll(rest, to);
      assert MapAll(values, norm) == [norm(values[0])] + MapAll(rest, norm);
    }
  }

  function IntJson(k: int): Json { Int(k) }

  function TextJson(t: Text): Json { Str(t) }

  function AsInts(j: Json): Load<seq<int>> { AsList(j, AsInt) }

  function AsTexts(j: Json): Load<seq<Text>> { AsList(j, AsText) }

  function FromInts(ks: seq<int>): Json { FromList(ks, IntJson) }

  function FromTexts(ts: seq<Text>): Json { FromList(ts, TextJson) }

  function Same<T>(v: T): T { v }

  lemma SameAll<T>(values: seq<T>, norm: T -> T)
    requires forall v :: v in values ==> norm(v) == v
    ensures MapAll(values, norm) == values
  {
  }

  lemma IntsRoundTrip(ks: seq<int>)
    ensures AsInts(FromInts(ks)) == Loaded(ks)
  {
    ListRoundTrip(ks, IntJson, AsInt, Same);
    SameAll(ks, Same);
  }

  lemma TextsRoundTrip(ts: seq<Text>)
    ensures AsTexts(FromTexts(ts)) == Loaded(ts)
  {
    ListRoundTrip(ts, TextJson, AsText, Same);
    SameAll(ts, Same);
  }

  // ---------------------------------------------------------------------------------------------
  // One field of one type

  function IntOf(v: Load<Json>): Load<int> { var j :- v; AsInt(j) }

  function TextOf(v: Load<Json>): Load<Text> { var j :- v; AsText(j) }

  function DictOf(v: Load<Json>): Load<Fields> { var j :- v; AsDict(j) }

  function ListOf<T>(v: Load<Json>, from: Json -> Load<T>): Load<seq<T>> { var j :- v; AsList(j, from) }

  /** The value under a key that may be absent or null. */
  function OptionOf<T>(v: Load<Json>, from: Json -> Load<T>): Load<Option<T>> {
    match v case Rejected => Loaded(None) case Loaded(j) => AsOption(j, from)
  }

  function IntAt(d: Fields, n: Naming, f: Field): Load<int> { IntOf(At(d, n, f)) }

  function BoolAt(d: Fields, n: Naming, f: Field): Load<bool> { var j :- At(d, n, f); AsBool(j) }

  function TextAt(d: Fields, n: Naming, f: Field): Load<Text> { TextOf(At(d, n, f)) }

  function TextsAt(d: Fields, n: Naming, f: Field): Load<seq<Text>> { var j :- At(d, n, f); AsTexts(j) }

  function IntsAt(d: Fields, n: Naming, f: Field): Load<seq<int>> { var j :- At(d, n, f); AsInts(j) }

  function OptTextAt(d: Fields, n: Naming, f: Field): Load<Option<Text>> {
    var j :- At(d, n, f); AsOption(j, AsText)
  }

  function OptIntAt(d: Fields, n: Naming, f: Field): Load<Option<int>> {
    var j :- At(d, n, f); AsOption(j, AsInt)
  }

  function OptIntsAt(d: Fields, n: Naming, f: Field): Load<Option<seq<int>>> {
    var j :- At(d, n, f); AsOption(j, AsInts)
  }

  lemma OptIntsRoundTrip(ks: Option<seq<int>>)
    ensures AsOption(FromOption(ks, FromInts), AsInts) == Loaded(ks)
  {
    if ks.Some? {
      IntsRoundTrip(ks.value);
    }
  }

  lemma OptTextRoundTrip(t: Option<Text>)
    ensures AsOption(FromOption(t, TextJson), AsText) == Loaded(t)
  {
  }

  // ---------------------------------------------------------------------------------------------
  // Dictionaries keyed by an entity id

  lemma DecimalInjectiveForAll()
    ensures forall a, b :: Decimal(a) == Decimal(b) ==> a == b
  {
    forall a, b | Decimal(a) == Decimal(b) ensures a == b {
      DecimalInjective(a, b);
    }
  }

  /** {str(id): to(entity)} for numeric ids. */
  function DumpById<T>(m: map<int, T>, to: T -> Json): Fields {
    DecimalInjectiveForAll();
    map id | id in m :: Decimal(id) := to(m[id])
  }

  /** {key: f(value)}. */
  function MapValues<K(==), S, T>(m: map<K, S>, f: S -> T): map<K, T> {
    map k | k in m :: f(m[k])
  }

  /** Every key reads as a number, and no two keys as the same one. */
  predicate NumericKeys(d: Fields) {
    && (forall k :: k in d ==> ParseInt(k).Some?)
    && (forall k, l :: k in d && l in d && ParseInt(k) == ParseInt(l) ==> k == l)
  }

  predicate AllLoad<T>(d: Fields, from: Json -> Load<T>) {
    forall k :: k in d ==> from(d[k]).Loaded?
  }

  function Rekeyed<T>(d: Fields, from: Json -> Load<T>): map<int, T>
    requires NumericKeys(d) && AllLoad(d, from)
  {
    map k | k in d :: ParseInt(k).value := from(d[k]).value
  }

  /** {int(key): from(value)}. */
  function LoadById<T>(d: Fields, from: Json -> Load<T>): Load<map<int, T>> {
    if NumericKeys(d) && AllLoad(d, from) then Loaded(Rekeyed(d, from)) else Rejected
  }

  /** {str(key): from(value)}. */
  function LoadByName<T>(d: Fields, from: Json -> Load<T>): Load<map<Text, T>> {
    if AllLoad(d, from) then Loaded(map k | k in d :: from(d[k]).value) else Rejected
  }

  lemma DumpedIds<T>(m: map<int, T>, to: T -> Json)
    ensures var d := DumpById(m, to);
      && (forall id :: id in m ==> Decimal(id) in d && d[Decimal(id)] == to(m[id]))
      && (forall k :: k in d ==> ParseInt(k).Some? && ParseInt(k).value in m && k == Decimal(ParseInt(k).value))
  {
    DecimalInjectiveForAll();
    forall id ensures ParseInt(Decimal(id)) == Some(id) {
      DecimalRoundTrip(id);
    }
  }

  /** What is written depends only on what is written for each entity. */
  lemma DumpAgrees<T>(a: map<int, T>, b: map<int, T>, to: T -> Json)
    requires a.Keys == b.Keys
    requires forall id :: id in a ==> to(a[id]) == to(b[id])
    ensures DumpById(a, to) == DumpById(b, to)
  {
    DumpedIds(a, to);
    DumpedIds(b, to);
    var x, y := DumpById(a, to), DumpById(b, to);
    forall k ensures (k in x <==> k in y) && (k in x ==> x[k] == y[k]) {
    }
    assert x == y;
  }

  predicate Canonical(d: Fields) {
    forall k :: k in d ==> ParseInt(k).Some? && k == Decimal(ParseInt(k).value)
  }

  lemma CanonicalIsNumeric(d: Fields)
    requires Canonical(d)
    ensures NumericKeys(d)
  {
  }

  lemma LoadedIds<T>(d: Fields, from: Json -> Load<T>, back: map<int, T>)
    requires NumericKeys(d) && AllLoad(d, from)
    requires forall k :: k in d ==> ParseInt(k).value in back && from(d[k]).value == back[ParseInt(k).value]
    requires forall id :: id in back ==> exists k :: k in d && ParseInt(k).value == id
    ensures Rekeyed(d, from) == back
  {
    var got := Rekeyed(d, from);
    forall k | k in d ensures ParseInt(k).value in got && got[ParseInt(k).value] == from(d[k]).value {
    }
    forall id ensures id in got <==> id in back {
      if id in back {
        var k :| k in d && ParseInt(k).value == id;
        assert ParseInt(k).value in got;
      }
      if id in got {
        var k :| k in d && ParseInt(k).value == id;
      }
    }
    forall id | id in back ensures got[id] == back[id] {
      var k :| k in d && ParseInt(k).value == id;
    }
    assert got == back;
  }

  /** No entity is lost or moved by writing its id as a decimal key. */
  lemma ByIdRoundTrip<T>(m: map<int, T>, to: T -> Json, from: Json -> Load<T>, norm: T -> T)
    requires forall id :: id in m ==> from(to(m[id])) == Loaded(norm(m[id]))
    ensures LoadById(DumpById(m, to), from) == Loaded(MapValues(m, norm))
  {
    var d := DumpById(m, to);
    DumpedIds(m, to);
    CanonicalIsNumeric(d);
    forall id | id in m ensures exists k :: k in d && ParseInt(k).value == id {
      DecimalRoundTrip(id);
      assert Decimal(id) in d;
    }
    LoadedIds(d, from, MapValues(m, norm));
  }

  lemma ByNameRoundTrip<T>(m: map<Text, T>, to: T -> Json, from: Json -> Load<T>, norm: T -> T)
    requires forall id :: id in m ==> from(to(m[id])) == Loaded(norm(m[id]))
    ensures LoadByName(MapValues(m, to), from) == Loaded(MapValues(m, norm))
  {
    var d := MapValues(m, to);
    assert forall k :: k in d ==> d[k] == to(m[k]);
    assert LoadByName(d, from).value == MapValues(m, norm);
  }
}
