/** reporting/redact.py: replacing every process's command line, in place, in a raw snapshot. */
module Redaction {
  import opened Text
  import opened Snapshots
  import opened Records

  function Placeholder(): seq<Text> { [Lit("[redacted]")] }

  // ---------------------------------------------------------------------------------------------
  // On JSON values

  function RedactedFields(d: Fields, n: Naming): Fields {
    if n(CmdlineKey) in d then d[n(CmdlineKey) := FromTexts(Placeholder())] else d
  }

  function RedactedEntity(j: Json, n: Naming): Json {
    if j.Object? then Object(RedactedFields(j.fields, n)) else j
  }

  function RedactedEntities(d: Fields, n: Naming): (r: Fields)
    ensures r.Keys == d.Keys
  {
    map k | k in d :: RedactedEntity(d[k], n)
  }

  /** An object whose entities, when it has any, are an object; redaction raises on anything else. */
  predicate RedactableObservation(j: Json, n: Naming) {
    j.Object? && (n(EntitiesKey) in j.fields ==> j.fields[n(EntitiesKey)].Object?)
  }

  function RedactedObservation(j: Json, n: Naming): Json
    requires RedactableObservation(j, n)
  {
    if n(EntitiesKey) !in j.fields then j
    else Object(j.fields[n(EntitiesKey) := Object(RedactedEntities(j.fields[n(EntitiesKey)].fields, n))])
  }

  predicate RedactableItems(items: seq<Json>, n: Naming) {
    forall i :: 0 <= i < |items| ==> RedactableObservation(items[i], n)
  }

  function RedactedItems(items: seq<Json>, n: Naming): (r: seq<Json>)
    requires RedactableItems(items, n)
    ensures |r| == |items| && forall i :: 0 <= i < |items| ==> r[i] == RedactedObservation(items[i], n)
  {
    seq(|items|, i requires 0 <= i < |items| => RedactedObservation(items[i], n))
  }

  predicate Redactable(j: Json, n: Naming) {
    j.Object? && (n(ObservationsKey) in j.fields ==>
                    && j.fields[n(ObservationsKey)].List?
                    && RedactableItems(j.fields[n(ObservationsKey)].items, n))
  }

  function Redacted(j: Json, n: Naming): Json
    requires Redactable(j, n)
  {
    if n(ObservationsKey) !in j.fields then j
    else Object(j.fields[n(ObservationsKey) := List(RedactedItems(j.fields[n(ObservationsKey)].items, n))])
  }

  /** redact_snapshot, which raises on observations it cannot walk. */
  function RedactSnapshot(j: Json, n: Naming): Load<Json> {
    if Redactable(j, n) then Loaded(Redacted(j, n)) else Rejected
  }

  // ---------------------------------------------------------------------------------------------
  // What redaction forgets

  /** The same keys, and the same value under each key other than `except`. */
  predicate AgreeOutside(a: Fields, b: Fields, except: Text) {
    a.Keys == b.Keys && forall k :: k in a && k != except ==> a[k] == b[k]
  }

  predicate EntitiesAgree(a: Json, b: Json, n: Naming) {
    a == b || (a.Object? && b.Object? && AgreeOutside(a.fields, b.fields, n(CmdlineKey)))
  }

  predicate ObservationsAgree(a: Json, b: Json, n: Naming)
    requires RedactableObservation(a, n) && RedactableObservation(b, n)
  {
    && AgreeOutside(a.fields, b.fields, n(EntitiesKey))
    && (n(EntitiesKey) in a.fields ==>
          var x, y := a.fields[n(EntitiesKey)].fields, b.fields[n(EntitiesKey)].fields;
          x.Keys == y.Keys && forall k :: k in x ==> EntitiesAgree(x[k], y[k], n))
  }

  predicate ItemsAgree(a: seq<Json>, b: seq<Json>, n: Naming)
    requires RedactableItems(a, n) && RedactableItems(b, n)
  {
    |a| == |b| && forall i :: 0 <= i < |a| ==> ObservationsAgree(a[i], b[i], n)
  }

  /** Two raw snapshots that are the same but for the values under "cmdline" in their entities. */
  predicate SameButCmdlines(a: Json, b: Json, n: Naming)
    requires Redactable(a, n) && Redactable(b, n)
  {
    && AgreeOutside(a.fields, b.fields, n(ObservationsKey))
    && (n(ObservationsKey) in a.fields ==>
          ItemsAgree(a.fields[n(ObservationsKey)].items, b.fields[n(ObservationsKey)].items, n))
  }

  lemma FieldsForget(a: Fields, b: Fields, n: Naming)
    ensures RedactedFields(a, n) == RedactedFields(b, n) <==> AgreeOutside(a, b, n(CmdlineKey))
  {
    var x, y := RedactedFields(a, n), RedactedFields(b, n);
    assert x.Keys == a.Keys && y.Keys == b.Keys;
    assert forall k :: k in a && k != n(CmdlineKey) ==> x[k] == a[k];
    assert forall k :: k in b && k != n(CmdlineKey) ==> y[k] == b[k];
  }

  lemma EntityForgets(a: Json, b: Json, n: Naming)
    ensures RedactedEntity(a, n) == RedactedEntity(b, n) <==> EntitiesAgree(a, b, n)
  {
    if a.Object? && b.Object? {
      FieldsForget(a.fields, b.fields, n);
    }
  }

  lemma EntitiesForget(a: Fields, b: Fields, n: Naming)
    ensures RedactedEntities(a, n) == RedactedEntities(b, n)
       <==> a.Keys == b.Keys && forall k :: k in a ==> EntitiesAgree(a[k], b[k], n)
  {
    var x, y := RedactedEntities(a, n), RedactedEntities(b, n);
    if a.Keys == b.Keys {
      forall k | k in a ensures x[k] == y[k] <==> EntitiesAgree(a[k], b[k], n) {
        EntityForgets(a[k], b[k], n);
      }
      if x == y {
        assert forall k :: k in a ==> x[k] == y[k];
      }
    }
  }

  /** Replacing the value under a key that both or neither have. */
  lemma ReplaceForgets(a: Fields, b: Fields, key: Text, x: Json, y: Json)
    requires key in a && key in b
    ensures a[key := x] == b[key := y] <==> AgreeOutside(a, b, key) && x == y
  {
    var p, q := a[key := x], b[key := y];
    assert p.Keys == a.Keys && q.Keys == b.Keys;
    assert p[key] == x && q[key] == y;
    if p == q {
      forall k | k in a && k != key ensures a[k] == b[k] {
        assert p[k] == q[k];
      }
    }
  }

  lemma ObservationForgets(a: Json, b: Json, n: Naming)
    requires RedactableObservation(a, n) && RedactableObservation(b, n)
    ensures RedactedObservation(a, n) == RedactedObservation(b, n) <==> ObservationsAgree(a, b, n)
  {
    var key := n(EntitiesKey);
    if key in a.fields && key in b.fields {
      var x, y := a.fields[key].fields, b.fields[key].fields;
      EntitiesForget(x, y, n);
      ReplaceForgets(a.fields, b.fields, key, Object(RedactedEntities(x, n)), Object(RedactedEntities(y, n)));
    } else if key in a.fields {
      assert key in RedactedObservation(a, n).fields;
    } else if key in b.fields {
      assert key in RedactedObservation(b, n).fields;
    }
  }

  lemma ItemsForget(a: seq<Json>, b: seq<Json>, n: Naming)
    requires RedactableItems(a, n) && RedactableItems(b, n)
    ensures RedactedItems(a, n) == RedactedItems(b, n) <==> ItemsAgree(a, b, n)
  {
    var x, y := RedactedItems(a, n), RedactedItems(b, n);
    if |a| == |b| {
      forall i | 0 <= i < |a| ensures x[i] == y[i] <==> ObservationsAgree(a[i], b[i], n) {
        ObservationForgets(a[i], b[i], n);
      }
    }
  }

  /** Redaction forgets the command lines and nothing else. */
  lemma RedactionForgetsExactly(a: Json, b: Json, n: Naming)
    requires Redactable(a, n) && Redactable(b, n)
    ensures Redacted(a, n) == Redacted(b, n) <==> SameButCmdlines(a, b, n)
  {
    var key := n(ObservationsKey);
    if key in a.fields && key in b.fields {
      var x, y := a.fields[key].items, b.fields[key].items;
      ItemsForget(x, y, n);
      ReplaceForgets(a.fields, b.fields, key, List(RedactedItems(x, n)), List(RedactedItems(y, n)));
    } else if key in a.fields {
      assert key in Redacted(a, n).fields;
    } else if key in b.fields {
      assert key in Redacted(b, n).fields;
    }
  }

  // ---------------------------------------------------------------------------------------------
  // Redacting twice

  lemma FieldsTwice(d: Fields, n: Naming)
    ensures RedactedFields(RedactedFields(d, n), n) == RedactedFields(d, n)
  {
  }

  lemma EntitiesTwice(d: Fields, n: Naming)
    ensures RedactedEntities(RedactedEntities(d, n), n) == RedactedEntities(d, n)
  {
    forall k | k in d ensures RedactedEntity(RedactedEntity(d[k], n), n) == RedactedEntity(d[k], n) {
      if d[k].Object? {
        FieldsTwice(d[k].fields, n);
      }
    }
  }

  lemma ObservationTwice(j: Json, n: Naming)
    requires RedactableObservation(j, n)
    ensures var r := RedactedObservation(j, n);
      RedactableObservation(r, n) && RedactedObservation(r, n) == r
  {
    if n(EntitiesKey) in j.fields {
      EntitiesTwice(j.fields[n(EntitiesKey)].fields, n);
    }
  }

  lemma RedactionIdempotent(j: Json, n: Naming)
    requires Redactable(j, n)
    ensures Redactable(Redacted(j, n), n) && Redacted(Redacted(j, n), n) == Redacted(j, n)
    ensures SameButCmdlines(j, Redacted(j, n), n)
  {
    if n(ObservationsKey) in j.fields {
      var items := j.fields[n(ObservationsKey)].items;
      forall i | 0 <= i < |items|
        ensures RedactableObservation(RedactedItems(items, n)[i], n)
        ensures RedactedObservation(RedactedItems(items, n)[i], n) == RedactedItems(items, n)[i]
      {
        ObservationTwice(items[i], n);
      }
      assert RedactedItems(RedactedItems(items, n), n) == RedactedItems(items, n);
    }
    RedactionForgetsExactly(j, Redacted(j, n), n);
  }

  // ---------------------------------------------------------------------------------------------
  // In place

  /** One entity of a raw snapshot, as the dictionary that the loop overwrites. */
  class EntityDict {
    var fields: Fields

    constructor (fields: Fields)
      ensures this.fields == fields
    {
      this.fields := fields;
    }
  }

  datatype RawEntity = Shared(dict: EntityDict) | Plain(value: Json)

  datatype RawObservation = RawObservation(rest: Fields, entities: Option<map<Text, RawEntity>>)

  datatype RawSnapshot = RawSnapshot(rest: Fields, observations: Option<seq<RawObservation>>)

  /** A value that is not a dictionary is not one of the shared ones, and the two keys that the loops
      follow are not among the rest. */
  predicate ProperObservation(o: RawObservation, n: Naming) {
    && (o.entities.None? ==> n(EntitiesKey) !in o.rest)
    && (o.entities.Some? ==> forall k :: k in o.entities.value && o.entities.value[k].Plain?
                                         ==> !o.entities.value[k].value.Object?)
  }

  predicate Proper(raw: RawSnapshot, n: Naming) {
    && (raw.observations.None? ==> n(ObservationsKey) !in raw.rest)
    && (raw.observations.Some? ==> forall o :: o in raw.observations.value ==> ProperObservation(o, n))
  }

  function DictsIn(m: map<Text, RawEntity>): set<EntityDict> {
    set k | k in m && m[k].Shared? :: m[k].dict
  }

  function DictsOf(o: RawObservation): set<EntityDict> {
    if o.entities.Some? then DictsIn(o.entities.value) else {}
  }

  function DictsOfAll(os: seq<RawObservation>): set<EntityDict> {
    set i, k | 0 <= i < |os| && os[i].entities.Some? && k in os[i].entities.value
               && os[i].entities.value[k].Shared? :: os[i].entities.value[k].dict
  }

  function Dicts(raw: RawSnapshot): set<EntityDict> {
    if raw.observations.Some? then DictsOfAll(raw.observations.value) else {}
  }

  lemma DictsOfMember(os: seq<RawObservation>, i: nat)
    requires i < |os|
    ensures DictsOf(os[i]) <= DictsOfAll(os)
    ensures DictsOfAll(os[..i + 1]) == DictsOfAll(os[..i]) + DictsOf(os[i])
    ensures DictsOfAll(os[..i]) <= DictsOfAll(os)
  {
    assert os[..i + 1] == os[..i] + [os[i]];
  }

  /** What the dictionaries hold at one moment. */
  type State = map<EntityDict, Fields>

  function StateOf(raw: RawSnapshot): State
    reads Dicts(raw)
  {
    map d | d in Dicts(raw) :: d.fields
  }

  function RedactedState(at: State, n: Naming): State {
    map d | d in at :: RedactedFields(at[d], n)
  }

  function EntityValue(e: RawEntity, at: State): Json {
    match e
    case Shared(d) => Object(if d in at then at[d] else map[])
    case Plain(j) => j
  }

  function EntitiesValue(m: map<Text, RawEntity>, at: State): Fields {
    map k | k in m :: EntityValue(m[k], at)
  }

  function ObservationValue(o: RawObservation, at: State, n: Naming): Json {
    if o.entities.None? then Object(o.rest)
    else Object(o.rest[n(EntitiesKey) := Object(EntitiesValue(o.entities.value, at))])
  }

  function ItemsValue(os: seq<RawObservation>, at: State, n: Naming): seq<Json> {
    seq(|os|, i requires 0 <= i < |os| => ObservationValue(os[i], at, n))
  }

  /** The JSON value of a raw snapshot whose dictionaries hold `at`. */
  function SnapshotValue(raw: RawSnapshot, at: State, n: Naming): Json {
    if raw.observations.None? then Object(raw.rest)
    else Object(raw.rest[n(ObservationsKey) := List(ItemsValue(raw.observations.value, at, n))])
  }

  /** The JSON value that a raw snapshot holds now. */
  function ValueOf(raw: RawSnapshot, n: Naming): Json
    reads Dicts(raw)
  {
    SnapshotValue(raw, StateOf(raw), n)
  }

  lemma EntitiesValueRedacted(m: map<Text, RawEntity>, at: State, n: Naming)
    requires DictsIn(m) <= at.Keys
    requires forall k :: k in m && m[k].Plain? ==> !m[k].value.Object?
    ensures EntitiesValue(m, RedactedState(at, n)) == RedactedEntities(EntitiesValue(m, at), n)
  {
    forall k | k in m ensures EntityValue(m[k], RedactedState(at, n)) == RedactedEntity(EntityValue(m[k], at), n) {
      if m[k].Shared? {
        assert m[k].dict in DictsIn(m);
      }
    }
  }

  lemma ObservationValueRedacted(o: RawObservation, at: State, n: Naming)
    requires ProperObservation(o, n) && DictsOf(o) <= at.Keys
    ensures RedactableObservation(ObservationValue(o, at, n), n)
    ensures ObservationValue(o, RedactedState(at, n), n) == RedactedObservation(ObservationValue(o, at, n), n)
  {
    if o.entities.Some? {
      EntitiesValueRedacted(o.entities.value, at, n);
    }
  }

  lemma ItemsValueRedacted(os: seq<RawObservation>, at: State, n: Naming)
    requires (forall o :: o in os ==> ProperObservation(o, n)) && DictsOfAll(os) <= at.Keys
    ensures RedactableItems(ItemsValue(os, at, n), n)
    ensures ItemsValue(os, RedactedState(at, n), n) == RedactedItems(ItemsValue(os, at, n), n)
  {
    forall i | 0 <= i < |os|
      ensures RedactableObservation(ObservationValue(os[i], at, n), n)
      ensures ObservationValue(os[i], RedactedState(at, n), n) == RedactedObservation(ObservationValue(os[i], at, n), n)
    {
      DictsOfMember(os, i);
      ObservationValueRedacted(os[i], at, n);
    }
  }

  /** Redacting the dictionaries redacts the value. */
  lemma SnapshotValueRedacted(raw: RawSnapshot, at: State, n: Naming)
    requires Proper(raw, n) && Dicts(raw) <= at.Keys
    ensures RedactSnapshot(SnapshotValue(raw, at, n), n) == Loaded(SnapshotValue(raw, RedactedState(at, n), n))
  {
    if raw.observations.Some? {
      var os, key := raw.observations.value, n(ObservationsKey);
      ItemsValueRedacted(os, at, n);
      var before, after := List(ItemsValue(os, at, n)), List(ItemsValue(os, RedactedState(at, n), n));
      assert raw.rest[key := before][key := after] == raw.rest[key := after];
    }
  }

  method RedactDict(d: EntityDict, n: Naming)
    modifies d
    ensures d.fields == RedactedFields(old(d.fields), n)
  {
    if n(CmdlineKey) in d.fields {
      d.fields := d.fields[n(CmdlineKey) := FromTexts(Placeholder())];
    }
  }

  /** for entity in entities.values(): one dictionary may be there under several keys. */
  method RedactEntities(m: map<Text, RawEntity>, n: Naming)
    modifies DictsIn(m)
    ensures forall d :: d in DictsIn(m) ==> d.fields == RedactedFields(old(d.fields), n)
  {
    var todo := m.Keys;
    while todo != {}
      invariant todo <= m.Keys
      invariant forall d :: d in DictsIn(m) ==> RedactedFields(d.fields, n) == RedactedFields(old(d.fields), n)
      invariant forall k :: k in m && k !in todo && m[k].Shared? ==>
                  m[k].dict.fields == RedactedFields(old(m[k].dict.fields), n)
      decreases todo
    {
      var k :| k in todo;
      todo := todo - {k};
      if m[k].Shared? {
        FieldsTwice(m[k].dict.fields, n);
        RedactDict(m[k].dict, n);
      }
    }
  }

  method RedactLoops(os: seq<RawObservation>, n: Naming)
    modifies DictsOfAll(os)
    ensures forall d :: d in DictsOfAll(os) ==> d.fields == RedactedFields(old(d.fields), n)
  {
    for i := 0 to |os|
      invariant forall d :: d in DictsOfAll(os) ==> RedactedFields(d.fields, n) == RedactedFields(old(d.fields), n)
      invariant forall d :: d in DictsOfAll(os[..i]) ==> d in DictsOfAll(os) && d.fields == RedactedFields(old(d.fields), n)
    {
      DictsOfMember(os, i);
      ghost var was := map d | d in DictsOfAll(os) :: d.fields;
      forall d | d in DictsOfAll(os) ensures RedactedFields(RedactedFields(was[d], n), n) == RedactedFields(was[d], n) {
        FieldsTwice(was[d], n);
      }
      if os[i].entities.Some? {
        RedactEntities(os[i].entities.value, n);
      }
    }
    assert os[..|os|] == os;
  }

  /** What the loops leave is the redaction of what was there, even when one dictionary is in several
      places: it is then redacted several times, which is the same as once. */
  method RedactInPlace(raw: RawSnapshot, n: Naming)
    requires Proper(raw, n)
    modifies Dicts(raw)
    ensures RedactSnapshot(old(ValueOf(raw, n)), n) == Loaded(ValueOf(raw, n))
  {
    if raw.observations.Some? {
      RedactLoops(raw.observations.value, n);
    }
    assert StateOf(raw) == RedactedState(old(StateOf(raw)), n);
    SnapshotValueRedacted(raw, old(StateOf(raw)), n);
  }
}
