/** collectors/procfs.py: one process observation from an arbitrary /proc. */
module ProcfsCollector {
  import opened Text
  import opened Sorting
  import opened Snapshots
  import opened Findings
  import opened ProcfsParsers

  /** What a read can come to (collectors/base.py): a value or one of the three failures. */
  datatype Outcome<+T> =
    | Got(value: T)
    | VanishedError(detail: Text)
    | DeniedError(detail: Text)
    | UnreadableError(detail: Text)

  /** An arbitrary source. message is the text of a ParseError on a file of a process. */
  datatype ProcSource = ProcSource(
    pids: Outcome<seq<int>>,
    text: (int, Field) -> Outcome<Text>,
    link: (int, Field) -> Outcome<Text>,
    message: (int, Field) -> Text)

  datatype Field = StatFile | CmdlineFile | StatusFile | ExeLink

  function FieldName(f: Field): Text {
    match f
    case StatFile => Lit("stat")
    case CmdlineFile => Lit("cmdline")
    case StatusFile => Lit("status")
    case ExeLink => Lit("exe")
  }

  // ---------------------------------------------------------------------------------------------
  // One attempt to read a field

  /** A read followed by a parse: a value, nothing there, or a failure of a kind. */
  datatype Attempt<+T> = Value(v: T) | Absent(detail: Text) | Failure(kind: ErrorKind, detail: Text)

  function Try<A, B>(read: Outcome<A>, parse: A -> Option<B>, message: Text): Attempt<B> {
    match read
    case VanishedError(d) => Absent(d)
    case DeniedError(d) => Failure(Denied, d)
    case UnreadableError(d) => Failure(IoError, d)
    case Got(v) => match parse(v) case None => Failure(Malformed, message) case Some(b) => Value(b)
  }

  function TryStat(s: ProcSource, pid: int): Attempt<StatFields> {
    Try(s.text(pid, StatFile), ParseStat, s.message(pid, StatFile))
  }

  function TryCmdline(s: ProcSource, pid: int): Attempt<seq<Text>> {
    Try(s.text(pid, CmdlineFile), t => Some(ParseCmdline(t)), s.message(pid, CmdlineFile))
  }

  function TryStatus(s: ProcSource, pid: int): Attempt<StatusFields> {
    Try(s.text(pid, StatusFile), ParseStatus, s.message(pid, StatusFile))
  }

  function TryExe(s: ProcSource, pid: int): Attempt<Text> {
    Try(s.link(pid, ExeLink), t => Some(t), s.message(pid, ExeLink))
  }

  function ErrorIfFailed<T>(a: Attempt<T>, pid: int): seq<CollectionError> {
    if a.Failure? then [CollectionError(Some(pid), a.kind, a.detail)] else []
  }

  function NameIfFailed<T>(a: Attempt<T>, f: Field): seq<Text> {
    if a.Failure? then [FieldName(f)] else []
  }

  /** _optional: the value or nothing; a failure names the field and records an error. */
  method Optional<T>(a: Attempt<T>, pid: int, f: Field, partial: seq<Text>, errors: seq<CollectionError>)
    returns (value: Option<T>, degraded: bool, partial': seq<Text>, errors': seq<CollectionError>)
    ensures value == if a.Value? then Some(a.v) else None
    ensures degraded == a.Failure?
    ensures partial' == partial + NameIfFailed(a, f)
    ensures errors' == errors + ErrorIfFailed(a, pid)
  {
    value, degraded, partial', errors' := None, false, partial, errors;
    match a
    case Value(v) => value := Some(v);
    case Absent(_) =>
    case Failure(kind, detail) =>
      partial' := partial + [FieldName(f)];
      errors' := errors + [CollectionError(Some(pid), kind, detail)];
      degraded := true;
  }

  // ---------------------------------------------------------------------------------------------
  // One process

  /** The optional fields that could not be read, in reading order. */
  function FailedFields(s: ProcSource, pid: int): seq<Text> {
    NameIfFailed(TryCmdline(s, pid), CmdlineFile) + NameIfFailed(TryStatus(s, pid), StatusFile)
    + NameIfFailed(TryExe(s, pid), ExeLink)
  }

  function OptionalErrors(s: ProcSource, pid: int): seq<CollectionError> {
    ErrorIfFailed(TryCmdline(s, pid), pid) + ErrorIfFailed(TryStatus(s, pid), pid) + ErrorIfFailed(TryExe(s, pid), pid)
  }

  function ValueOf<T>(a: Attempt<T>): Option<T> {
    if a.Value? then Some(a.v) else None
  }

  function EntityFrom(stat: StatFields, cmdline: Option<seq<Text>>, creds: Option<StatusFields>, exe: Option<Text>,
                      partial: seq<Text>): ProcessEntity {
    ProcessEntity(
      stat.pid, stat.ppid, stat.comm, stat.state, stat.flags, stat.numThreads, stat.starttime,
      if cmdline.Some? then cmdline.value else [], exe,
      if creds.Some? then Some(creds.value.uid) else None, if creds.Some? then Some(creds.value.gid) else None,
      SortBy(partial, TextKey))
  }

  /** What the source lets one say about a process whose stat it could read. */
  function EntityOf(s: ProcSource, pid: int): ProcessEntity
    requires TryStat(s, pid).Value?
  {
    EntityFrom(TryStat(s, pid).v, ValueOf(TryCmdline(s, pid)), ValueOf(TryStatus(s, pid)), ValueOf(TryExe(s, pid)),
               FailedFields(s, pid))
  }

  predicate IsGone(s: ProcSource, pid: int) { TryStat(s, pid).Absent? }

  predicate IsUndescribed(s: ProcSource, pid: int) { TryStat(s, pid).Failure? }

  predicate IsDescribed(s: ProcSource, pid: int) { TryStat(s, pid).Value? }

  /** The errors one process contributes, in order. */
  function ErrorsOf(s: ProcSource, pid: int): seq<CollectionError> {
    match TryStat(s, pid)
    case Absent(d) => [CollectionError(Some(pid), Vanished, d)]
    case Failure(kind, d) => [CollectionError(Some(pid), kind, d)]
    case Value(_) => OptionalErrors(s, pid)
  }

  predicate Degrades(s: ProcSource, pid: int) {
    IsUndescribed(s, pid) || (IsDescribed(s, pid) && FailedFields(s, pid) != [])
  }

  // ---------------------------------------------------------------------------------------------
  // All processes

  function Present(s: ProcSource, pids: seq<int>): (r: seq<int>)
    ensures forall p :: p in r <==> p in pids && !IsGone(s, p)
  {
    if pids == [] then []
    else Present(s, pids[..|pids| - 1]) + if IsGone(s, pids[|pids| - 1]) then [] else [pids[|pids| - 1]]
  }

  function GoneCount(s: ProcSource, pids: seq<int>): nat {
    if pids == [] then 0 else GoneCount(s, pids[..|pids| - 1]) + if IsGone(s, pids[|pids| - 1]) then 1 else 0
  }

  function AllErrors(s: ProcSource, pids: seq<int>): seq<CollectionError> {
    if pids == [] then [] else AllErrors(s, pids[..|pids| - 1]) + ErrorsOf(s, pids[|pids| - 1])
  }

  function AllEntities(s: ProcSource, pids: seq<int>): map<int, ProcessEntity> {
    map p | p in pids && IsDescribed(s, p) :: EntityOf(s, p)
  }

  predicate AnyDegrades(s: ProcSource, pids: seq<int>) {
    exists i :: 0 <= i < |pids| && Degrades(s, pids[i])
  }

  function Counts(scanned: nat, collected: nat, vanished: nat): map<Text, Json> {
    map[Lit("scanned") := Int(scanned), Lit("collected") := Int(collected), Lit("vanished") := Int(vanished)]
  }

  const VERSION := Lit("1")
  const PROCESS_VIEW := Lit("processes")

  function ProcessObservation(status: Status, ids: seq<int>, entities: map<int, ProcessEntity>,
                              stats: map<Text, Json>, errors: seq<CollectionError>, pass: Option<Text>,
                              durationMs: int): Observation {
    Observation(Processes(ids, entities), VERSION, PROCESS_VIEW, TrustLow, status, durationMs, stats, errors, pass, None)
  }

  /** The observation of a source. */
  function Collected(s: ProcSource, pass: Option<Text>, durationMs: int): Observation {
    if s.pids.Got? then
      var pids := s.pids.value;
      ProcessObservation(
        if AnyDegrades(s, pids) then Partial else Ok,
        SortBy(Present(s, pids), IntKey), AllEntities(s, pids),
        Counts(|pids|, |AllEntities(s, pids)|, GoneCount(s, pids)), AllErrors(s, pids), pass, durationMs)
    else
      ProcessObservation(Failed, [], map[], Counts(0, 0, 0), [CollectionError(None, IoError, s.pids.detail)],
                         pass, durationMs)
  }

  lemma AnyDegradesStep(s: ProcSource, pids: seq<int>, i: nat)
    requires i < |pids|
    ensures AnyDegrades(s, pids[..i + 1]) <==> AnyDegrades(s, pids[..i]) || Degrades(s, pids[i])
  {
    var more := pids[..i + 1];
    assert more[i] == pids[i] && forall j :: 0 <= j < i ==> more[j] == pids[..i][j];
  }

  lemma EntitiesStep(s: ProcSource, pids: seq<int>, i: nat)
    requires i < |pids|
    ensures AllEntities(s, pids[..i + 1])
         == if IsDescribed(s, pids[i]) then AllEntities(s, pids[..i])[pids[i] := EntityOf(s, pids[i])]
            else AllEntities(s, pids[..i])
  {
    assert pids[..i + 1] == pids[..i] + [pids[i]];
  }

  lemma ListsStep(s: ProcSource, pids: seq<int>, i: nat)
    requires i < |pids|
    ensures Present(s, pids[..i + 1]) == Present(s, pids[..i]) + if IsGone(s, pids[i]) then [] else [pids[i]]
    ensures GoneCount(s, pids[..i + 1]) == GoneCount(s, pids[..i]) + if IsGone(s, pids[i]) then 1 else 0
    ensures AllErrors(s, pids[..i + 1]) == AllErrors(s, pids[..i]) + ErrorsOf(s, pids[i])
  {
    assert pids[..i + 1][..i] == pids[..i];
  }

  lemma InTurn<T>(a: seq<T>, b: seq<T>, c: seq<T>, d: seq<T>)
    ensures a + b + c + d == a + (b + c + d)
  {
  }

  class ProcfsProcessCollector {
    const passLabel: Option<Text>

    constructor (pass: Option<Text>)
      ensures passLabel == pass
    {
      passLabel := pass;
    }

    method Describe(s: ProcSource, pid: int, errors: seq<CollectionError>)
      returns (entity: ProcessEntity, degraded: bool, errors': seq<CollectionError>)
      requires IsDescribed(s, pid)
      ensures entity == EntityOf(s, pid)
      ensures degraded == (FailedFields(s, pid) != [])
      ensures errors' == errors + OptionalErrors(s, pid)
    {
      var cmdline, d1, partial1, errors1 := Optional(TryCmdline(s, pid), pid, CmdlineFile, [], errors);
      var creds, d2, partial2, errors2 := Optional(TryStatus(s, pid), pid, StatusFile, partial1, errors1);
      var exe, d3, partial3, errors3 := Optional(TryExe(s, pid), pid, ExeLink, partial2, errors2);
      degraded := d1 || d2 || d3;
      InTurn(errors, ErrorIfFailed(TryCmdline(s, pid), pid), ErrorIfFailed(TryStatus(s, pid), pid),
             ErrorIfFailed(TryExe(s, pid), pid));
      assert partial3 == FailedFields(s, pid);
      entity := EntityFrom(TryStat(s, pid).v, cmdline, creds, exe, partial3);
      errors' := errors3;
    }

    /** One process: it has vanished, or exists and cannot be described, or has an entity. */
    method Visit(s: ProcSource, pid: int, errors: seq<CollectionError>)
      returns (entity: Option<ProcessEntity>, gone: bool, degraded: bool, errors': seq<CollectionError>)
      ensures gone == IsGone(s, pid)
      ensures degraded == Degrades(s, pid)
      ensures entity == if IsDescribed(s, pid) then Some(EntityOf(s, pid)) else None
      ensures errors' == errors + ErrorsOf(s, pid)
    {
      entity, gone, degraded := None, false, false;
      match TryStat(s, pid)
      case Absent(d) =>
        gone := true;
        errors' := errors + [CollectionError(Some(pid), Vanished, d)];
      case Failure(kind, d) =>
        degraded := true;
        errors' := errors + [CollectionError(Some(pid), kind, d)];
      case Value(_) =>
        var e;
        e, degraded, errors' := Describe(s, pid, errors);
        entity := Some(e);
    }

    method Walk(s: ProcSource, pids: seq<int>)
      returns (observed: seq<int>, entities: map<int, ProcessEntity>, vanished: nat, status: Status,
               errors: seq<CollectionError>)
      ensures observed == Present(s, pids) && entities == AllEntities(s, pids) && errors == AllErrors(s, pids)
      ensures vanished == GoneCount(s, pids)
      ensures status == if AnyDegrades(s, pids) then Partial else Ok
    {
      observed, entities, vanished, status, errors := [], map[], 0, Ok, [];
      for i := 0 to |pids|
        invariant observed == Present(s, pids[..i]) && errors == AllErrors(s, pids[..i])
        invariant entities == AllEntities(s, pids[..i])
        invariant vanished == GoneCount(s, pids[..i])
        invariant status == if AnyDegrades(s, pids[..i]) then Partial else Ok
      {
        ListsStep(s, pids, i);
        EntitiesStep(s, pids, i);
        AnyDegradesStep(s, pids, i);
        var pid := pids[i];
        var entity, gone, degraded, errors' := Visit(s, pid, errors);
        errors := errors';
        if gone {
          vanished := vanished + 1;
        } else {
          observed := observed + [pid];
        }
        if degraded {
          status := Partial;
        }
        if entity.Some? {
          entities := entities[pid := entity.value];
        }
      }
      assert pids[..|pids|] == pids;
    }

    method Collect(s: ProcSource, durationMs: int) returns (o: Observation)
      ensures o == Collected(s, passLabel, durationMs)
    {
      if !s.pids.Got? {
        return ProcessObservation(Failed, [], map[], Counts(0, 0, 0),
                                  [CollectionError(None, IoError, s.pids.detail)], passLabel, durationMs);
      }
      var observed, entities, vanished, status, errors := Walk(s, s.pids.value);
      o := ProcessObservation(status, SortBy(observed, IntKey), entities,
                              Counts(|s.pids.value|, |entities|, vanished), errors, passLabel, durationMs);
    }
  }

  // ---------------------------------------------------------------------------------------------
  // Accounting

  function UndescribedCount(s: ProcSource, pids: seq<int>): nat {
    if pids == [] then 0
    else UndescribedCount(s, pids[..|pids| - 1]) + if IsUndescribed(s, pids[|pids| - 1]) then 1 else 0
  }

  /** The sizes of all partial lists together. */
  function PartialTotal(s: ProcSource, pids: seq<int>): nat {
    if pids == [] then 0
    else
      var p := pids[|pids| - 1];
      PartialTotal(s, pids[..|pids| - 1]) + if IsDescribed(s, p) then |EntityOf(s, p).partial| else 0
  }

  lemma PartialSize(s: ProcSource, pid: int)
    requires IsDescribed(s, pid)
    ensures |EntityOf(s, pid).partial| == |OptionalErrors(s, pid)|
  {
    SortSameElements(FailedFields(s, pid), TextKey);
  }

  /** Nothing scanned goes unaccounted: every pid is observed or vanished, and every error is a
      vanished pid, an undescribed one, or a field named in some entity's partial list. */
  lemma {:induction false} Accounting(s: ProcSource, pids: seq<int>)
    ensures |pids| == |Present(s, pids)| + GoneCount(s, pids)
    ensures |AllErrors(s, pids)| == GoneCount(s, pids) + UndescribedCount(s, pids) + PartialTotal(s, pids)
  {
    if pids != [] {
      var n := |pids| - 1;
      Accounting(s, pids[..n]);
      if IsDescribed(s, pids[n]) {
        PartialSize(s, pids[n]);
      }
    }
  }

  /** A failed optional read is an error that is not VANISHED. */
  lemma FailureKinds<A, B>(read: Outcome<A>, parse: A -> Option<B>, message: Text, pid: int)
    ensures var a := Try(read, parse, message);
      && (a.Failure? <==> ErrorIfFailed(a, pid) != [])
      && forall e :: e in ErrorIfFailed(a, pid) ==> e.kind != Vanished
  {
  }

  lemma OptionalKinds(s: ProcSource, pid: int)
    ensures OptionalErrors(s, pid) != [] <==> FailedFields(s, pid) != []
    ensures forall e :: e in OptionalErrors(s, pid) ==> e.kind != Vanished
  {
    FailureKinds(s.text(pid, CmdlineFile), t => Some(ParseCmdline(t)), s.message(pid, CmdlineFile), pid);
    FailureKinds(s.text(pid, StatusFile), ParseStatus, s.message(pid, StatusFile), pid);
    FailureKinds(s.link(pid, ExeLink), t => Some(t), s.message(pid, ExeLink), pid);
  }

  lemma ErrorKindsOf(s: ProcSource, pid: int)
    ensures Degrades(s, pid) <==> exists e :: e in ErrorsOf(s, pid) && e.kind != Vanished
  {
    OptionalKinds(s, pid);
    HasMember(ErrorsOf(s, pid));
  }

  lemma {:induction false} DegradesByErrors(s: ProcSource, pids: seq<int>)
    ensures AnyDegrades(s, pids) <==> exists e :: e in AllErrors(s, pids) && e.kind != Vanished
  {
    if pids != [] {
      var n := |pids| - 1;
      DegradesByErrors(s, pids[..n]);
      ErrorKindsOf(s, pids[n]);
      AnyDegradesStep(s, pids, n);
      assert pids[..n + 1] == pids;
    }
  }

  /** The status is PARTIAL exactly when some recorded error is not a vanished process, and FAILED
      exactly when the pids could not be listed. */
  lemma StatusByErrors(s: ProcSource, pass: Option<Text>, durationMs: int)
    ensures var o := Collected(s, pass, durationMs);
      && (o.status == Failed <==> !s.pids.Got?)
      && (s.pids.Got? ==> (o.status == Partial <==> exists e :: e in o.errors && e.kind != Vanished))
  {
    if s.pids.Got? {
      DegradesByErrors(s, s.pids.value);
    }
  }

  predicate Unique(pids: seq<int>) {
    forall i, j :: 0 <= i < j < |pids| ==> pids[i] != pids[j]
  }

  lemma {:induction false} PresentUnique(s: ProcSource, pids: seq<int>)
    requires Unique(pids)
    ensures Unique(Present(s, pids))
  {
    if pids != [] {
      var n := |pids| - 1;
      PresentUnique(s, pids[..n]);
      assert forall i :: 0 <= i < n ==> pids[..n][i] != pids[n];
      assert pids[n] !in Present(s, pids[..n]);
    }
  }

  lemma SortUnique(xs: seq<int>)
    requires Unique(xs)
    ensures StrictlyAscending(SortBy(xs, IntKey), IntKey)
  {
    var ys := SortBy(xs, IntKey);
    SortAscends(xs, IntKey);
    SortPermutes(xs, IntKey);
    UniqueCounts(xs);
    forall i, j | 0 <= i < j < |ys| ensures LexLt(IntKey(ys[i]), IntKey(ys[j])) {
      if ys[i] == ys[j] {
        TwiceCounted(ys, i, j);
        assert false;
      }
      assert IntKey(ys[i])[0] != IntKey(ys[j])[0];
    }
  }

  lemma {:induction false} UniqueCounts(xs: seq<int>)
    requires Unique(xs)
    ensures forall x :: multiset(xs)[x] <= 1
  {
    if xs != [] {
      var n := |xs| - 1;
      assert xs == xs[..n] + [xs[n]];
      UniqueCounts(xs[..n]);
      assert xs[n] !in xs[..n];
      assert xs[n] !in multiset(xs[..n]);
    }
  }

  lemma TwiceCounted(ys: seq<int>, i: nat, j: nat)
    requires i < j < |ys| && ys[i] == ys[j]
    ensures multiset(ys)[ys[i]] >= 2
  {
    assert ys == ys[..j] + ys[j..];
    assert ys[..j][i] == ys[i] && ys[j..][0] == ys[i];
    assert ys[i] in ys[..j] && ys[i] in ys[j..];
    assert ys[i] in multiset(ys[..j]) && ys[i] in multiset(ys[j..]);
  }

  /** Over a source that lists each pid once: entity_ids is the sorted list of the pids that had not
      vanished, every entity's id is among them, and the counters add up. */
  lemma CollectorAccounting(s: ProcSource, pass: Option<Text>, durationMs: int)
    requires s.pids.Got? && Unique(s.pids.value)
    ensures var o, pids := Collected(s, pass, durationMs), s.pids.value;
      && o.entities.pids == SortedInts(set p | p in pids && !IsGone(s, p))
      && (forall p :: p in o.entities.processes ==> p in o.entities.pids)
      && |pids| == |o.entities.pids| + GoneCount(s, pids)
      && |o.errors| == GoneCount(s, pids) + UndescribedCount(s, pids) + PartialTotal(s, pids)
  {
    var pids := s.pids.value;
    PresentUnique(s, pids);
    SortUnique(Present(s, pids));
    SortSameElements(Present(s, pids), IntKey);
    AscendingUnique(SortBy(Present(s, pids), IntKey), SortedInts(set p | p in pids && !IsGone(s, p)), IntKey);
    Accounting(s, pids);
  }

  /** An entity's partial list holds exactly the names of its fields that exist but could not be read. */
  lemma PartialIsExact(s: ProcSource, pid: int, f: Field)
    requires IsDescribed(s, pid)
    ensures Ascending(EntityOf(s, pid).partial, TextKey)
    ensures FieldName(f) in EntityOf(s, pid).partial
       <==> match f
            case CmdlineFile => TryCmdline(s, pid).Failure?
            case StatusFile => TryStatus(s, pid).Failure?
            case ExeLink => TryExe(s, pid).Failure?
            case StatFile => false
  {
    SortSameElements(FailedFields(s, pid), TextKey);
    SortAscends(FailedFields(s, pid), TextKey);
    NamesDiffer();
  }

  lemma NamesDiffer()
    ensures forall f, g :: FieldName(f) == FieldName(g) ==> f == g
  {
    forall f, g | FieldName(f) == FieldName(g) ensures f == g {
      assert |FieldName(f)| == |FieldName(g)|;
    }
  }
}
