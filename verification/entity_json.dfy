/** models.py: the JSON form of each entity, and reading it back. */
module EntityJson {
  import opened Sorting
  import opened Snapshots
  import opened Findings
  import opened Records

  function ProcessRow(v: ProcessValues): map<Field, Json> {
    map[PidKey := v.pid, PpidKey := v.ppid, CommKey := v.comm, StateKey := v.state, FlagsKey := v.flags,
        NumThreadsKey := v.numThreads, StarttimeKey := v.starttime, CmdlineKey := v.cmdline, ExeKey := v.exe,
        UidKey := v.uid, GidKey := v.gid, PartialKey := v.partial]
  }

  function ValuesOf(e: ProcessEntity): ProcessValues {
    match e
    case ProcessEntity(pid, ppid, comm, state, flags, threads, start, cmdline, exe, uid, gid, partial) =>
      ProcessValues(
        Int(pid), Int(ppid), Str(comm), Str(state), Int(flags), Int(threads), Int(start), FromTexts(cmdline),
        FromOption(exe, TextJson), FromOption(uid, FromInts), FromOption(gid, FromInts),
        FromTexts(SortBy(partial, TextKey)))
    case UntypedProcess(v) => v
  }

  function ProcessJson(e: ProcessEntity, n: Naming): Json
    requires Injective(n)
  {
    Object(Dict(ProcessRow(ValuesOf(e)), n))
  }

  /** The twelve values; a missing key raises. */
  function ProcessReads(d: Fields, n: Naming): Load<ProcessValues> {
    var pid, ppid, comm, state := At(d, n, PidKey), At(d, n, PpidKey), At(d, n, CommKey), At(d, n, StateKey);
    var flags, threads, start := At(d, n, FlagsKey), At(d, n, NumThreadsKey), At(d, n, StarttimeKey);
    var cmdline, exe, uid := At(d, n, CmdlineKey), At(d, n, ExeKey), At(d, n, UidKey);
    var gid, partial := At(d, n, GidKey), At(d, n, PartialKey);
    if pid.Rejected? || ppid.Rejected? || comm.Rejected? || state.Rejected? || flags.Rejected?
       || threads.Rejected? || start.Rejected? || cmdline.Rejected? || exe.Rejected? || uid.Rejected?
       || gid.Rejected? || partial.Rejected?
    then Rejected
    else Loaded(ProcessValues(pid.value, ppid.value, comm.value, state.value, flags.value, threads.value,
                              start.value, cmdline.value, exe.value, uid.value, gid.value, partial.value))
  }

  /** The process, when every value has its field's type. */
  function TypedProcess(v: ProcessValues): Load<ProcessEntity> {
    var pid, ppid, comm, state := AsInt(v.pid), AsInt(v.ppid), AsText(v.comm), AsText(v.state);
    var flags, threads, start := AsInt(v.flags), AsInt(v.numThreads), AsInt(v.starttime);
    var cmdline, exe := AsTexts(v.cmdline), AsOption(v.exe, AsText);
    var uid, gid, partial := AsOption(v.uid, AsInts), AsOption(v.gid, AsInts), AsTexts(v.partial);
    if pid.Rejected? || ppid.Rejected? || comm.Rejected? || state.Rejected? || flags.Rejected?
       || threads.Rejected? || start.Rejected? || cmdline.Rejected? || exe.Rejected? || uid.Rejected?
       || gid.Rejected? || partial.Rejected?
    then Rejected
    else Loaded(ProcessEntity(pid.value, ppid.value, comm.value, state.value, flags.value, threads.value,
                              start.value, cmdline.value, exe.value, uid.value, gid.value, partial.value))
  }

  /** The JSON values that list() accepts. */
  predicate Listable(j: Json) {
    j.List? || j.Str? || j.Object?
  }

  /** list() is all that loading asks of a value. */
  predicate Listables(v: ProcessValues) {
    && Listable(v.cmdline) && Listable(v.partial)
    && (v.uid.Null? || Listable(v.uid)) && (v.gid.Null? || Listable(v.gid))
  }

  function ProcessOf(v: ProcessValues): Load<ProcessEntity> {
    if !Listables(v) then Rejected
    else if TypedProcess(v).Loaded? then TypedProcess(v)
    else Loaded(UntypedProcess(v))
  }

  function ProcessFrom(j: Json, n: Naming): Load<ProcessEntity> {
    var d :- AsDict(j);
    var v :- ProcessReads(d, n);
    ProcessOf(v)
  }

  /** What one trip through JSON leaves: the list of partial fields comes back sorted. */
  function NormalProcess(e: ProcessEntity): ProcessEntity {
    match e
    case ProcessEntity(_, _, _, _, _, _, _, _, _, _, _, partial) => e.(partial := SortBy(partial, TextKey))
    case UntypedProcess(_) => e
  }

  lemma ProcessRowScalars(v: ProcessValues, n: Naming)
    requires Injective(n)
    ensures var d := Dict(ProcessRow(v), n);
      && At(d, n, PidKey) == Loaded(v.pid) && At(d, n, PpidKey) == Loaded(v.ppid) && At(d, n, CommKey) == Loaded(v.comm)
      && At(d, n, StateKey) == Loaded(v.state) && At(d, n, FlagsKey) == Loaded(v.flags)
      && At(d, n, NumThreadsKey) == Loaded(v.numThreads)
  {
    var row := ProcessRow(v);
    DictAt(row, n, PidKey);
    DictAt(row, n, PpidKey);
    DictAt(row, n, CommKey);
    DictAt(row, n, StateKey);
    DictAt(row, n, FlagsKey);
    DictAt(row, n, NumThreadsKey);
  }

  lemma ProcessRowRest(v: ProcessValues, n: Naming)
    requires Injective(n)
    ensures var d := Dict(ProcessRow(v), n);
      && At(d, n, StarttimeKey) == Loaded(v.starttime) && At(d, n, CmdlineKey) == Loaded(v.cmdline)
      && At(d, n, ExeKey) == Loaded(v.exe) && At(d, n, UidKey) == Loaded(v.uid) && At(d, n, GidKey) == Loaded(v.gid)
      && At(d, n, PartialKey) == Loaded(v.partial)
  {
    var row := ProcessRow(v);
    DictAt(row, n, StarttimeKey);
    DictAt(row, n, CmdlineKey);
    DictAt(row, n, ExeKey);
    DictAt(row, n, UidKey);
    DictAt(row, n, GidKey);
    DictAt(row, n, PartialKey);
  }

  lemma ProcessRowReads(v: ProcessValues, n: Naming)
    requires Injective(n)
    ensures ProcessReads(Dict(ProcessRow(v), n), n) == Loaded(v)
  {
    ProcessRowScalars(v, n);
    ProcessRowRest(v, n);
  }

  lemma TypedBack(e: ProcessEntity)
    requires e.ProcessEntity?
    ensures ProcessOf(ValuesOf(e)) == Loaded(NormalProcess(e))
  {
    TextsRoundTrip(e.cmdline);
    OptTextRoundTrip(e.exe);
    OptIntsRoundTrip(e.uid);
    OptIntsRoundTrip(e.gid);
    TextsRoundTrip(SortBy(e.partial, TextKey));
  }

  lemma ProcessRoundTrip(e: ProcessEntity, n: Naming)
    requires Injective(n) && e.ProcessEntity?
    ensures ProcessFrom(ProcessJson(e, n), n) == Loaded(NormalProcess(e))
  {
    ProcessRowReads(ValuesOf(e), n);
    TypedBack(e);
  }

  function SweepFields(e: SweepEntity): map<Field, Json> {
    map[TgidKey := Int(e.tgid), StatusReadableKey := Bool(e.statusReadable), CommKey := FromOption(e.comm, TextJson)]
  }

  function SweepJson(e: SweepEntity, n: Naming): Json
    requires Injective(n)
  {
    Object(Dict(SweepFields(e), n))
  }

  function SweepFrom(j: Json, n: Naming): Load<SweepEntity> {
    var d :- AsDict(j);
    var tgid, readable := IntAt(d, n, TgidKey), BoolAt(d, n, StatusReadableKey);
    var comm := OptionOf(At(d, n, CommKey), AsText);
    if tgid.Rejected? || readable.Rejected? || comm.Rejected? then Rejected
    else Loaded(SweepEntity(tgid.value, readable.value, comm.value))
  }

  lemma SweepRoundTrip(e: SweepEntity, n: Naming)
    requires Injective(n)
    ensures SweepFrom(SweepJson(e, n), n) == Loaded(e)
  {
    var values := SweepFields(e);
    DictAt(values, n, TgidKey);
    DictAt(values, n, StatusReadableKey);
    DictAt(values, n, CommKey);
    OptTextRoundTrip(e.comm);
  }

  function ModuleFields(e: ModuleEntity): map<Field, Json> {
    map[NameKey := Str(e.name), SizeKey := Int(e.size), RefcountKey := Int(e.refcount),
        DependentsKey := FromTexts(e.dependents), StateKey := Str(e.state), BaseAddrKey := Str(e.baseAddr),
        TaintKey := FromOption(e.taint, TextJson)]
  }

  function ModuleJson(e: ModuleEntity, n: Naming): Json
    requires Injective(n)
  {
    Object(Dict(ModuleFields(e), n))
  }

  function ModuleFrom(j: Json, n: Naming): Load<ModuleEntity> {
    var d :- AsDict(j);
    var name, size, refcount := TextAt(d, n, NameKey), IntAt(d, n, SizeKey), IntAt(d, n, RefcountKey);
    var dependents, state := TextsAt(d, n, DependentsKey), TextAt(d, n, StateKey);
    var base, taint := TextAt(d, n, BaseAddrKey), OptTextAt(d, n, TaintKey);
    if name.Rejected? || size.Rejected? || refcount.Rejected? || dependents.Rejected? || state.Rejected?
       || base.Rejected? || taint.Rejected?
    then Rejected
    else Loaded(ModuleEntity(name.value, size.value, refcount.value, dependents.value, state.value,
                             base.value, taint.value))
  }

  lemma ModuleRoundTrip(e: ModuleEntity, n: Naming)
    requires Injective(n)
    ensures ModuleFrom(ModuleJson(e, n), n) == Loaded(e)
  {
    var values := ModuleFields(e);
    DictAt(values, n, NameKey);
    DictAt(values, n, SizeKey);
    DictAt(values, n, RefcountKey);
    DictAt(values, n, DependentsKey);
    DictAt(values, n, StateKey);
    DictAt(values, n, BaseAddrKey);
    DictAt(values, n, TaintKey);
    TextsRoundTrip(e.dependents);
    OptTextRoundTrip(e.taint);
  }

  function HookFields(e: HookEntity): map<Field, Json> {
    map[FunctionKey := Str(e.function_), HookTypeKey := Str(e.hookType),
        CallbackKey := FromOption(e.callback, TextJson), OwnerModuleKey := FromOption(e.ownerModule, TextJson)]
  }

  function HookJson(e: HookEntity, n: Naming): Json
    requires Injective(n)
  {
    Object(Dict(HookFields(e), n))
  }

  function HookFrom(j: Json, n: Naming): Load<HookEntity> {
    var d :- AsDict(j);
    var function_, hookType := TextAt(d, n, FunctionKey), TextAt(d, n, HookTypeKey);
    var callback, owner := OptTextAt(d, n, CallbackKey), OptTextAt(d, n, OwnerModuleKey);
    if function_.Rejected? || hookType.Rejected? || callback.Rejected? || owner.Rejected? then Rejected
    else Loaded(HookEntity(function_.value, hookType.value, callback.value, owner.value))
  }

  lemma HookRoundTrip(e: HookEntity, n: Naming)
    requires Injective(n)
    ensures HookFrom(HookJson(e, n), n) == Loaded(e)
  {
    var values := HookFields(e);
    DictAt(values, n, FunctionKey);
    DictAt(values, n, HookTypeKey);
    DictAt(values, n, CallbackKey);
    DictAt(values, n, OwnerModuleKey);
    OptTextRoundTrip(e.callback);
    OptTextRoundTrip(e.ownerModule);
  }

  function SocketFields(e: SocketEntity): map<Field, Json> {
    map[InodeKey := Int(e.inode), KindKey := Str(e.kind), StateKey := FromOption(e.state, TextJson),
        LocalKey := FromOption(e.local, TextJson), RemoteKey := FromOption(e.remote, TextJson),
        UidKey := FromOption(e.uid, IntJson), InTableKey := Bool(e.inTable),
        OwnerPidsKey := FromInts(SortBy(e.ownerPids, IntKey))]
  }

  function SocketJson(e: SocketEntity, n: Naming): Json
    requires Injective(n)
  {
    Object(Dict(SocketFields(e), n))
  }

  function SocketFrom(j: Json, n: Naming): Load<SocketEntity> {
    var d :- AsDict(j);
    var inode, kind := IntAt(d, n, InodeKey), TextAt(d, n, KindKey);
    var state, local, remote := OptTextAt(d, n, StateKey), OptTextAt(d, n, LocalKey), OptTextAt(d, n, RemoteKey);
    var uid, inTable, owners := OptIntAt(d, n, UidKey), BoolAt(d, n, InTableKey), IntsAt(d, n, OwnerPidsKey);
    if inode.Rejected? || kind.Rejected? || state.Rejected? || local.Rejected? || remote.Rejected?
       || uid.Rejected? || inTable.Rejected? || owners.Rejected?
    then Rejected
    else Loaded(SocketEntity(inode.value, kind.value, state.value, local.value, remote.value, uid.value,
                             inTable.value, owners.value))
  }

  /** What one trip through JSON leaves: the owners come back sorted. */
  function NormalSocket(e: SocketEntity): SocketEntity { e.(ownerPids := SortBy(e.ownerPids, IntKey)) }

  lemma SocketRoundTrip(e: SocketEntity, n: Naming)
    requires Injective(n)
    ensures SocketFrom(SocketJson(e, n), n) == Loaded(NormalSocket(e))
  {
    var values := SocketFields(e);
    DictAt(values, n, InodeKey);
    DictAt(values, n, KindKey);
    DictAt(values, n, StateKey);
    DictAt(values, n, LocalKey);
    DictAt(values, n, RemoteKey);
    DictAt(values, n, UidKey);
    DictAt(values, n, InTableKey);
    DictAt(values, n, OwnerPidsKey);
    OptTextRoundTrip(e.state);
    OptTextRoundTrip(e.local);
    OptTextRoundTrip(e.remote);
    IntsRoundTrip(SortBy(e.ownerPids, IntKey));
  }
}
