/** models.py: the typed snapshot.

    An observation is one collector's whole view. Its entities are typed by the collector that made
    it, which is what the collector dispatch of `Observation.from_dict` produces. */
module Snapshots {
  import opened Text

  datatype Json =
    | Null
    | Bool(b: bool)
    | Int(n: int)
    | Str(s: Text)
    | List(items: seq<Json>)
    | Object(fields: map<Text, Json>)

  datatype TrustLevel = TrustLow | TrustMedium | TrustHigh
  datatype Status = Ok | Partial | Failed
  datatype ErrorKind = Vanished | Denied | Malformed | IoError

  datatype CollectionError = CollectionError(entityId: Option<int>, kind: ErrorKind, detail: Text)

  /** What is under each of a process's keys in JSON. */
  datatype ProcessValues = ProcessValues(
    pid: Json, ppid: Json, comm: Json, state: Json, flags: Json, numThreads: Json, starttime: Json,
    cmdline: Json, exe: Json, uid: Json, gid: Json, partial: Json)

  /** A process; loading checks no types, so a loaded one may hold values of other types than these. */
  datatype ProcessEntity =
    | ProcessEntity(
        pid: int, ppid: int, comm: Text, state: Text, flags: int, numThreads: int, starttime: int,
        cmdline: seq<Text>, exe: Option<Text>, uid: Option<seq<int>>, gid: Option<seq<int>>,
        partial: seq<Text>)
    | UntypedProcess(values: ProcessValues)

  datatype SweepEntity = SweepEntity(tgid: int, statusReadable: bool, comm: Option<Text>)

  datatype ModuleEntity = ModuleEntity(
    name: Text, size: int, refcount: int, dependents: seq<Text>, state: Text, baseAddr: Text,
    taint: Option<Text>)

  datatype HookEntity = HookEntity(
    function_: Text, hookType: Text, callback: Option<Text>, ownerModule: Option<Text>)

  datatype SocketEntity = SocketEntity(
    inode: int, kind: Text, state: Option<Text>, local: Option<Text>, remote: Option<Text>,
    uid: Option<int>, inTable: bool, ownerPids: seq<int>)

  datatype Collector =
    | ProcfsProcesses
    | SyscallSweep
    | ProcfsModules
    | KernelModuleEvidence
    | KernelHooks
    | ProcfsSockets
    | OtherCollector(name: Text)

  /** entity_ids and entities together; an id without an entity was seen but not described. */
  datatype Entities =
    | Processes(pids: seq<int>, processes: map<int, ProcessEntity>)
    | Sweep(tasks: seq<int>, swept: map<int, SweepEntity>)
    | Modules(names: seq<Text>, modules: map<Text, ModuleEntity>)
    | Evidences(evidenceIds: seq<int>)
    | Hooks(hookKeys: seq<Text>, hooks: map<Text, HookEntity>)
    | Sockets(socketKeys: seq<Text>, sockets: map<Text, SocketEntity>)
    | Others(otherName: Text, otherIds: seq<int>, others: map<int, ProcessEntity>)

  datatype Observation = Observation(
    entities: Entities, version: Text, view: Text, trust: TrustLevel, status: Status,
    durationMs: int, stats: map<Text, Json>, errors: seq<CollectionError>, pass: Option<Text>,
    extra: Option<map<Text, Json>>)
  {
    function Collector(): Collector {
      match entities
      case Processes(_, _) => ProcfsProcesses
      case Sweep(_, _) => SyscallSweep
      case Modules(_, _) => ProcfsModules
      case Evidences(_) => KernelModuleEvidence
      case Hooks(_, _) => KernelHooks
      case Sockets(_, _) => ProcfsSockets
      case Others(name, _, _) => OtherCollector(name)
    }
  }

  datatype HostFacts = HostFacts(
    hostname: Text, kernelRelease: Text, arch: Text, bootId: Text, btime: int, clockTicks: int)

  datatype CaptureMeta = CaptureMeta(toolVersion: Text, euid: int)

  datatype Snapshot = Snapshot(
    schemaVersion: Text, snapshotId: Text, capturedAt: Text, host: HostFacts, capture: CaptureMeta,
    observations: seq<Observation>)

  /** Every id has an entry. */
  predicate Covered<K(==), V>(ids: seq<K>, m: map<K, V>)
    ensures Covered(ids, m) ==> forall k :: k in ids ==> k in m
  {
    forall i :: 0 <= i < |ids| ==> ids[i] in m
  }

  /** Python's truth value of a JSON value. */
  predicate Truthy(j: Json) {
    match j
    case Null => false
    case Bool(b) => b
    case Int(n) => n != 0
    case Str(s) => s != []
    case List(items) => items != []
    case Object(fields) => fields != map[]
  }

  /** m.get(key) as an integer; None when absent, null, or not an integer. */
  function GetInt(m: map<Text, Json>, key: Text): Option<int> {
    if key in m && m[key].Int? then Some(m[key].n) else None
  }

  predicate GetTruthy(m: map<Text, Json>, key: Text) {
    key in m && Truthy(m[key])
  }

  function StrItems(items: seq<Json>): seq<Text> {
    if items == [] then []
    else (if items[0].Str? then [items[0].s] else []) + StrItems(items[1..])
  }

  /** (extra or {}).get(key) as a list of strings; None when there is none. */
  function GetNames(extra: Option<map<Text, Json>>, key: Text): Option<seq<Text>> {
    if extra.Some? && key in extra.value && extra.value[key].List? then
      Some(StrItems(extra.value[key].items))
    else None
  }
}
