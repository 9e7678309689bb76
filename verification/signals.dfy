/** analysis/signals.py and analysis/taint.py: the detectors.

    Each detector that builds its list in a loop is a method proved against a function; what each
    detector reports is then characterised by sets that do not mention lists or loops. */
module Signals {
  import opened Text
  import opened Sorting
  import opened Snapshots
  import opened Findings

  const TAINT_KEY := Lit("taint")
  const REGIONS_KEY := Lit("load_module_regions")
  const FTRACE_KEY := Lit("ftrace_modules")
  const KALLSYMS_KEY := Lit("kallsyms_modules")
  const FTRACE_AVAILABLE := Lit("ftrace_available")
  const KALLSYMS_AVAILABLE := Lit("kallsyms_available")

  // ---------------------------------------------------------------------------------------------
  // Views of a snapshot

  function ByCollector(os: seq<Observation>, c: Collector): (r: seq<Observation>)
    ensures forall o :: o in r <==> o in os && o.Collector() == c
  {
    if os == [] then []
    else (if os[0].Collector() == c then [os[0]] else []) + ByCollector(os[1..], c)
  }

  function Observations(s: Snapshot, c: Collector): (r: seq<Observation>)
    ensures forall o :: o in r <==> o in s.observations && o.Collector() == c
  {
    ByCollector(s.observations, c)
  }

  function First(s: Snapshot, c: Collector): (r: Option<Observation>)
    ensures r.Some? ==> r.value in s.observations && r.value.Collector() == c
  {
    if Observations(s, c) == [] then None else Some(Observations(s, c)[0])
  }

  /** Every swept task that is looked up has an entity. */
  predicate SweepIndexable(s: Snapshot) {
    First(s, SyscallSweep).Some? ==>
      Covered(First(s, SyscallSweep).value.entities.tasks, First(s, SyscallSweep).value.entities.swept)
  }

  /** What signals_processes looks up: the sweep, when there is a readdir pass to compare it with. */
  predicate ProcessesIndexable(s: Snapshot) {
    Observations(s, ProcfsProcesses) != [] ==> SweepIndexable(s)
  }

  /** What signals_sockets looks up: the sockets and the sweep, when there is a socket view. */
  predicate SocketsIndexable(s: Snapshot) {
    First(s, ProcfsSockets).Some? ==>
      && SweepIndexable(s)
      && Covered(First(s, ProcfsSockets).value.entities.socketKeys, First(s, ProcfsSockets).value.entities.sockets)
  }

  /** What signals_hooks looks up. */
  predicate HooksIndexable(s: Snapshot) {
    First(s, KernelHooks).Some? ==>
      Covered(First(s, KernelHooks).value.entities.hookKeys, First(s, KernelHooks).value.entities.hooks)
  }

  /** Every id that some detector looks up has an entity. The analysis raises KeyError on any other
      snapshot. */
  predicate Indexable(s: Snapshot) {
    ProcessesIndexable(s) && SocketsIndexable(s) && HooksIndexable(s)
  }

  /** The module listing; empty when there is none. */
  function ListedModules(s: Snapshot): set<Text> {
    match First(s, ProcfsModules)
    case None => {}
    case Some(o) => set n | n in o.entities.names
  }

  function ListedMarkers(s: Snapshot): map<Text, Option<Text>> {
    match First(s, ProcfsModules)
    case None => map[]
    case Some(o) => map n | n in o.entities.modules :: o.entities.modules[n].taint
  }

  function PidsOf(passes: seq<Observation>): set<int> {
    set o, p | o in passes && o.entities.Processes? && p in o.entities.pids :: p
  }

  lemma PidsOfStep(passes: seq<Observation>, i: nat)
    requires i < |passes| && passes[i].entities.Processes?
    ensures PidsOf(passes[..i + 1]) == PidsOf(passes[..i]) + set p | p in passes[i].entities.pids
  {
    assert passes[..i + 1] == passes[..i] + [passes[i]];
    forall p ensures p in PidsOf(passes[..i + 1])
                <==> p in PidsOf(passes[..i]) || p in passes[i].entities.pids {
      if p in passes[i].entities.pids {
        assert passes[i] in passes[..i + 1];
      }
    }
  }

  /** Every pid any readdir pass listed. */
  function ListedPids(s: Snapshot): set<int> {
    PidsOf(Observations(s, ProcfsProcesses))
  }

  // ---------------------------------------------------------------------------------------------
  // analysis/taint.py

  datatype Reconciliation = Reconciliation(unexplained: seq<int>, explainedBy: map<int, seq<Text>>)

  /** Bits 12 and 13, in order, with the module marker letter that accounts for each. */
  function BitMask(bit: int): (m: int)
    ensures m > 0
  {
    if bit == 12 then 4096 else 8192
  }

  function BitLetter(bit: int): CodePoint {
    if bit == 12 then 'O' as int else 'E' as int
  }

  /** taint & (1 << bit), for a taint word of either sign. */
  predicate BitSet(taint: int, bit: int) {
    (taint / BitMask(bit)) % 2 == 1
  }

  function BitOwners(listed: map<Text, Option<Text>>, bit: int): set<Text> {
    set n | n in listed && listed[n].Some? && BitLetter(bit) in listed[n].value
  }

  function Reconcile(taint: int, listed: map<Text, Option<Text>>): Reconciliation {
    var set12, set13 := BitSet(taint, 12), BitSet(taint, 13);
    var own12, own13 := BitOwners(listed, 12), BitOwners(listed, 13);
    Reconciliation(
      (if set12 && own12 == {} then [12] else []) + (if set13 && own13 == {} then [13] else []),
      (if set12 && own12 != {} then map[12 := SortedTexts(own12)] else map[])
      + (if set13 && own13 != {} then map[13 := SortedTexts(own13)] else map[]))
  }

  /** The loop over the bit table. */
  method ReconcileTaint(taint: int, listed: map<Text, Option<Text>>) returns (r: Reconciliation)
    ensures r == Reconcile(taint, listed)
  {
    var unexplained: seq<int> := [];
    var explained: map<int, seq<Text>> := map[];
    for bit := 12 to 14
      invariant bit == 12 ==> unexplained == [] && explained == map[]
      invariant bit == 13 ==> unexplained == (if BitSet(taint, 12) && BitOwners(listed, 12) == {} then [12] else [])
      invariant bit == 13 ==> explained == (if BitSet(taint, 12) && BitOwners(listed, 12) != {}
                                            then map[12 := SortedTexts(BitOwners(listed, 12))] else map[])
      invariant bit == 14 ==> Reconciliation(unexplained, explained) == Reconcile(taint, listed)
    {
      if BitSet(taint, bit) {
        var owners := SortedTexts(BitOwners(listed, bit));
        SortedEmpty(BitOwners(listed, bit));
        if owners != [] {
          explained := explained[bit := owners];
        } else {
          unexplained := unexplained + [bit];
        }
      }
    }
    r := Reconciliation(unexplained, explained);
  }

  lemma SortedEmpty(s: set<Text>)
    ensures SortedTexts(s) == [] <==> s == {}
  {
    HasMember(SortedTexts(s));
  }

  // ---------------------------------------------------------------------------------------------
  // Suspects

  function ProcessOf(tgid: int): Suspect {
    Suspect(ProcessSuspect, Some(Decimal(tgid)))
  }

  function ModuleOf(name: Text): Suspect {
    Suspect(ModuleSuspect, Some(name))
  }

  lemma ProcessOfInjective(a: int, b: int)
    requires ProcessOf(a) == ProcessOf(b)
    ensures a == b
  {
    DecimalInjective(a, b);
  }

  predicate ProcessIn(suspect: Suspect, tgids: set<int>) {
    exists t :: t in tgids && suspect == ProcessOf(t)
  }

  predicate ModuleIn(suspect: Suspect, names: set<Text>) {
    exists n :: n in names && suspect == ModuleOf(n)
  }

  /** Some signal reports suspect on channel c. */
  predicate Fires(sigs: seq<Signal>, c: Channel, suspect: Suspect) {
    exists s :: s in sigs && s.channel == c && s.suspect == suspect
  }

  lemma FiresConcat(a: seq<Signal>, b: seq<Signal>, c: Channel, suspect: Suspect)
    ensures Fires(a + b, c, suspect) <==> Fires(a, c, suspect) || Fires(b, c, suspect)
  {
    if Fires(a, c, suspect) {
      var s :| s in a && s.channel == c && s.suspect == suspect;
      assert s in a + b;
    }
    if Fires(b, c, suspect) {
      var s :| s in b && s.channel == c && s.suspect == suspect;
      assert s in a + b;
    }
  }

  lemma FiresSorted(a: seq<Signal>, key: Signal -> seq<int>, c: Channel, suspect: Suspect)
    ensures Fires(SortBy(a, key), c, suspect) <==> Fires(a, c, suspect)
  {
    SortSameElements(a, key);
  }

  // ---------------------------------------------------------------------------------------------
  // signals_processes

  /** The tgids of the tasks whose status could be read. */
  function ReadableTgids(tasks: seq<int>, swept: map<int, SweepEntity>): set<int>
    requires Covered(tasks, swept)
  {
    set t | t in tasks && swept[t].statusReadable :: swept[t].tgid
  }

  lemma ReadableTgidsStep(tasks: seq<int>, t: int, swept: map<int, SweepEntity>)
    requires t in swept && Covered(tasks, swept)
    ensures ReadableTgids(tasks + [t], swept)
         == ReadableTgids(tasks, swept) + (if swept[t].statusReadable then {swept[t].tgid} else {})
  {
    assert forall u :: u in tasks + [t] <==> u in tasks || u == t;
  }

  function PassesListing(passes: seq<Observation>, tgid: int): seq<Text>
    requires forall o :: o in passes ==> o.entities.Processes?
  {
    if passes == [] then []
    else
      (if tgid in passes[0].entities.pids then
         [if passes[0].pass.Some? && passes[0].pass.value != [] then passes[0].pass.value else Lit("?")]
       else [])
      + PassesListing(passes[1..], tgid)
  }

  function ProcessPair(ent: SweepEntity, passes: seq<Observation>): (r: seq<Signal>)
    requires forall o :: o in passes ==> o.entities.Processes?
    ensures forall s :: s in r ==> s.suspect == ProcessOf(ent.tgid)
  {
    var evidence := ProcessEvidence(ent.tgid, ent.comm, SortBy(PassesListing(passes, ent.tgid), TextKey));
    [Signal(SyscallKill, ProcessOf(ent.tgid), ProcfsReaddir, evidence),
     Signal(DirectStatus, ProcessOf(ent.tgid), ProcfsReaddir, evidence)]
  }

  /** Two signals for the first readable task of each unlisted thread group, in sweep order. */
  function ProcessSignals(tasks: seq<int>, swept: map<int, SweepEntity>, listed: set<int>,
                          passes: seq<Observation>): seq<Signal>
    requires Covered(tasks, swept)
    requires forall o :: o in passes ==> o.entities.Processes?
  {
    if tasks == [] then []
    else
      var n := |tasks| - 1;
      var before := ProcessSignals(tasks[..n], swept, listed, passes);
      var ent := swept[tasks[n]];
      if !ent.statusReadable || ent.tgid in listed || ent.tgid in ReadableTgids(tasks[..n], swept)
      then before
      else before + ProcessPair(ent, passes)
  }

  function DetectProcesses(s: Snapshot): seq<Signal>
    requires ProcessesIndexable(s)
  {
    match First(s, SyscallSweep)
    case None => []
    case Some(sweep) =>
      if Observations(s, ProcfsProcesses) == [] then []
      else ProcessSignals(sweep.entities.tasks, sweep.entities.swept, ListedPids(s),
                          Observations(s, ProcfsProcesses))
  }

  /** None when a task has no entity. */
  method SweepLoop(tasks: seq<int>, swept: map<int, SweepEntity>, listed: set<int>, passes: seq<Observation>)
    returns (out: Option<seq<Signal>>)
    requires forall o :: o in passes ==> o.entities.Processes?
    ensures out.Some? <==> Covered(tasks, swept)
    ensures out.Some? ==> out.value == ProcessSignals(tasks, swept, listed, passes)
  {
    var reported: set<int> := {};
    var sigs: seq<Signal> := [];
    for i := 0 to |tasks|
      invariant Covered(tasks[..i], swept)
      invariant reported == ReadableTgids(tasks[..i], swept) - listed
      invariant sigs == ProcessSignals(tasks[..i], swept, listed, passes)
    {
      if tasks[i] !in swept {
        return None;
      }
      var ent := swept[tasks[i]];
      assert tasks[..i + 1][..i] == tasks[..i];
      assert tasks[..i + 1] == tasks[..i] + [tasks[i]];
      ReadableTgidsStep(tasks[..i], tasks[i], swept);
      if !ent.statusReadable || ent.tgid in listed || ent.tgid in reported {
        continue;
      }
      reported := reported + {ent.tgid};
      sigs := sigs + ProcessPair(ent, passes);
    }
    assert tasks[..|tasks|] == tasks;
    out := Some(sigs);
  }

  /** Every pid that some readdir pass lists. */
  method CollectListed(passes: seq<Observation>) returns (listed: set<int>)
    requires forall o :: o in passes ==> o.entities.Processes?
    ensures listed == PidsOf(passes)
  {
    listed := {};
    for i := 0 to |passes|
      invariant listed == PidsOf(passes[..i])
    {
      assert passes[i] in passes;
      PidsOfStep(passes, i);
      listed := listed + set p | p in passes[i].entities.pids;
    }
    assert passes[..|passes|] == passes;
  }

  method SignalsProcesses(s: Snapshot) returns (out: Option<seq<Signal>>)
    ensures out.Some? <==> ProcessesIndexable(s)
    ensures out.Some? ==> out.value == DetectProcesses(s)
  {
    var passes := Observations(s, ProcfsProcesses);
    if passes == [] || First(s, SyscallSweep).None? {
      return Some([]);
    }
    var listed := CollectListed(passes);
    var sweep := First(s, SyscallSweep).value.entities;
    out := SweepLoop(sweep.tasks, sweep.swept, listed, passes);
  }

  /** H: the thread groups of readable swept tasks, minus every readdir pass. */
  function HiddenTgids(s: Snapshot): set<int>
    requires ProcessesIndexable(s)
  {
    match First(s, SyscallSweep)
    case None => {}
    case Some(sweep) =>
      if Observations(s, ProcfsProcesses) == [] then {}
      else ReadableTgids(sweep.entities.tasks, sweep.entities.swept) - ListedPids(s)
  }

  lemma {:induction false} ProcessSignalsFire(tasks: seq<int>, swept: map<int, SweepEntity>,
                                              listed: set<int>, passes: seq<Observation>, c: Channel,
                                              suspect: Suspect)
    requires Covered(tasks, swept)
    requires forall o :: o in passes ==> o.entities.Processes?
    ensures Fires(ProcessSignals(tasks, swept, listed, passes), c, suspect)
       <==> (c == SyscallKill || c == DirectStatus)
            && ProcessIn(suspect, ReadableTgids(tasks, swept) - listed)
  {
    if tasks != [] {
      var n := |tasks| - 1;
      var before := ProcessSignals(tasks[..n], swept, listed, passes);
      var ent := swept[tasks[n]];
      ProcessSignalsFire(tasks[..n], swept, listed, passes, c, suspect);
      assert tasks == tasks[..n] + [tasks[n]];
      ReadableTgidsStep(tasks[..n], tasks[n], swept);
      var pair := ProcessPair(ent, passes);
      FiresConcat(before, pair, c, suspect);
      assert pair[0] in pair && pair[1] in pair;
    }
  }

  // ---------------------------------------------------------------------------------------------
  // signals_sockets

  function Fold(fold: map<int, int>, pid: int): int {
    if pid in fold then fold[pid] else pid
  }

  function FoldedOwners(owners: seq<int>, fold: map<int, int>): set<int> {
    set p | p in owners :: Fold(fold, p)
  }

  function SocketSignal(e: SocketEntity, tgid: int): Signal {
    Signal(SocketVisible, ProcessOf(tgid), ProcfsReaddir,
           SocketEvidence(e.inode, e.local, e.remote, e.state))
  }

  /** One signal for each unlisted thread group owning the socket, at its first owner. */
  function OwnerSignals(e: SocketEntity, owners: seq<int>, listed: set<int>, fold: map<int, int>): seq<Signal> {
    if owners == [] then []
    else
      var n := |owners| - 1;
      var before := OwnerSignals(e, owners[..n], listed, fold);
      var tgid := Fold(fold, owners[n]);
      if tgid in listed || tgid in FoldedOwners(owners[..n], fold) then before
      else before + [SocketSignal(e, tgid)]
  }

  function SocketSignals(keys: seq<Text>, sockets: map<Text, SocketEntity>, listed: set<int>,
                         fold: map<int, int>): seq<Signal>
    requires Covered(keys, sockets)
  {
    if keys == [] then []
    else
      var n := |keys| - 1;
      var e := sockets[keys[n]];
      SocketSignals(keys[..n], sockets, listed, fold)
      + if e.inTable then OwnerSignals(e, e.ownerPids, listed, fold) else []
  }

  /** tid -> tgid for every swept task, whether or not its status was readable. */
  function TaskFold(s: Snapshot): map<int, int>
    requires SweepIndexable(s)
  {
    match First(s, SyscallSweep)
    case None => map[]
    case Some(sweep) => map t | t in sweep.entities.tasks :: sweep.entities.swept[t].tgid
  }

  function NameOf(suspect: Suspect): Text {
    match suspect.name case None => [] case Some(n) => n
  }

  function SocketKey(s: Signal): seq<int> {
    ChannelKey(s.channel) + NameOf(s.suspect)
  }

  function DetectSockets(s: Snapshot): seq<Signal>
    requires SocketsIndexable(s)
  {
    match First(s, ProcfsSockets)
    case None => []
    case Some(o) =>
      SortBy(SocketSignals(o.entities.socketKeys, o.entities.sockets, ListedPids(s), TaskFold(s)), SocketKey)
  }

  lemma OwnerStep(e: SocketEntity, owners: seq<int>, pid: int, listed: set<int>, fold: map<int, int>)
    ensures var tgid := Fold(fold, pid);
      && FoldedOwners(owners + [pid], fold) == FoldedOwners(owners, fold) + {tgid}
      && OwnerSignals(e, owners + [pid], listed, fold)
         == OwnerSignals(e, owners, listed, fold)
            + if tgid in listed || tgid in FoldedOwners(owners, fold) then [] else [SocketSignal(e, tgid)]
  {
    assert (owners + [pid])[..|owners|] == owners;
  }

  method OwnersOf(e: SocketEntity, listed: set<int>, fold: map<int, int>) returns (out: seq<Signal>)
    ensures out == OwnerSignals(e, e.ownerPids, listed, fold)
  {
    var reported: set<int> := {};
    out := [];
    for i := 0 to |e.ownerPids|
      invariant reported == FoldedOwners(e.ownerPids[..i], fold) - listed
      invariant out == OwnerSignals(e, e.ownerPids[..i], listed, fold)
    {
      var tgid := Fold(fold, e.ownerPids[i]);
      TakeOneMore(e.ownerPids, i);
      OwnerStep(e, e.ownerPids[..i], e.ownerPids[i], listed, fold);
      if tgid in listed || tgid in reported {
        continue;
      }
      reported := reported + {tgid};
      out := out + [SocketSignal(e, tgid)];
    }
    assert e.ownerPids[..|e.ownerPids|] == e.ownerPids;
  }

  /** None when a swept task has no entity. */
  method BuildFold(s: Snapshot) returns (fold: Option<map<int, int>>)
    ensures fold.Some? <==> SweepIndexable(s)
    ensures fold.Some? ==> fold.value == TaskFold(s)
  {
    var built: map<int, int> := map[];
    if First(s, SyscallSweep).Some? {
      var tasks, swept := First(s, SyscallSweep).value.entities.tasks, First(s, SyscallSweep).value.entities.swept;
      for i := 0 to |tasks|
        invariant Covered(tasks[..i], swept)
        invariant built == map t | t in tasks[..i] :: swept[t].tgid
      {
        if tasks[i] !in swept {
          return None;
        }
        assert tasks[..i + 1] == tasks[..i] + [tasks[i]];
        built := built[tasks[i] := swept[tasks[i]].tgid];
      }
      assert tasks[..|tasks|] == tasks;
    }
    fold := Some(built);
  }

  /** None when a key has no entity. */
  method SocketLoop(keys: seq<Text>, sockets: map<Text, SocketEntity>, listed: set<int>, fold: map<int, int>)
    returns (out: Option<seq<Signal>>)
    ensures out.Some? <==> Covered(keys, sockets)
    ensures out.Some? ==> out.value == SocketSignals(keys, sockets, listed, fold)
  {
    var sigs: seq<Signal> := [];
    for i := 0 to |keys|
      invariant Covered(keys[..i], sockets)
      invariant sigs == SocketSignals(keys[..i], sockets, listed, fold)
    {
      if keys[i] !in sockets {
        return None;
      }
      assert keys[..i + 1][..i] == keys[..i];
      if sockets[keys[i]].inTable {
        var more := OwnersOf(sockets[keys[i]], listed, fold);
        sigs := sigs + more;
      }
    }
    assert keys[..|keys|] == keys;
    out := Some(sigs);
  }

  method SignalsSockets(s: Snapshot) returns (out: Option<seq<Signal>>)
    ensures out.Some? <==> SocketsIndexable(s)
    ensures out.Some? ==> out.value == DetectSockets(s)
  {
    if First(s, ProcfsSockets).None? {
      return Some([]);
    }
    var o := First(s, ProcfsSockets).value.entities;
    var listed := CollectListed(Observations(s, ProcfsProcesses));
    var fold := BuildFold(s);
    if fold.None? {
      return None;
    }
    var sigs := SocketLoop(o.socketKeys, o.sockets, listed, fold.value);
    if sigs.None? {
      return None;
    }
    out := Some(SortBy(sigs.value, SocketKey));
  }

  /** The thread groups owning an in-table socket, by the sweep's account of thread groups. */
  function SocketOwners(s: Snapshot): set<int>
    requires SocketsIndexable(s)
  {
    match First(s, ProcfsSockets)
    case None => {}
    case Some(o) =>
      set k, p | k in o.entities.socketKeys && o.entities.sockets[k].inTable
                 && p in o.entities.sockets[k].ownerPids :: Fold(TaskFold(s), p)
  }

  /** S: the thread groups owning an in-table socket, minus every readdir pass. */
  function SocketTgids(s: Snapshot): set<int>
    requires SocketsIndexable(s)
  {
    SocketOwners(s) - ListedPids(s)
  }

  lemma {:induction false} OwnerSignalsFire(e: SocketEntity, owners: seq<int>, listed: set<int>,
                                            fold: map<int, int>, c: Channel, suspect: Suspect)
    ensures Fires(OwnerSignals(e, owners, listed, fold), c, suspect)
       <==> c == SocketVisible && ProcessIn(suspect, FoldedOwners(owners, fold) - listed)
  {
    if owners != [] {
      var n := |owners| - 1;
      var tgid := Fold(fold, owners[n]);
      OwnerSignalsFire(e, owners[..n], listed, fold, c, suspect);
      assert owners == owners[..n] + [owners[n]];
      assert FoldedOwners(owners, fold) == FoldedOwners(owners[..n], fold) + {tgid};
      FiresConcat(OwnerSignals(e, owners[..n], listed, fold), [SocketSignal(e, tgid)], c, suspect);
      assert SocketSignal(e, tgid) in [SocketSignal(e, tgid)];
    }
  }

  predicate OwnedBy(keys: seq<Text>, sockets: map<Text, SocketEntity>, fold: map<int, int>, t: int)
    requires Covered(keys, sockets)
  {
    exists k :: k in keys && sockets[k].inTable && t in FoldedOwners(sockets[k].ownerPids, fold)
  }

  lemma {:induction false} SocketSignalsFire(keys: seq<Text>, sockets: map<Text, SocketEntity>,
                                             listed: set<int>, fold: map<int, int>, c: Channel,
                                             suspect: Suspect)
    requires Covered(keys, sockets)
    ensures Fires(SocketSignals(keys, sockets, listed, fold), c, suspect)
       <==> c == SocketVisible
            && exists t :: OwnedBy(keys, sockets, fold, t) && t !in listed && suspect == ProcessOf(t)
  {
    if keys != [] {
      var n := |keys| - 1;
      var e := sockets[keys[n]];
      SocketSignalsFire(keys[..n], sockets, listed, fold, c, suspect);
      OwnerSignalsFire(e, e.ownerPids, listed, fold, c, suspect);
      FiresConcat(SocketSignals(keys[..n], sockets, listed, fold),
                  if e.inTable then OwnerSignals(e, e.ownerPids, listed, fold) else [], c, suspect);
      assert keys == keys[..n] + [keys[n]];
      forall t ensures OwnedBy(keys, sockets, fold, t)
                  <==> OwnedBy(keys[..n], sockets, fold, t)
                       || (e.inTable && t in FoldedOwners(e.ownerPids, fold)) {
        if OwnedBy(keys[..n], sockets, fold, t) {
          var k :| k in keys[..n] && sockets[k].inTable && t in FoldedOwners(sockets[k].ownerPids, fold);
          assert k in keys;
        }
        if e.inTable && t in FoldedOwners(e.ownerPids, fold) {
        }
      }
    }
  }

  // ---------------------------------------------------------------------------------------------
  // signals_modules

  function FtraceNames(s: Snapshot): set<Text> {
    match First(s, KernelModuleEvidence)
    case None => {}
    case Some(o) =>
      match GetNames(o.extra, FTRACE_KEY)
      case None => {}
      case Some(names) => set n | n in names
  }

  /** The module names ftrace tags that the listing does not have; none unless both views exist. */
  function OrphanNames(s: Snapshot): set<Text> {
    if First(s, ProcfsModules).None? || First(s, KernelModuleEvidence).None? then {}
    else FtraceNames(s) - ListedModules(s)
  }

  function OrphanSignal(name: Text): Signal {
    Signal(FtraceOrphan, ModuleOf(name), ModulesListing, FtraceEvidence(name))
  }

  function OrphanSignals(names: seq<Text>): (r: seq<Signal>)
    ensures |r| == |names| && forall i :: 0 <= i < |names| ==> r[i] == OrphanSignal(names[i])
  {
    seq(|names|, i requires 0 <= i < |names| => OrphanSignal(names[i]))
  }

  function TaintWord(o: Observation): int {
    match GetInt(o.stats, TAINT_KEY) case None => 0 case Some(n) => n
  }

  function TaintSignals(s: Snapshot, o: Observation): seq<Signal> {
    var rec := Reconcile(TaintWord(o), ListedMarkers(s));
    if rec.unexplained == [] then []
    else [Signal(Taint, ANONYMOUS, ModulesListing, TaintEvidence(TaintWord(o), rec.unexplained, rec.explainedBy))]
  }

  function RegionSignals(s: Snapshot, o: Observation): seq<Signal> {
    var listed := |ListedModules(s)|;
    match GetInt(o.stats, REGIONS_KEY)
    case None => []
    case Some(regions) =>
      if regions > listed then
        [Signal(VmallocRegion, ANONYMOUS, ModulesListing, RegionEvidence(regions, listed, regions - listed))]
      else []
  }

  function DetectModules(s: Snapshot): seq<Signal> {
    if First(s, ProcfsModules).None? || First(s, KernelModuleEvidence).None? then []
    else
      var o := First(s, KernelModuleEvidence).value;
      TaintSignals(s, o) + RegionSignals(s, o) + OrphanSignals(SortedTexts(OrphanNames(s)))
  }

  method SignalsModules(s: Snapshot) returns (out: seq<Signal>)
    ensures out == DetectModules(s)
  {
    if First(s, ProcfsModules).None? || First(s, KernelModuleEvidence).None? {
      return [];
    }
    var o := First(s, KernelModuleEvidence).value;
    out := TaintSignals(s, o) + RegionSignals(s, o);
    ghost var start := out;
    var names := SortedTexts(OrphanNames(s));
    for i := 0 to |names|
      invariant out == start + OrphanSignals(names[..i])
    {
      assert OrphanSignals(names[..i + 1]) == OrphanSignals(names[..i]) + [OrphanSignal(names[i])];
      out := out + [OrphanSignal(names[i])];
    }
    assert names[..|names|] == names;
  }

  // ---------------------------------------------------------------------------------------------
  // signals_hooks

  predicate IsOrphanHook(e: HookEntity, listed: set<Text>) {
    e.ownerModule.Some? && e.ownerModule.value !in listed
  }

  function HookSignal(e: HookEntity): Signal
    requires e.ownerModule.Some?
  {
    Signal(UnexpectedHook, ModuleOf(e.ownerModule.value), ModulesListing,
           HookEvidence(e.function_, e.hookType, e.callback, e.ownerModule.value))
  }

  function HookSignals(keys: seq<Text>, hooks: map<Text, HookEntity>, listed: set<Text>): seq<Signal>
    requires Covered(keys, hooks)
  {
    if keys == [] then []
    else
      var n := |keys| - 1;
      HookSignals(keys[..n], hooks, listed)
      + if IsOrphanHook(hooks[keys[n]], listed) then [HookSignal(hooks[keys[n]])] else []
  }

  /** (suspect name, hooked function); -1 stands between the two and precedes every code point. */
  function HookKey(s: Signal): seq<int> {
    var name: seq<int> := NameOf(s.suspect);
    name + [-1] + if s.evidence.HookEvidence? then s.evidence.function_ else []
  }

  function DetectHooks(s: Snapshot): seq<Signal>
    requires HooksIndexable(s)
  {
    match First(s, KernelHooks)
    case None => []
    case Some(o) => SortBy(HookSignals(o.entities.hookKeys, o.entities.hooks, ListedModules(s)), HookKey)
  }

  /** None when a key has no entity. */
  method HookLoop(keys: seq<Text>, hooks: map<Text, HookEntity>, listed: set<Text>) returns (out: Option<seq<Signal>>)
    ensures out.Some? <==> Covered(keys, hooks)
    ensures out.Some? ==> out.value == HookSignals(keys, hooks, listed)
  {
    var sigs: seq<Signal> := [];
    for i := 0 to |keys|
      invariant Covered(keys[..i], hooks)
      invariant sigs == HookSignals(keys[..i], hooks, listed)
    {
      if keys[i] !in hooks {
        return None;
      }
      var e := hooks[keys[i]];
      assert keys[..i + 1][..i] == keys[..i];
      if IsOrphanHook(e, listed) {
        sigs := sigs + [HookSignal(e)];
      }
    }
    assert keys[..|keys|] == keys;
    out := Some(sigs);
  }

  method SignalsHooks(s: Snapshot) returns (out: Option<seq<Signal>>)
    ensures out.Some? <==> HooksIndexable(s)
    ensures out.Some? ==> out.value == DetectHooks(s)
  {
    if First(s, KernelHooks).None? {
      return Some([]);
    }
    var o := First(s, KernelHooks).value.entities;
    var sigs := HookLoop(o.hookKeys, o.hooks, ListedModules(s));
    if sigs.None? {
      return None;
    }
    out := Some(SortBy(sigs.value, HookKey));
  }

  /** The hooks whose callback belongs to a named module outside the listing. */
  function OrphanHooks(s: Snapshot): set<HookEntity>
    requires HooksIndexable(s)
  {
    match First(s, KernelHooks)
    case None => {}
    case Some(o) =>
      set k | k in o.entities.hookKeys && IsOrphanHook(o.entities.hooks[k], ListedModules(s)) :: o.entities.hooks[k]
  }

  function OrphanHookOwners(s: Snapshot): set<Text>
    requires HooksIndexable(s)
  {
    set h | h in OrphanHooks(s) :: h.ownerModule.value
  }

  lemma {:induction false} HookSignalsExact(keys: seq<Text>, hooks: map<Text, HookEntity>, listed: set<Text>, s: Signal)
    requires Covered(keys, hooks)
    ensures s in HookSignals(keys, hooks, listed)
       <==> exists k :: k in keys && IsOrphanHook(hooks[k], listed) && s == HookSignal(hooks[k])
  {
    if keys != [] {
      var n := |keys| - 1;
      HookSignalsExact(keys[..n], hooks, listed, s);
      assert keys == keys[..n] + [keys[n]];
    }
  }

  // ---------------------------------------------------------------------------------------------
  // signals_over_listed and signals_baseline

  /** The listed and the corroborated names, or None when a corroborating channel is unavailable. */
  function Corroboration(s: Snapshot): Option<(set<Text>, set<Text>)> {
    var listing, evidence, hooks := First(s, ProcfsModules), First(s, KernelModuleEvidence), First(s, KernelHooks);
    if listing.None? || evidence.None? || hooks.None? then None
    else if !GetTruthy(evidence.value.stats, FTRACE_AVAILABLE) then None
    else if !GetTruthy(hooks.value.stats, KALLSYMS_AVAILABLE) then None
    else
      var ftrace, kallsyms := GetNames(evidence.value.extra, FTRACE_KEY), GetNames(hooks.value.extra, KALLSYMS_KEY);
      if ftrace.None? || kallsyms.None? then None
      else Some((ListedModules(s), (set n | n in ftrace.value) + (set n | n in kallsyms.value)))
  }

  /** The listed names nothing corroborates; none when nothing at all is corroborated. */
  function OverListed(s: Snapshot): (r: set<Text>)
    ensures r <= ListedModules(s)
  {
    match Corroboration(s)
    case None => {}
    case Some((listed, corroborated)) =>
      if listed - corroborated == listed then {} else listed - corroborated
  }

  function NameSignals(names: seq<Text>, c: Channel, d: Dissent, e: Evidence): (r: seq<Signal>)
    ensures |r| == |names|
    ensures forall i :: 0 <= i < |names| ==> r[i] == Signal(c, ModuleOf(names[i]), d, e)
  {
    seq(|names|, i requires 0 <= i < |names| => Signal(c, ModuleOf(names[i]), d, e))
  }

  function DetectOverListed(s: Snapshot): seq<Signal> {
    NameSignals(SortedTexts(OverListed(s)), OverListedChannel, EveryCorroboratingChannel, OverListedEvidence)
  }

  /** Names listed now and not in the baseline. */
  function Drift(s: Snapshot, baseline: Option<Snapshot>): (r: set<Text>)
    ensures r <= ListedModules(s)
  {
    match baseline
    case None => {}
    case Some(b) => ListedModules(s) - ListedModules(b)
  }

  function DetectDrift(s: Snapshot, baseline: Option<Snapshot>): seq<Signal> {
    NameSignals(SortedTexts(Drift(s, baseline)), BaselineDriftChannel, SignedBaseline, DriftEvidence)
  }

  function AllSignals(s: Snapshot, baseline: Option<Snapshot>): seq<Signal>
    requires Indexable(s)
  {
    DetectProcesses(s) + DetectModules(s) + DetectHooks(s) + DetectSockets(s) + DetectOverListed(s)
    + DetectDrift(s, baseline)
  }

  // ---------------------------------------------------------------------------------------------
  // What each detector reports

  lemma ProcessesFire(s: Snapshot, c: Channel, suspect: Suspect)
    requires ProcessesIndexable(s)
    ensures Fires(DetectProcesses(s), c, suspect)
       <==> (c == SyscallKill || c == DirectStatus) && ProcessIn(suspect, HiddenTgids(s))
  {
    if First(s, SyscallSweep).Some? && Observations(s, ProcfsProcesses) != [] {
      var sweep := First(s, SyscallSweep).value.entities;
      ProcessSignalsFire(sweep.tasks, sweep.swept, ListedPids(s), Observations(s, ProcfsProcesses), c, suspect);
    }
  }

  lemma SocketsFire(s: Snapshot, c: Channel, suspect: Suspect)
    requires SocketsIndexable(s)
    ensures Fires(DetectSockets(s), c, suspect)
       <==> c == SocketVisible && ProcessIn(suspect, SocketTgids(s))
  {
    if First(s, ProcfsSockets).Some? {
      var o := First(s, ProcfsSockets).value.entities;
      var fold := TaskFold(s);
      FiresSorted(SocketSignals(o.socketKeys, o.sockets, ListedPids(s), fold), SocketKey, c, suspect);
      SocketSignalsFire(o.socketKeys, o.sockets, ListedPids(s), fold, c, suspect);
      forall t ensures t in SocketOwners(s) <==> OwnedBy(o.socketKeys, o.sockets, fold, t) {
        if OwnedBy(o.socketKeys, o.sockets, fold, t) {
          var k :| k in o.socketKeys && o.sockets[k].inTable && t in FoldedOwners(o.sockets[k].ownerPids, fold);
          var p :| p in o.sockets[k].ownerPids && t == Fold(fold, p);
        }
      }
    }
  }

  /** The taint word or the region count points at a module without naming it. */
  predicate Anonymous(s: Snapshot, c: Channel) {
    && First(s, ProcfsModules).Some?
    && First(s, KernelModuleEvidence).Some?
    && ((c == Taint && TaintSignals(s, First(s, KernelModuleEvidence).value) != [])
        || (c == VmallocRegion && RegionSignals(s, First(s, KernelModuleEvidence).value) != []))
  }

  lemma OrphansFire(names: set<Text>, c: Channel, suspect: Suspect)
    ensures Fires(OrphanSignals(SortedTexts(names)), c, suspect)
       <==> c == FtraceOrphan && ModuleIn(suspect, names)
  {
    var sorted := SortedTexts(names);
    var sigs := OrphanSignals(sorted);
    forall n | n in names ensures OrphanSignal(n) in sigs {
      var i :| 0 <= i < |sorted| && sorted[i] == n;
      assert sigs[i] == OrphanSignal(n);
    }
  }

  lemma AnonymousFire(sigs: seq<Signal>, only: Signal, c: Channel, suspect: Suspect)
    requires sigs == [] || sigs == [only]
    ensures Fires(sigs, c, suspect) <==> sigs != [] && c == only.channel && suspect == only.suspect
  {
    assert sigs != [] ==> sigs[0] in sigs;
  }

  lemma ModulesFire(s: Snapshot, c: Channel, suspect: Suspect)
    ensures Fires(DetectModules(s), c, suspect)
       <==> (suspect == ANONYMOUS && Anonymous(s, c))
            || (c == FtraceOrphan && ModuleIn(suspect, OrphanNames(s)))
  {
    if First(s, ProcfsModules).Some? && First(s, KernelModuleEvidence).Some? {
      var o := First(s, KernelModuleEvidence).value;
      var taints, regions, orphans := TaintSignals(s, o), RegionSignals(s, o), OrphanSignals(SortedTexts(OrphanNames(s)));
      FiresConcat(taints + regions, orphans, c, suspect);
      FiresConcat(taints, regions, c, suspect);
      OrphansFire(OrphanNames(s), c, suspect);
      var anyTaint := Signal(Taint, ANONYMOUS, ModulesListing, DriftEvidence);
      var anyRegion := Signal(VmallocRegion, ANONYMOUS, ModulesListing, DriftEvidence);
      AnonymousFire(taints, if taints == [] then anyTaint else taints[0], c, suspect);
      AnonymousFire(regions, if regions == [] then anyRegion else regions[0], c, suspect);
    }
  }

  lemma HooksFire(s: Snapshot, c: Channel, suspect: Suspect)
    requires HooksIndexable(s)
    ensures Fires(DetectHooks(s), c, suspect)
       <==> c == UnexpectedHook && ModuleIn(suspect, OrphanHookOwners(s))
  {
    if First(s, KernelHooks).Some? {
      var o := First(s, KernelHooks).value.entities;
      var listed := ListedModules(s);
      var sigs := HookSignals(o.hookKeys, o.hooks, listed);
      FiresSorted(sigs, HookKey, c, suspect);
      forall x ensures x in sigs
                  <==> exists k :: k in o.hookKeys && IsOrphanHook(o.hooks[k], listed) && x == HookSignal(o.hooks[k]) {
        HookSignalsExact(o.hookKeys, o.hooks, listed, x);
      }
      forall h | h in OrphanHooks(s) ensures HookSignal(h) in sigs {
      }
    }
  }

  lemma NamesFire(names: set<Text>, c: Channel, d: Dissent, e: Evidence, c': Channel, suspect: Suspect)
    ensures Fires(NameSignals(SortedTexts(names), c, d, e), c', suspect)
       <==> c' == c && ModuleIn(suspect, names)
  {
    var sorted := SortedTexts(names);
    var sigs := NameSignals(sorted, c, d, e);
    forall n | n in names ensures Signal(c, ModuleOf(n), d, e) in sigs {
      var i :| 0 <= i < |sorted| && sorted[i] == n;
      assert sigs[i] == Signal(c, ModuleOf(n), d, e);
    }
  }

  /** What the detectors see in a snapshot, without lists: the sets behind every channel. */
  datatype View = View(
    hidden: set<int>, sockets: set<int>, orphans: set<Text>, hookOwners: set<Text>,
    overListed: set<Text>, drift: set<Text>, taint: bool, regions: bool)

  function ViewOf(s: Snapshot, baseline: Option<Snapshot>): View
    requires Indexable(s)
  {
    View(HiddenTgids(s), SocketTgids(s), OrphanNames(s), OrphanHookOwners(s), OverListed(s),
         Drift(s, baseline), Anonymous(s, Taint), Anonymous(s, VmallocRegion))
  }

  /** Which channel reports which suspect. */
  predicate Reports(v: View, c: Channel, suspect: Suspect) {
    match c
    case SyscallKill => ProcessIn(suspect, v.hidden)
    case DirectStatus => ProcessIn(suspect, v.hidden)
    case SocketVisible => ProcessIn(suspect, v.sockets)
    case Taint => suspect == ANONYMOUS && v.taint
    case VmallocRegion => suspect == ANONYMOUS && v.regions
    case FtraceOrphan => ModuleIn(suspect, v.orphans)
    case UnexpectedHook => ModuleIn(suspect, v.hookOwners)
    case OverListedChannel => ModuleIn(suspect, v.overListed)
    case BaselineDriftChannel => ModuleIn(suspect, v.drift)
  }

  lemma FiresConcat6(a: seq<Signal>, b: seq<Signal>, d: seq<Signal>, e: seq<Signal>, f: seq<Signal>,
                     g: seq<Signal>, c: Channel, suspect: Suspect)
    ensures Fires(a + b + d + e + f + g, c, suspect)
       <==> Fires(a, c, suspect) || Fires(b, c, suspect) || Fires(d, c, suspect) || Fires(e, c, suspect)
            || Fires(f, c, suspect) || Fires(g, c, suspect)
  {
    FiresConcat(a + b + d + e + f, g, c, suspect);
    FiresConcat(a + b + d + e, f, c, suspect);
    FiresConcat(a + b + d, e, c, suspect);
    FiresConcat(a + b, d, c, suspect);
    FiresConcat(a, b, c, suspect);
  }

  /** What the six detectors report, each on its own channels. */
  lemma ReportsBy(v: View, c: Channel, x: Suspect, processes: bool, modules: bool, hooks: bool, sockets: bool,
                  overListed: bool, drift: bool)
    requires processes <==> (c == SyscallKill || c == DirectStatus) && ProcessIn(x, v.hidden)
    requires modules <==> (x == ANONYMOUS && ((c == Taint && v.taint) || (c == VmallocRegion && v.regions)))
                          || (c == FtraceOrphan && ModuleIn(x, v.orphans))
    requires hooks <==> c == UnexpectedHook && ModuleIn(x, v.hookOwners)
    requires sockets <==> c == SocketVisible && ProcessIn(x, v.sockets)
    requires overListed <==> c == OverListedChannel && ModuleIn(x, v.overListed)
    requires drift <==> c == BaselineDriftChannel && ModuleIn(x, v.drift)
    ensures processes || modules || hooks || sockets || overListed || drift <==> Reports(v, c, x)
  {
  }

  /** Loops, "reported" sets, sorting and concatenation together report exactly these pairs. */
  lemma AllSignalsFire(s: Snapshot, baseline: Option<Snapshot>, c: Channel, suspect: Suspect)
    requires Indexable(s)
    ensures Fires(AllSignals(s, baseline), c, suspect) <==> Reports(ViewOf(s, baseline), c, suspect)
  {
    FiresConcat6(DetectProcesses(s), DetectModules(s), DetectHooks(s), DetectSockets(s),
                 DetectOverListed(s), DetectDrift(s, baseline), c, suspect);
    ProcessesFire(s, c, suspect);
    ModulesFire(s, c, suspect);
    HooksFire(s, c, suspect);
    SocketsFire(s, c, suspect);
    NamesFire(OverListed(s), OverListedChannel, EveryCorroboratingChannel, OverListedEvidence, c, suspect);
    NamesFire(Drift(s, baseline), BaselineDriftChannel, SignedBaseline, DriftEvidence, c, suspect);
    ReportsBy(ViewOf(s, baseline), c, suspect, Fires(DetectProcesses(s), c, suspect), Fires(DetectModules(s), c, suspect),
              Fires(DetectHooks(s), c, suspect), Fires(DetectSockets(s), c, suspect),
              Fires(DetectOverListed(s), c, suspect), Fires(DetectDrift(s, baseline), c, suspect));
  }
}
