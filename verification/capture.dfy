/** cmd_capture's wiring in cli.py: which collectors run, in which order, over which pids. */
module Capture {
  import opened Text
  import opened Sorting
  import opened Snapshots
  import opened Findings
  import opened Signals
  import opened Pipeline
  import opened ProcfsCollector
  import opened SocketCollectors
  import opened SocketsParser

  /** Everything a capture reads. The module and hook observations are taken as given. */
  datatype Host = Host(
    passA: ProcSource, passB: ProcSource, signals: SignalSource, sockets: SocketSource,
    modules: Observation, evidence: Observation, hooks: Observation, ipv6: seq<Byte> -> Text,
    facts: HostFacts, meta: CaptureMeta, schemaVersion: Text, snapshotId: Text, capturedAt: Text)

  predicate WellFormed(h: Host) {
    h.modules.entities.Modules? && h.evidence.entities.Evidences? && h.hooks.entities.Hooks?
    && Covered(h.hooks.entities.hookKeys, h.hooks.entities.hooks)
  }

  /** The pids whose fds are walked: the first readdir pass and the sweep. */
  function Walked(a: Entities, sweep: Entities): set<int>
    requires a.Processes? && sweep.Sweep?
  {
    (set p | p in a.pids) + (set t | t in sweep.tasks)
  }

  /** The parts of a capture the analysis depends on. */
  predicate IsCapture(s: Snapshot, h: Host) {
    && WellFormed(h)
    && |s.observations| == 7
    && s.observations[3] == h.modules && s.observations[4] == h.evidence && s.observations[5] == h.hooks
    && Wired(h, s.observations[0].entities, s.observations[1].entities, s.observations[2].entities,
             s.observations[6].entities)
  }

  /** The two readdir passes, the sweep between them, and the sockets of the pids they found. */
  predicate Wired(h: Host, a: Entities, sweep: Entities, b: Entities, sockets: Entities) {
    && a == PassEntities(h.passA)
    && sweep == SweepOf(h.signals)
    && b == PassEntities(h.passB)
    && AllRows(h.sockets, RichKinds(), h.ipv6).Some?
    && sockets == SocketsOf(h.sockets, Walked(a, sweep), AllRows(h.sockets, RichKinds(), h.ipv6).value)
  }

  /** What a readdir pass over a source records, whatever it is labelled. */
  function PassEntities(s: ProcSource): (r: Entities)
    ensures r.Processes?
  {
    Collected(s, None, 0).entities
  }

  lemma SameEntities(s: ProcSource, pass: Option<Text>, d: int)
    ensures Collected(s, pass, d).entities == PassEntities(s)
  {
  }

  method CollectPass(s: ProcSource, pass: Text, durationMs: int) returns (o: Observation)
    ensures o.entities == PassEntities(s)
  {
    var collector := new ProcfsProcessCollector(Some(pass));
    o := collector.Collect(s, durationMs);
    SameEntities(s, Some(pass), durationMs);
  }

  method CollectSockets(s: SocketSource, pids: set<int>, ipv6: seq<Byte> -> Text, durationMs: int)
    returns (o: Option<Observation>)
    ensures o.Some? <==> AllRows(s, RichKinds(), ipv6).Some?
    ensures o.Some? ==> o.value.entities == SocketsOf(s, pids, AllRows(s, RichKinds(), ipv6).value)
  {
    var collector := new SocketCollector(pids);
    o := collector.Collect(s, ipv6, durationMs);
  }

  method CollectTasks(s: SignalSource, sweepMs: int, durationMs: int) returns (o: Observation)
    ensures o.entities == SweepOf(s)
  {
    o := CollectSweep(s, sweepMs, durationMs);
  }

  /** The observations in the order they were made. */
  function Taken(h: Host, a: Observation, sweep: Observation, b: Observation, sockets: Observation): Snapshot {
    Snapshot(h.schemaVersion, h.snapshotId, h.capturedAt, h.facts, h.meta,
             [a, sweep, b, h.modules, h.evidence, h.hooks, sockets])
  }

  lemma TakenIsCapture(h: Host, a: Observation, sweep: Observation, b: Observation, sockets: Observation)
    requires WellFormed(h) && Wired(h, a.entities, sweep.entities, b.entities, sockets.entities)
    ensures IsCapture(Taken(h, a, sweep, b, sockets), h)
  {
    var os := Taken(h, a, sweep, b, sockets).observations;
    assert os[0] == a && os[1] == sweep && os[2] == b && os[6] == sockets;
  }

  /** The capture; nothing when a socket table does not parse. */
  method CaptureSnapshot(h: Host, sweepMs: int, durationMs: int) returns (s: Option<Snapshot>)
    requires WellFormed(h)
    ensures s.Some? <==> AllRows(h.sockets, RichKinds(), h.ipv6).Some?
    ensures s.Some? ==> IsCapture(s.value, h)
  {
    var a := CollectPass(h.passA, Lit("A"), durationMs);
    var sweep := CollectTasks(h.signals, sweepMs, durationMs);
    var b := CollectPass(h.passB, Lit("B"), durationMs);
    var sockets := CollectSockets(h.sockets, Walked(a.entities, sweep.entities), h.ipv6, durationMs);
    if sockets.None? {
      return None;
    }
    TakenIsCapture(h, a, sweep, b, sockets.value);
    s := Some(Taken(h, a, sweep, b, sockets.value));
  }

  // ---------------------------------------------------------------------------------------------
  // The views of a capture

  /** The first observation of a collector is the one no earlier one precedes. */
  lemma {:induction false} FirstAt(os: seq<Observation>, c: Collector, i: nat)
    requires i < |os| && os[i].Collector() == c
    requires forall j :: 0 <= j < i ==> os[j].Collector() != c
    ensures ByCollector(os, c) != [] && ByCollector(os, c)[0] == os[i]
  {
    if i > 0 {
      FirstAt(os[1..], c, i - 1);
    }
  }

  /** Passes at 0 and 2, then the sweep, the modules, the evidence, the hooks and the sockets. */
  predicate Kinds(os: seq<Observation>) {
    && |os| == 7
    && os[0].entities.Processes? && os[1].entities.Sweep? && os[2].entities.Processes? && os[3].entities.Modules?
    && os[4].entities.Evidences? && os[5].entities.Hooks? && os[6].entities.Sockets?
  }

  lemma FirstSweep(os: seq<Observation>)
    requires Kinds(os)
    ensures ByCollector(os, SyscallSweep) != [] && ByCollector(os, SyscallSweep)[0] == os[1]
  {
    FirstAt(os, SyscallSweep, 1);
  }

  lemma FirstHooks(os: seq<Observation>)
    requires Kinds(os)
    ensures ByCollector(os, KernelHooks) != [] && ByCollector(os, KernelHooks)[0] == os[5]
  {
    FirstAt(os, KernelHooks, 5);
  }

  lemma FirstSockets(os: seq<Observation>)
    requires Kinds(os)
    ensures ByCollector(os, ProcfsSockets) != [] && ByCollector(os, ProcfsSockets)[0] == os[6]
  {
    FirstAt(os, ProcfsSockets, 6);
  }

  lemma ViewsByKind(s: Snapshot)
    requires Kinds(s.observations)
    ensures s.observations[0] in Observations(s, ProcfsProcesses)
    ensures First(s, SyscallSweep) == Some(s.observations[1])
    ensures First(s, KernelHooks) == Some(s.observations[5])
    ensures First(s, ProcfsSockets) == Some(s.observations[6])
  {
    FirstSweep(s.observations);
    FirstHooks(s.observations);
    FirstSockets(s.observations);
    assert s.observations[0] in s.observations;
  }

  lemma CaptureKinds(s: Snapshot, h: Host)
    requires IsCapture(s, h)
    ensures Kinds(s.observations)
  {
  }

  lemma CaptureViews(s: Snapshot, h: Host)
    requires IsCapture(s, h)
    ensures s.observations[0].entities.Processes?
    ensures s.observations[0] in Observations(s, ProcfsProcesses)
    ensures First(s, SyscallSweep) == Some(s.observations[1])
    ensures First(s, KernelHooks) == Some(s.observations[5])
    ensures First(s, ProcfsSockets) == Some(s.observations[6])
    ensures s.observations[5] == h.hooks
  {
    CaptureKinds(s, h);
    ViewsByKind(s);
  }

  lemma SweepCovered(h: Host)
    ensures Covered(SweepOf(h.signals).tasks, SweepOf(h.signals).swept)
    ensures forall t :: t in SweepOf(h.signals).tasks <==> t in h.signals.alive
  {
    SortSameElements(h.signals.alive, IntKey);
    var tasks := SweepOf(h.signals).tasks;
    forall i | 0 <= i < |tasks| ensures tasks[i] in SweepOf(h.signals).swept {
      assert tasks[i] in tasks;
    }
  }

  /** What a capture records can be analysed: every id the detectors look up has an entity. */
  lemma CaptureIndexable(s: Snapshot, h: Host)
    requires IsCapture(s, h)
    ensures Indexable(s)
  {
    CaptureViews(s, h);
    SweepCovered(h);
    var o := s.observations[6].entities;
    forall i | 0 <= i < |o.socketKeys| ensures o.socketKeys[i] in o.sockets {
      assert o.socketKeys[i] in o.socketKeys;
    }
  }

  /** Every owner of an in-table socket is a walked pid. */
  lemma OwnersWereWalked(s: Snapshot, h: Host, k: Text, p: int)
    requires IsCapture(s, h)
    requires k in s.observations[6].entities.sockets && p in s.observations[6].entities.sockets[k].ownerPids
    ensures p in s.observations[0].entities.pids || p in h.signals.alive
  {
    var walked := Walked(s.observations[0].entities, s.observations[1].entities);
    OwnersExact(h.sockets, walked, AllRows(h.sockets, RichKinds(), h.ipv6).value, k, p);
    SweepCovered(h);
  }

  /** An unlisted socket owner was swept, and the sweep's account of it is its thread group. */
  lemma SocketTgidsWereSwept(s: Snapshot, h: Host, t: int) returns (task: int)
    requires IsCapture(s, h) && Indexable(s)
    requires t in SocketTgids(s)
    ensures task in h.signals.alive && SweptEntity(h.signals, task).tgid == t
  {
    CaptureViews(s, h);
    SweepCovered(h);
    var o := s.observations[6].entities;
    var k, p :| k in o.socketKeys && o.sockets[k].inTable && p in o.sockets[k].ownerPids && t == Fold(TaskFold(s), p);
    OwnersWereWalked(s, h, k, p);
    FirstPassListed(s, h);
    task := p;
  }

  lemma FirstPassListed(s: Snapshot, h: Host)
    requires IsCapture(s, h)
    ensures forall p :: p in s.observations[0].entities.pids ==> p in ListedPids(s)
  {
    CaptureViews(s, h);
  }

  lemma ReadableIsSeen(tasks: seq<int>, swept: map<int, SweepEntity>, task: int)
    requires Covered(tasks, swept) && task in tasks
    ensures swept[task].statusReadable ==> swept[task].tgid in ReadableTgids(tasks, swept)
  {
  }

  /** A socket suspect the sweep does not confirm is a swept, unlisted id whose own status could not be
      read. */
  lemma UnconfirmedIsUnreadable(s: Snapshot, h: Host, t: int)
    requires IsCapture(s, h) && Indexable(s)
    requires t in SocketTgids(s) && t !in HiddenTgids(s)
    ensures t in h.signals.alive && t !in ListedPids(s) && h.signals.status(t).None?
  {
    var task := SocketTgidsWereSwept(s, h, t);
    CaptureViews(s, h);
    SweepCovered(h);
    var sweep := s.observations[1].entities;
    assert task in sweep.tasks && sweep.swept[task] == SweptEntity(h.signals, task);
    ReadableIsSeen(sweep.tasks, sweep.swept, task);
  }

  lemma HiddenWasSwept(s: Snapshot, h: Host, t: int)
    requires IsCapture(s, h) && Indexable(s) && t in HiddenTgids(s)
    ensures exists task :: task in h.signals.alive && SweptEntity(h.signals, task).tgid == t
  {
    CaptureViews(s, h);
    SweepCovered(h);
    var sweep := s.observations[1].entities;
    var task :| task in sweep.tasks && sweep.swept[task].statusReadable && sweep.swept[task].tgid == t;
    assert sweep.swept[task] == SweptEntity(h.signals, task);
  }

  /** Capturing this way makes socket corroboration sound: every process finding is about the thread
      group of a swept task, and a LOW one only about a swept, unlisted id whose own status was
      unreadable. */
  lemma CaptureSound(s: Snapshot, h: Host, baseline: Option<Snapshot>, t: int, f: Finding)
    requires IsCapture(s, h) && Indexable(s)
    requires f in Analyze(s, baseline) && f.subject == Lit("pid ") + Decimal(t)
    ensures exists task :: task in h.signals.alive && SweptEntity(h.signals, task).tgid == t
    ensures f.confidence == Low ==> t in h.signals.alive && t !in ListedPids(s) && h.signals.status(t).None?
  {
    ProcessVerdict(s, baseline, t);
    if t in SocketTgids(s) {
      var task := SocketTgidsWereSwept(s, h, t);
      if t !in HiddenTgids(s) {
        UnconfirmedIsUnreadable(s, h, t);
      }
    } else {
      HiddenWasSwept(s, h, t);
    }
  }

  /** When every swept status could be read, no process finding is LOW. */
  lemma NoLowWhenReadable(s: Snapshot, h: Host, baseline: Option<Snapshot>, f: Finding)
    requires IsCapture(s, h) && Indexable(s)
    requires forall task :: task in h.signals.alive ==> h.signals.status(task).Some?
    requires f in Analyze(s, baseline) && f.kind == HiddenProcess
    ensures f.confidence != Low
  {
    ProcessFindings(s, baseline, f);
    var t :| f.subject == Lit("pid ") + Decimal(t);
    CaptureSound(s, h, baseline, t, f);
  }
}
