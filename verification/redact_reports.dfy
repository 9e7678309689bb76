/** Redaction leaves every conclusion as it was: findings, notes, indicators and the report's text. */
module RedactionReports {
  import opened Text
  import opened Snapshots
  import opened Findings
  import opened Signals
  import opened Pipeline
  import opened Iocs
  import opened Report
  import opened Notes
  import opened Records
  import opened SnapshotJson
  import opened Redaction
  import opened RedactionLoads

  lemma CollectorKept(o: Observation)
    ensures RedactedLoaded(o).Collector() == o.Collector()
  {
  }

  lemma ByCollectorCons(o: Observation, os: seq<Observation>, c: Collector)
    ensures ByCollector([o] + os, c) == if o.Collector() == c then [o] + ByCollector(os, c) else ByCollector(os, c)
  {
    assert ([o] + os)[1..] == os;
  }

  lemma {:induction false} ByCollectorRedacted(os: seq<Observation>, c: Collector)
    ensures ByCollector(MapAll(os, RedactedLoaded), c) == MapAll(ByCollector(os, c), RedactedLoaded)
  {
    if os != [] {
      var o, rest := os[0], os[1..];
      assert os == [o] + rest;
      ByCollectorRedacted(rest, c);
      MapAllCons(o, rest, RedactedLoaded);
      ByCollectorCons(o, rest, c);
      ByCollectorCons(RedactedLoaded(o), MapAll(rest, RedactedLoaded), c);
      CollectorKept(o);
      if o.Collector() == c {
        MapAllCons(o, ByCollector(rest, c), RedactedLoaded);
      }
    }
  }

  lemma FirstRedacted(s: Snapshot, c: Collector)
    ensures First(RedactedSnapshot(s), c) == match First(s, c) case None => None case Some(o) => Some(RedactedLoaded(o))
  {
    ByCollectorRedacted(s.observations, c);
  }

  /** Only the readdir passes change. */
  lemma OthersUnchanged(s: Snapshot, c: Collector)
    requires c != ProcfsProcesses && !c.OtherCollector?
    ensures First(RedactedSnapshot(s), c) == First(s, c)
  {
    FirstRedacted(s, c);
  }

  lemma {:induction false} PassesListingRedacted(passes: seq<Observation>, tgid: int)
    requires forall o :: o in passes ==> o.entities.Processes?
    ensures forall o :: o in MapAll(passes, RedactedLoaded) ==> o.entities.Processes?
    ensures PassesListing(MapAll(passes, RedactedLoaded), tgid) == PassesListing(passes, tgid)
  {
    if passes != [] {
      PassesListingRedacted(passes[1..], tgid);
      assert MapAll(passes, RedactedLoaded)[1..] == MapAll(passes[1..], RedactedLoaded);
    }
  }

  lemma {:induction false} ProcessSignalsRedacted(tasks: seq<int>, swept: map<int, SweepEntity>, listed: set<int>,
                                                  passes: seq<Observation>)
    requires Covered(tasks, swept)
    requires forall o :: o in passes ==> o.entities.Processes?
    ensures forall o :: o in MapAll(passes, RedactedLoaded) ==> o.entities.Processes?
    ensures ProcessSignals(tasks, swept, listed, MapAll(passes, RedactedLoaded)) == ProcessSignals(tasks, swept, listed, passes)
  {
    if tasks != [] {
      var n := |tasks| - 1;
      PassesListingRedacted(passes, swept[tasks[n]].tgid);
      ProcessSignalsRedacted(tasks[..n], swept, listed, passes);
    } else {
      PassesListingRedacted(passes, 0);
    }
  }

  lemma PidsOfRedacted(passes: seq<Observation>)
    ensures PidsOf(MapAll(passes, RedactedLoaded)) == PidsOf(passes)
  {
    var redacted := MapAll(passes, RedactedLoaded);
    forall p ensures p in PidsOf(redacted) <==> p in PidsOf(passes) {
      if p in PidsOf(redacted) {
        var i :| 0 <= i < |redacted| && redacted[i].entities.Processes? && p in redacted[i].entities.pids;
        assert passes[i] in passes;
      }
      if p in PidsOf(passes) {
        var i :| 0 <= i < |passes| && passes[i].entities.Processes? && p in passes[i].entities.pids;
        assert redacted[i] in redacted;
      }
    }
  }

  lemma ListedPidsRedacted(s: Snapshot)
    ensures ListedPids(RedactedSnapshot(s)) == ListedPids(s)
  {
    ByCollectorRedacted(s.observations, ProcfsProcesses);
    PidsOfRedacted(Observations(s, ProcfsProcesses));
  }

  // ---------------------------------------------------------------------------------------------
  // Snapshots that show the detectors the same views

  lemma SameIndexable(s: Snapshot, r: Snapshot)
    requires First(r, SyscallSweep) == First(s, SyscallSweep) && First(r, KernelHooks) == First(s, KernelHooks)
    requires First(r, ProcfsSockets) == First(s, ProcfsSockets)
    requires Observations(r, ProcfsProcesses) == [] <==> Observations(s, ProcfsProcesses) == []
    ensures Indexable(r) <==> Indexable(s)
  {
    assert SweepIndexable(r) <==> SweepIndexable(s);
  }

  lemma SameProcesses(s: Snapshot, r: Snapshot)
    requires ProcessesIndexable(s) && ProcessesIndexable(r)
    requires First(r, SyscallSweep) == First(s, SyscallSweep) && ListedPids(r) == ListedPids(s)
    requires Observations(r, ProcfsProcesses) == MapAll(Observations(s, ProcfsProcesses), RedactedLoaded)
    ensures DetectProcesses(r) == DetectProcesses(s)
  {
    var passes := Observations(s, ProcfsProcesses);
    assert |MapAll(passes, RedactedLoaded)| == |passes|;
    if First(s, SyscallSweep).Some? && passes != [] {
      var sweep := First(s, SyscallSweep).value.entities;
      ProcessSignalsRedacted(sweep.tasks, sweep.swept, ListedPids(s), passes);
    }
  }

  lemma SameSockets(s: Snapshot, r: Snapshot)
    requires SocketsIndexable(s) && SocketsIndexable(r)
    requires First(r, SyscallSweep) == First(s, SyscallSweep) && First(r, ProcfsSockets) == First(s, ProcfsSockets)
    requires ListedPids(r) == ListedPids(s)
    ensures DetectSockets(r) == DetectSockets(s)
  {
    if First(s, ProcfsSockets).Some? {
      assert TaskFold(r) == TaskFold(s);
    }
  }

  lemma SameListing(s: Snapshot, r: Snapshot)
    requires First(r, ProcfsModules) == First(s, ProcfsModules)
    ensures ListedModules(r) == ListedModules(s)
    ensures ListedMarkers(r) == ListedMarkers(s)
  {
  }

  lemma SameOrphans(s: Snapshot, r: Snapshot)
    requires First(r, ProcfsModules) == First(s, ProcfsModules)
    requires First(r, KernelModuleEvidence) == First(s, KernelModuleEvidence)
    ensures OrphanNames(r) == OrphanNames(s)
  {
    SameListing(s, r);
    assert FtraceNames(r) == FtraceNames(s);
  }

  lemma SameAnonymous(s: Snapshot, r: Snapshot, o: Observation)
    requires First(r, ProcfsModules) == First(s, ProcfsModules)
    ensures TaintSignals(r, o) == TaintSignals(s, o) && RegionSignals(r, o) == RegionSignals(s, o)
  {
    SameListing(s, r);
  }

  lemma SameModules(s: Snapshot, r: Snapshot)
    requires First(r, ProcfsModules) == First(s, ProcfsModules)
    requires First(r, KernelModuleEvidence) == First(s, KernelModuleEvidence)
    ensures DetectModules(r) == DetectModules(s)
  {
    SameOrphans(s, r);
    if First(s, KernelModuleEvidence).Some? {
      SameAnonymous(s, r, First(s, KernelModuleEvidence).value);
    }
  }

  lemma SameHooks(s: Snapshot, r: Snapshot)
    requires HooksIndexable(s) && HooksIndexable(r)
    requires First(r, ProcfsModules) == First(s, ProcfsModules) && First(r, KernelHooks) == First(s, KernelHooks)
    ensures DetectHooks(r) == DetectHooks(s)
  {
    SameListing(s, r);
  }

  lemma SameCorroboration(s: Snapshot, r: Snapshot)
    requires First(r, ProcfsModules) == First(s, ProcfsModules) && First(r, KernelHooks) == First(s, KernelHooks)
    requires First(r, KernelModuleEvidence) == First(s, KernelModuleEvidence)
    ensures Corroboration(r) == Corroboration(s)
  {
    SameListing(s, r);
  }

  lemma SameSignals(s: Snapshot, r: Snapshot, b: Option<Snapshot>, c: Option<Snapshot>)
    requires Indexable(s) && Indexable(r)
    requires DetectProcesses(r) == DetectProcesses(s) && DetectModules(r) == DetectModules(s)
    requires DetectHooks(r) == DetectHooks(s) && DetectSockets(r) == DetectSockets(s)
    requires Corroboration(r) == Corroboration(s) && Drift(r, c) == Drift(s, b)
    ensures AllSignals(r, c) == AllSignals(s, b)
  {
    assert OverListed(r) == OverListed(s);
  }

  lemma SameNotes(s: Snapshot, r: Snapshot)
    requires First(r, ProcfsModules) == First(s, ProcfsModules) && Corroboration(r) == Corroboration(s)
    requires First(r, KernelModuleEvidence) == First(s, KernelModuleEvidence)
    ensures ChannelNotes(r) == ChannelNotes(s)
  {
    SameListing(s, r);
    assert TaintNotes(r) == TaintNotes(s);
    assert OverListedNotes(r) == OverListedNotes(s);
  }

  // ---------------------------------------------------------------------------------------------
  // The conclusions

  lemma ViewsRedacted(s: Snapshot, r: Snapshot)
    requires r == RedactedSnapshot(s)
    ensures First(r, SyscallSweep) == First(s, SyscallSweep) && First(r, ProcfsModules) == First(s, ProcfsModules)
    ensures First(r, KernelModuleEvidence) == First(s, KernelModuleEvidence) && First(r, KernelHooks) == First(s, KernelHooks)
    ensures First(r, ProcfsSockets) == First(s, ProcfsSockets) && ListedPids(r) == ListedPids(s)
    ensures Observations(r, ProcfsProcesses) == MapAll(Observations(s, ProcfsProcesses), RedactedLoaded)
    ensures Indexable(r) <==> Indexable(s)
  {
    OthersUnchanged(s, SyscallSweep);
    OthersUnchanged(s, ProcfsModules);
    OthersUnchanged(s, KernelModuleEvidence);
    OthersUnchanged(s, KernelHooks);
    OthersUnchanged(s, ProcfsSockets);
    ListedPidsRedacted(s);
    ByCollectorRedacted(s.observations, ProcfsProcesses);
    SameIndexable(s, r);
  }

  function RedactedBaseline(b: Option<Snapshot>): Option<Snapshot> {
    match b case None => None case Some(t) => Some(RedactedSnapshot(t))
  }

  lemma DriftRedacted(s: Snapshot, b: Option<Snapshot>)
    ensures Drift(RedactedSnapshot(s), b) == Drift(s, b)
    ensures Drift(s, RedactedBaseline(b)) == Drift(s, b)
  {
    OthersUnchanged(s, ProcfsModules);
    SameListing(s, RedactedSnapshot(s));
    if b.Some? {
      OthersUnchanged(b.value, ProcfsModules);
      SameListing(b.value, RedactedSnapshot(b.value));
    }
  }

  /** Neither redacting the snapshot nor redacting the baseline changes a signal. */
  lemma SignalsRedacted(s: Snapshot, r: Snapshot, b: Option<Snapshot>)
    requires r == RedactedSnapshot(s)
    ensures Indexable(r) <==> Indexable(s)
    ensures Indexable(s) ==>
              AllSignals(r, b) == AllSignals(s, b) && AllSignals(r, RedactedBaseline(b)) == AllSignals(s, b)
  {
    ViewsRedacted(s, r);
    if Indexable(s) {
      SameProcesses(s, r);
      SameModules(s, r);
      SameHooks(s, r);
      SameSockets(s, r);
      SameCorroboration(s, r);
      DriftRedacted(s, b);
      DriftRedacted(s, RedactedBaseline(b));
      SameSignals(s, r, b, b);
      SameSignals(s, r, b, RedactedBaseline(b));
    }
  }

  lemma NotesRedacted(s: Snapshot, r: Snapshot)
    requires r == RedactedSnapshot(s)
    ensures ChannelNotes(r) == ChannelNotes(s)
  {
    ViewsRedacted(s, r);
    SameCorroboration(s, r);
    SameNotes(s, r);
  }

  /** `kdetect report`: the text made from a loaded snapshot and what the analysis found in it. */
  function ReportOf(s: Snapshot, findings: seq<Finding>, name: Option<Text>, p: Printer): Text {
    RenderMarkdown(s, findings, Extract(findings), name, ChannelNotes(s), p)
  }

  /** Two snapshots for which the program concludes the same: both analyses raise or neither does, and
      then the findings, the channel notes and the report's text agree. */
  ghost predicate SameConclusions(s: Snapshot, r: Snapshot, b: Option<Snapshot>, name: Option<Text>, p: Printer) {
    && ChannelNotes(r) == ChannelNotes(s)
    && (Indexable(r) <==> Indexable(s))
    && (Indexable(s) ==>
          && Analyze(r, b) == Analyze(s, b) && Analyze(r, RedactedBaseline(b)) == Analyze(s, b)
          && ReportOf(r, Analyze(r, b), name, p) == ReportOf(s, Analyze(s, b), name, p))
  }

  lemma SameReport(s: Snapshot, r: Snapshot, fs: seq<Finding>, name: Option<Text>, p: Printer)
    requires r == s.(observations := r.observations) && ChannelNotes(r) == ChannelNotes(s)
    ensures ReportOf(r, fs, name, p) == ReportOf(s, fs, name, p)
  {
    RenderReads(s, r, fs, ChannelNotes(s), name, p);
  }

  lemma ReportRedacted(s: Snapshot, r: Snapshot, b: Option<Snapshot>, name: Option<Text>, p: Printer)
    requires r == RedactedSnapshot(s)
    ensures SameConclusions(s, r, b, name, p)
  {
    SignalsRedacted(s, r, b);
    NotesRedacted(s, r);
    if Indexable(s) {
      SameReport(s, r, Analyze(s, b), name, p);
    }
  }

  /** A snapshot shared after redaction leads to the same findings, notes, indicators and report text
      as the raw one it was made from, with any baseline, redacted or not. */
  lemma RedactionKeepsConclusions(j: Json, s: Snapshot, n: Naming, b: Option<Snapshot>, name: Option<Text>, p: Printer)
    requires Injective(n) && Redactable(j, n) && FromDict(j, n) == Loaded(s)
    ensures FromDict(Redacted(j, n), n) == Loaded(RedactedSnapshot(s))
    ensures SameConclusions(s, RedactedSnapshot(s), b, name, p)
  {
    RedactionCommutesWithLoading(j, s, n);
    ReportRedacted(s, RedactedSnapshot(s), b, name, p);
  }

  /** The report reads the snapshot's host, capture, time and version, and not its observations. */
  lemma RenderReads(s: Snapshot, r: Snapshot, fs: seq<Finding>, notes: seq<ChannelNote>, name: Option<Text>, p: Printer)
    requires r == s.(observations := r.observations)
    ensures RenderMarkdown(r, fs, Extract(fs), name, notes, p) == RenderMarkdown(s, fs, Extract(fs), name, notes, p)
  {
    assert HeaderElements(r, fs, name) == HeaderElements(s, fs, name);
  }
}
