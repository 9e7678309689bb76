/** The process indicators of an analysed snapshot, in terms of its sockets and swept tasks. */
module ProcessIocs {
  import opened Text
  import opened Sorting
  import opened Snapshots
  import opened Findings
  import opened Signals
  import opened Scoring
  import opened Pipeline
  import opened Iocs

  // ---------------------------------------------------------------------------------------------
  // Hidden-process findings and what they offer

  lemma HiddenProcessIn(sigs: seq<Signal>, v: View, f: Finding)
    requires Matches(sigs, v)
    ensures f in Score(sigs) && f.kind == HiddenProcess
       <==> exists t :: t in v.hidden + v.sockets && f == FindingFor(sigs, ProcessOf(t))
  {
    if f in Score(sigs) && f.kind == HiddenProcess {
      ProcessFindingsOf(sigs, v, f);
      var t :| t in v.hidden + v.sockets && f.subject == SubjectOf(ProcessOf(t));
      ProcessVerdictOf(sigs, v, t, f);
    }
    if t :| t in v.hidden + v.sockets && f == FindingFor(sigs, ProcessOf(t)) {
      ProcessFinding(sigs, v, t);
      FindingParts(sigs, ProcessOf(t));
      ProcessVerdictOf(sigs, v, t, f);
    }
  }

  /** What a hidden-process finding offers of each type. */
  lemma ProcessOffers(f: Finding, i: Ioc)
    requires f.kind == HiddenProcess
    ensures i in Offers(f) && i.type_ == NetworkEndpoint <==> i in OfferSockets(f, EvidenceUnder(f, SocketVisible))
    ensures i in Offers(f) && i.type_ == ProcessName
       <==> i in OfferComms(f, EvidenceUnder(f, SyscallKill)) || i in OfferComms(f, EvidenceUnder(f, DirectStatus))
  {
    CommsOffered(f, EvidenceUnder(f, SyscallKill), i);
    CommsOffered(f, EvidenceUnder(f, DirectStatus), i);
    SocketsOffered(f, EvidenceUnder(f, SocketVisible), i);
  }

  lemma ProcessTyped(f: Finding, i: Ioc)
    requires i in Offers(f) && (i.type_ == NetworkEndpoint || i.type_ == ProcessName)
    ensures f.kind == HiddenProcess
  {
    if f.kind == HiddenModule {
      HookOffers(f, EvidenceUnder(f, UnexpectedHook), i);
    }
  }

  lemma OfferedByProcess(sigs: seq<Signal>, v: View, i: Ioc)
    requires Matches(sigs, v)
    requires i.type_ == NetworkEndpoint || i.type_ == ProcessName
    ensures i in AllOffers(Score(sigs))
       <==> exists t :: t in v.hidden + v.sockets && i in Offers(FindingFor(sigs, ProcessOf(t)))
  {
    AllOffersMembers(Score(sigs), i);
    if f :| f in Score(sigs) && i in Offers(f) {
      ProcessTyped(f, i);
      HiddenProcessIn(sigs, v, f);
    }
    if t :| t in v.hidden + v.sockets && i in Offers(FindingFor(sigs, ProcessOf(t))) {
      HiddenProcessIn(sigs, v, FindingFor(sigs, ProcessOf(t)));
    }
  }

  /** Some signal puts evidence e on channel c of suspect x. */
  predicate Puts(sigs: seq<Signal>, x: Suspect, c: Channel, e: Evidence) {
    exists g :: g in sigs && g.suspect == x && g.channel == c && g.evidence == e
  }

  /** A process's finding holds the evidence of its own signals: nothing is attributed to it. */
  lemma ProcessEvidenceOf(sigs: seq<Signal>, t: int, c: Channel, e: Evidence)
    ensures e in EvidenceUnder(FindingFor(sigs, ProcessOf(t)), c) <==> Puts(sigs, ProcessOf(t), c, e)
  {
    var x := ProcessOf(t);
    var group := GroupOf(sigs, x);
    assert group == OfSuspect(sigs, x);
    EvidenceMembers(group, c, e);
    EvidenceNonempty(group, c);
    if g :| g in sigs && g.suspect == x && g.channel == c && g.evidence == e {
      assert g in group;
    }
  }

  // ---------------------------------------------------------------------------------------------
  // Which signals there are

  predicate SignalOf(keys: seq<Text>, sockets: map<Text, SocketEntity>, listed: set<int>, fold: map<int, int>,
                     k: Text, t: int)
    requires Covered(keys, sockets)
  {
    k in keys && sockets[k].inTable && t in FoldedOwners(sockets[k].ownerPids, fold) && t !in listed
  }

  lemma {:induction false} OwnerSignalsExact(e: SocketEntity, owners: seq<int>, listed: set<int>, fold: map<int, int>,
                                             g: Signal)
    ensures g in OwnerSignals(e, owners, listed, fold)
       <==> exists t :: t in FoldedOwners(owners, fold) && t !in listed && g == SocketSignal(e, t)
  {
    if owners != [] {
      var n := |owners| - 1;
      OwnerSignalsExact(e, owners[..n], listed, fold, g);
      assert owners == owners[..n] + [owners[n]];
      assert FoldedOwners(owners, fold) == FoldedOwners(owners[..n], fold) + {Fold(fold, owners[n])};
    }
  }

  lemma {:induction false} SocketSignalsExact(keys: seq<Text>, sockets: map<Text, SocketEntity>, listed: set<int>,
                                              fold: map<int, int>, g: Signal)
    requires Covered(keys, sockets)
    ensures g in SocketSignals(keys, sockets, listed, fold)
       <==> exists k, t :: SignalOf(keys, sockets, listed, fold, k, t) && g == SocketSignal(sockets[k], t)
  {
    if keys != [] {
      var n := |keys| - 1;
      var e := sockets[keys[n]];
      SocketSignalsExact(keys[..n], sockets, listed, fold, g);
      OwnerSignalsExact(e, e.ownerPids, listed, fold, g);
      assert keys == keys[..n] + [keys[n]];
      if k, t :| SignalOf(keys[..n], sockets, listed, fold, k, t) && g == SocketSignal(sockets[k], t) {
        assert SignalOf(keys, sockets, listed, fold, k, t);
      }
      if e.inTable {
        if t :| t in FoldedOwners(e.ownerPids, fold) && t !in listed && g == SocketSignal(e, t) {
          assert SignalOf(keys, sockets, listed, fold, keys[n], t);
        }
      }
      if k, t :| SignalOf(keys, sockets, listed, fold, k, t) && g == SocketSignal(sockets[k], t) {
        assert k == keys[n] || SignalOf(keys[..n], sockets, listed, fold, k, t);
      }
    }
  }

  /** Socket k is in a table and thread group t, which no readdir pass lists, holds it. */
  predicate HeldUnlisted(s: Snapshot, k: Text, t: int)
    requires SocketsIndexable(s)
  {
    First(s, ProcfsSockets).Some?
    && var o := First(s, ProcfsSockets).value.entities;
       SignalOf(o.socketKeys, o.sockets, ListedPids(s), TaskFold(s), k, t)
  }

  function SocketAt(s: Snapshot, k: Text, t: int): SocketEntity
    requires SocketsIndexable(s) && HeldUnlisted(s, k, t)
  {
    First(s, ProcfsSockets).value.entities.sockets[k]
  }

  lemma SocketSignalsOf(s: Snapshot, g: Signal)
    requires SocketsIndexable(s)
    ensures g in DetectSockets(s) <==> exists k, t :: HeldUnlisted(s, k, t) && g == SocketSignal(SocketAt(s, k, t), t)
  {
    if First(s, ProcfsSockets).Some? {
      var o := First(s, ProcfsSockets).value.entities;
      SortSameElements(SocketSignals(o.socketKeys, o.sockets, ListedPids(s), TaskFold(s)), SocketKey);
      SocketSignalsExact(o.socketKeys, o.sockets, ListedPids(s), TaskFold(s), g);
      if k, t :| SignalOf(o.socketKeys, o.sockets, ListedPids(s), TaskFold(s), k, t) && g == SocketSignal(o.sockets[k], t) {
        assert HeldUnlisted(s, k, t);
      }
    }
  }

  lemma OnlyIn(a: seq<Signal>, b: seq<Signal>, d: seq<Signal>, e: seq<Signal>, f: seq<Signal>, h: seq<Signal>, g: Signal)
    requires forall xs :: xs in {b, d, e, f, h} ==> !Fires(xs, g.channel, g.suspect)
    ensures g in a + b + d + e + f + h <==> g in a
  {
    InConcat6(a, b, d, e, f, h, g);
    assert !Fires(b, g.channel, g.suspect) && !Fires(d, g.channel, g.suspect) && !Fires(e, g.channel, g.suspect);
    assert !Fires(f, g.channel, g.suspect) && !Fires(h, g.channel, g.suspect);
  }

  lemma NoOtherSocketSignals(s: Snapshot, baseline: Option<Snapshot>, x: Suspect)
    requires Indexable(s)
    ensures !Fires(DetectProcesses(s), SocketVisible, x) && !Fires(DetectModules(s), SocketVisible, x)
    ensures !Fires(DetectHooks(s), SocketVisible, x) && !Fires(DetectOverListed(s), SocketVisible, x)
    ensures !Fires(DetectDrift(s, baseline), SocketVisible, x)
  {
    var c := SocketVisible;
    ProcessesFire(s, c, x);
    ModulesFire(s, c, x);
    HooksFire(s, c, x);
    NamesFire(OverListed(s), OverListedChannel, EveryCorroboratingChannel, OverListedEvidence, c, x);
    NamesFire(Drift(s, baseline), BaselineDriftChannel, SignedBaseline, DriftEvidence, c, x);
  }

  lemma OnlyFourth(a: seq<Signal>, b: seq<Signal>, d: seq<Signal>, e: seq<Signal>, f: seq<Signal>, h: seq<Signal>,
                   g: Signal)
    requires forall xs :: xs in {a, b, d, f, h} ==> !Fires(xs, g.channel, g.suspect)
    ensures g in a + b + d + e + f + h <==> g in e
  {
    InConcat6(a, b, d, e, f, h, g);
    assert !Fires(a, g.channel, g.suspect) && !Fires(b, g.channel, g.suspect) && !Fires(d, g.channel, g.suspect);
    assert !Fires(f, g.channel, g.suspect) && !Fires(h, g.channel, g.suspect);
  }

  /** Only the socket detector reports on socket_visible. */
  lemma OnlySockets(s: Snapshot, baseline: Option<Snapshot>, g: Signal)
    requires Indexable(s) && g.channel == SocketVisible
    ensures g in AllSignals(s, baseline) <==> g in DetectSockets(s)
  {
    NoOtherSocketSignals(s, baseline, g.suspect);
    OnlyFourth(DetectProcesses(s), DetectModules(s), DetectHooks(s), DetectSockets(s), DetectOverListed(s),
               DetectDrift(s, baseline), g);
  }

  lemma PutBySocket(s: Snapshot, g: Signal, t: int)
    requires SocketsIndexable(s) && g in DetectSockets(s) && g.suspect == ProcessOf(t)
    ensures exists k :: HeldUnlisted(s, k, t) && g == SocketSignal(SocketAt(s, k, t), t)
  {
    SocketSignalsOf(s, g);
    var k, u :| HeldUnlisted(s, k, u) && g == SocketSignal(SocketAt(s, k, u), u);
    ProcessOfInjective(t, u);
  }

  lemma SocketPuts(s: Snapshot, baseline: Option<Snapshot>, t: int, e: Evidence)
    requires Indexable(s)
    ensures Puts(AllSignals(s, baseline), ProcessOf(t), SocketVisible, e)
       <==> exists k :: HeldUnlisted(s, k, t) && e == SocketSignal(SocketAt(s, k, t), t).evidence
  {
    if Puts(AllSignals(s, baseline), ProcessOf(t), SocketVisible, e) {
      var g :| g in AllSignals(s, baseline) && g.suspect == ProcessOf(t) && g.channel == SocketVisible && g.evidence == e;
      OnlySockets(s, baseline, g);
      PutBySocket(s, g, t);
    }
    if k :| HeldUnlisted(s, k, t) && e == SocketSignal(SocketAt(s, k, t), t).evidence {
      var g := SocketSignal(SocketAt(s, k, t), t);
      SocketSignalsOf(s, g);
      OnlySockets(s, baseline, g);
    }
  }

  lemma HeldIsSocketTgid(s: Snapshot, k: Text, t: int)
    requires SocketsIndexable(s) && HeldUnlisted(s, k, t)
    ensures t in SocketTgids(s)
  {
    var o := First(s, ProcfsSockets).value.entities;
    var p :| p in o.sockets[k].ownerPids && t == Fold(TaskFold(s), p);
    assert t in SocketOwners(s);
  }

  // ---------------------------------------------------------------------------------------------
  // Network endpoints

  /** The end of a socket worth sharing: the remote one in a peer state, the local one of a listener,
      either one otherwise; never a placeholder. */
  predicate Exposes(e: SocketEntity, v: Text) {
    && !Placeholder(Some(v))
    && if IsPeerState(e.state) then e.remote == Some(v)
       else if e.state == Some(Lit("LISTEN")) then e.local == Some(v)
       else e.local == Some(v) || e.remote == Some(v)
  }

  lemma ExposesEndpoints(e: SocketEntity, t: int, v: Text)
    ensures Exposes(e, v) <==> !Placeholder(Some(v)) && Some(v) in Endpoints(SocketSignal(e, t).evidence)
  {
  }

  lemma SocketEvidences(s: Snapshot, baseline: Option<Snapshot>, t: int)
    requires Indexable(s)
    ensures forall e :: e in EvidenceUnder(FindingFor(AllSignals(s, baseline), ProcessOf(t)), SocketVisible)
                   <==> exists k :: HeldUnlisted(s, k, t) && e == SocketSignal(SocketAt(s, k, t), t).evidence
  {
    forall e ensures e in EvidenceUnder(FindingFor(AllSignals(s, baseline), ProcessOf(t)), SocketVisible)
                <==> exists k :: HeldUnlisted(s, k, t) && e == SocketSignal(SocketAt(s, k, t), t).evidence {
      ProcessEvidenceOf(AllSignals(s, baseline), t, SocketVisible, e);
      SocketPuts(s, baseline, t, e);
    }
  }

  lemma EndpointOf(s: Snapshot, baseline: Option<Snapshot>, t: int, i: Ioc)
    requires Indexable(s) && t in HiddenTgids(s) + SocketTgids(s)
    ensures var f := FindingFor(AllSignals(s, baseline), ProcessOf(t));
      i in Offers(f) && i.type_ == NetworkEndpoint
      <==> i.type_ == NetworkEndpoint && i.confidence == f.confidence && i.source == f.subject
           && exists k :: HeldUnlisted(s, k, t) && Exposes(SocketAt(s, k, t), i.value)
  {
    var sigs := AllSignals(s, baseline);
    var f := FindingFor(sigs, ProcessOf(t));
    DetectorsMatch(s, baseline);
    ProcessFinding(sigs, ViewOf(s, baseline), t);
    ProcessOffers(f, i);
    SocketEvidences(s, baseline, t);
    EndpointFrom(s, f, EvidenceUnder(f, SocketVisible), t, i);
  }

  lemma EndpointFrom(s: Snapshot, f: Finding, es: seq<Evidence>, t: int, i: Ioc)
    requires Indexable(s)
    requires forall e :: e in es <==> exists k :: HeldUnlisted(s, k, t) && e == SocketSignal(SocketAt(s, k, t), t).evidence
    ensures i in OfferSockets(f, es)
       <==> i.type_ == NetworkEndpoint && i.confidence == f.confidence && i.source == f.subject
            && exists k :: HeldUnlisted(s, k, t) && Exposes(SocketAt(s, k, t), i.value)
  {
    SocketsOffered(f, es, i);
    if e :| e in es && Some(i.value) in Endpoints(e) && !Placeholder(Some(i.value)) {
      var k :| HeldUnlisted(s, k, t) && e == SocketSignal(SocketAt(s, k, t), t).evidence;
      ExposesEndpoints(SocketAt(s, k, t), t, i.value);
    }
    if k :| HeldUnlisted(s, k, t) && Exposes(SocketAt(s, k, t), i.value) {
      ExposesEndpoints(SocketAt(s, k, t), t, i.value);
      assert SocketSignal(SocketAt(s, k, t), t).evidence in es;
    }
  }

  lemma EndpointHeld(s: Snapshot, baseline: Option<Snapshot>, i: Ioc)
    requires Indexable(s)
    requires i in AllOffers(Score(AllSignals(s, baseline))) && i.type_ == NetworkEndpoint
    ensures exists k, t :: HeldUnlisted(s, k, t) && Exposes(SocketAt(s, k, t), i.value)
  {
    var sigs := AllSignals(s, baseline);
    DetectorsMatch(s, baseline);
    OfferedByProcess(sigs, ViewOf(s, baseline), i);
    var t :| t in HiddenTgids(s) + SocketTgids(s) && i in Offers(FindingFor(sigs, ProcessOf(t)));
    EndpointOf(s, baseline, t, i);
  }

  lemma HeldEndpoint(s: Snapshot, baseline: Option<Snapshot>, k: Text, t: int, v: Text)
    requires Indexable(s) && HeldUnlisted(s, k, t) && Exposes(SocketAt(s, k, t), v)
    ensures Offered(AllOffers(Score(AllSignals(s, baseline))), (NetworkEndpoint, v))
  {
    var sigs := AllSignals(s, baseline);
    HeldIsSocketTgid(s, k, t);
    var f := FindingFor(sigs, ProcessOf(t));
    var i := Ioc(NetworkEndpoint, v, f.confidence, f.subject);
    EndpointOf(s, baseline, t, i);
    DetectorsMatch(s, baseline);
    OfferedByProcess(sigs, ViewOf(s, baseline), i);
    assert KeyOf(i) == (NetworkEndpoint, v);
  }

  /** The network_endpoint indicators are exactly the ends worth sharing of the in-table sockets that
      an unlisted thread group holds. */
  lemma EndpointIocs(s: Snapshot, baseline: Option<Snapshot>, v: Text)
    requires Indexable(s)
    ensures Offered(Extract(Analyze(s, baseline)), (NetworkEndpoint, v))
       <==> exists k, t :: HeldUnlisted(s, k, t) && Exposes(SocketAt(s, k, t), v)
  {
    var fs := Analyze(s, baseline);
    ExtractedKeys(fs, NetworkEndpoint, v);
    if i :| i in AllOffers(fs) && KeyOf(i) == (NetworkEndpoint, v) {
      EndpointHeld(s, baseline, i);
    }
    if k, t :| HeldUnlisted(s, k, t) && Exposes(SocketAt(s, k, t), v) {
      HeldEndpoint(s, baseline, k, t, v);
    }
  }

  // ---------------------------------------------------------------------------------------------
  // Process names

  /** Task i is the first of its thread group whose status could be read. */
  predicate FirstReadable(tasks: seq<int>, swept: map<int, SweepEntity>, i: int)
    requires Covered(tasks, swept)
  {
    && 0 <= i < |tasks|
    && swept[tasks[i]].statusReadable
    && swept[tasks[i]].tgid !in ReadableTgids(tasks[..i], swept)
  }

  predicate PairAt(tasks: seq<int>, swept: map<int, SweepEntity>, listed: set<int>, passes: seq<Observation>, i: int,
                   g: Signal)
    requires Covered(tasks, swept)
    requires forall o :: o in passes ==> o.entities.Processes?
  {
    FirstReadable(tasks, swept, i) && swept[tasks[i]].tgid !in listed && g in ProcessPair(swept[tasks[i]], passes)
  }

  lemma {:induction false} ProcessSignalsExact(tasks: seq<int>, swept: map<int, SweepEntity>, listed: set<int>,
                                               passes: seq<Observation>, g: Signal)
    requires Covered(tasks, swept)
    requires forall o :: o in passes ==> o.entities.Processes?
    ensures g in ProcessSignals(tasks, swept, listed, passes) <==> exists i :: PairAt(tasks, swept, listed, passes, i, g)
  {
    if tasks != [] {
      var n := |tasks| - 1;
      ProcessSignalsExact(tasks[..n], swept, listed, passes, g);
      forall i | 0 <= i < n
        ensures PairAt(tasks, swept, listed, passes, i, g) <==> PairAt(tasks[..n], swept, listed, passes, i, g)
      {
        assert tasks[..n][..i] == tasks[..i] && tasks[..n][i] == tasks[i];
      }
      if i :| PairAt(tasks[..n], swept, listed, passes, i, g) {
        assert PairAt(tasks, swept, listed, passes, i, g);
      }
      if i :| PairAt(tasks, swept, listed, passes, i, g) {
        assert i == n || PairAt(tasks[..n], swept, listed, passes, i, g);
      }
      if PairAt(tasks, swept, listed, passes, n, g) {
        assert g in ProcessSignals(tasks, swept, listed, passes);
      }
    }
  }

  function Tasks(s: Snapshot): seq<int>
    requires First(s, SyscallSweep).Some?
  {
    First(s, SyscallSweep).value.entities.tasks
  }

  function Swept(s: Snapshot): map<int, SweepEntity>
    requires First(s, SyscallSweep).Some?
  {
    First(s, SyscallSweep).value.entities.swept
  }

  /** The sweep has something to say, and a readdir pass something to compare it with. */
  predicate Compared(s: Snapshot) {
    First(s, SyscallSweep).Some? && Observations(s, ProcfsProcesses) != []
  }

  /** Swept task i speaks for its thread group, which no readdir pass lists. */
  predicate Speaks(s: Snapshot, i: int)
    requires ProcessesIndexable(s)
  {
    && Compared(s)
    && FirstReadable(Tasks(s), Swept(s), i)
    && Swept(s)[Tasks(s)[i]].tgid in HiddenTgids(s)
  }

  function SpeakerAt(s: Snapshot, i: int): SweepEntity
    requires ProcessesIndexable(s) && Speaks(s, i)
  {
    Swept(s)[Tasks(s)[i]]
  }

  lemma {:induction false} FirstReadableIsReadable(tasks: seq<int>, swept: map<int, SweepEntity>, i: int)
    requires Covered(tasks, swept) && FirstReadable(tasks, swept, i)
    ensures swept[tasks[i]].tgid in ReadableTgids(tasks, swept)
  {
    var n := |tasks| - 1;
    assert tasks == tasks[..n] + [tasks[n]];
    ReadableTgidsStep(tasks[..n], tasks[n], swept);
    if i < n {
      assert tasks[..n][..i] == tasks[..i];
      FirstReadableIsReadable(tasks[..n], swept, i);
    }
  }

  lemma DetectCompared(s: Snapshot)
    requires ProcessesIndexable(s)
    ensures Compared(s) ==>
              && DetectProcesses(s) == ProcessSignals(Tasks(s), Swept(s), ListedPids(s), Observations(s, ProcfsProcesses))
              && HiddenTgids(s) == ReadableTgids(Tasks(s), Swept(s)) - ListedPids(s)
    ensures !Compared(s) ==> DetectProcesses(s) == [] && HiddenTgids(s) == {}
  {
  }

  lemma SpeakerPair(s: Snapshot, i: int, g: Signal)
    requires ProcessesIndexable(s) && Compared(s)
    ensures PairAt(Tasks(s), Swept(s), ListedPids(s), Observations(s, ProcfsProcesses), i, g)
       <==> Speaks(s, i) && g in ProcessPair(SpeakerAt(s, i), Observations(s, ProcfsProcesses))
  {
    DetectCompared(s);
    if FirstReadable(Tasks(s), Swept(s), i) {
      FirstReadableIsReadable(Tasks(s), Swept(s), i);
    }
  }

  lemma ProcessSignalsOf(s: Snapshot, g: Signal)
    requires ProcessesIndexable(s)
    ensures g in DetectProcesses(s)
       <==> exists i :: Speaks(s, i) && g in ProcessPair(SpeakerAt(s, i), Observations(s, ProcfsProcesses))
  {
    DetectCompared(s);
    if Compared(s) {
      ProcessSignalsExact(Tasks(s), Swept(s), ListedPids(s), Observations(s, ProcfsProcesses), g);
      forall i ensures PairAt(Tasks(s), Swept(s), ListedPids(s), Observations(s, ProcfsProcesses), i, g)
                  <==> Speaks(s, i) && g in ProcessPair(SpeakerAt(s, i), Observations(s, ProcfsProcesses)) {
        SpeakerPair(s, i, g);
      }
    }
  }

  /** Only the process detector reports on its two channels. */
  lemma NoOtherProcessSignals(s: Snapshot, baseline: Option<Snapshot>, c: Channel, x: Suspect)
    requires Indexable(s) && (c == SyscallKill || c == DirectStatus)
    ensures !Fires(DetectModules(s), c, x) && !Fires(DetectHooks(s), c, x) && !Fires(DetectSockets(s), c, x)
    ensures !Fires(DetectOverListed(s), c, x) && !Fires(DetectDrift(s, baseline), c, x)
  {
    ModulesFire(s, c, x);
    HooksFire(s, c, x);
    SocketsFire(s, c, x);
    NamesFire(OverListed(s), OverListedChannel, EveryCorroboratingChannel, OverListedEvidence, c, x);
    NamesFire(Drift(s, baseline), BaselineDriftChannel, SignedBaseline, DriftEvidence, c, x);
  }

  lemma OnlyProcesses(s: Snapshot, baseline: Option<Snapshot>, g: Signal)
    requires Indexable(s) && (g.channel == SyscallKill || g.channel == DirectStatus)
    ensures g in AllSignals(s, baseline) <==> g in DetectProcesses(s)
  {
    NoOtherProcessSignals(s, baseline, g.channel, g.suspect);
    OnlyIn(DetectProcesses(s), DetectModules(s), DetectHooks(s), DetectSockets(s), DetectOverListed(s),
           DetectDrift(s, baseline), g);
  }

  lemma PairShows(ent: SweepEntity, passes: seq<Observation>, g: Signal)
    requires forall o :: o in passes ==> o.entities.Processes?
    requires g in ProcessPair(ent, passes)
    ensures g.evidence.ProcessEvidence? && g.evidence.comm == ent.comm && g.suspect == ProcessOf(ent.tgid)
  {
  }

  lemma PairHas(ent: SweepEntity, passes: seq<Observation>, c: Channel) returns (g: Signal)
    requires forall o :: o in passes ==> o.entities.Processes?
    requires c == SyscallKill || c == DirectStatus
    ensures g in ProcessPair(ent, passes) && g.channel == c
  {
    var pair := ProcessPair(ent, passes);
    g := if c == SyscallKill then pair[0] else pair[1];
  }

  /** Some signal of thread group t on channel c shows comm v. */
  predicate ShowsComm(sigs: seq<Signal>, t: int, c: Channel, v: Text) {
    exists g :: g in sigs && g.suspect == ProcessOf(t) && g.channel == c && g.evidence.ProcessEvidence?
                && g.evidence.comm == Some(v)
  }

  lemma SpeakerFound(s: Snapshot, g: Signal) returns (i: int)
    requires ProcessesIndexable(s) && g in DetectProcesses(s)
    ensures Speaks(s, i) && g in ProcessPair(SpeakerAt(s, i), Observations(s, ProcfsProcesses))
  {
    ProcessSignalsOf(s, g);
    i :| Speaks(s, i) && g in ProcessPair(SpeakerAt(s, i), Observations(s, ProcfsProcesses));
  }

  lemma SpeakerShows(s: Snapshot, i: int, g: Signal)
    requires ProcessesIndexable(s) && Speaks(s, i)
    requires g in ProcessPair(SpeakerAt(s, i), Observations(s, ProcfsProcesses))
    ensures g.evidence.ProcessEvidence? && g.evidence.comm == SpeakerAt(s, i).comm
    ensures g.suspect == ProcessOf(SpeakerAt(s, i).tgid)
  {
    PairShows(SpeakerAt(s, i), Observations(s, ProcfsProcesses), g);
  }

  lemma ShownIsSpoken(s: Snapshot, g: Signal, v: Text) returns (i: int)
    requires ProcessesIndexable(s) && g in DetectProcesses(s)
    requires g.evidence.ProcessEvidence? && g.evidence.comm == Some(v)
    ensures Speaks(s, i) && g.suspect == ProcessOf(SpeakerAt(s, i).tgid) && SpeakerAt(s, i).comm == Some(v)
  {
    i := SpeakerFound(s, g);
    SpeakerShows(s, i, g);
  }

  lemma SpokenIsShown(s: Snapshot, i: int, c: Channel) returns (g: Signal)
    requires ProcessesIndexable(s) && Speaks(s, i)
    requires c == SyscallKill || c == DirectStatus
    ensures g in DetectProcesses(s) && g.channel == c && g.suspect == ProcessOf(SpeakerAt(s, i).tgid)
    ensures g.evidence.ProcessEvidence? && g.evidence.comm == SpeakerAt(s, i).comm
  {
    g := PairHas(SpeakerAt(s, i), Observations(s, ProcfsProcesses), c);
    PairShows(SpeakerAt(s, i), Observations(s, ProcfsProcesses), g);
    ProcessSignalsOf(s, g);
  }

  /** The comms that the evidence on one of the two channels shows are those of the group's speaker. */
  lemma CommShown(s: Snapshot, baseline: Option<Snapshot>, t: int, c: Channel, v: Text)
    requires Indexable(s) && (c == SyscallKill || c == DirectStatus)
    ensures ShowsComm(AllSignals(s, baseline), t, c, v)
       <==> exists i :: Speaks(s, i) && SpeakerAt(s, i).tgid == t && SpeakerAt(s, i).comm == Some(v)
  {
    if ShowsComm(AllSignals(s, baseline), t, c, v) {
      var g :| g in AllSignals(s, baseline) && g.suspect == ProcessOf(t) && g.channel == c
               && g.evidence.ProcessEvidence? && g.evidence.comm == Some(v);
      OnlyProcesses(s, baseline, g);
      var i := ShownIsSpoken(s, g, v);
      ProcessOfInjective(t, SpeakerAt(s, i).tgid);
    }
    if i :| Speaks(s, i) && SpeakerAt(s, i).tgid == t && SpeakerAt(s, i).comm == Some(v) {
      var g := SpokenIsShown(s, i, c);
      OnlyProcesses(s, baseline, g);
    }
  }

  lemma NameOfGroup(s: Snapshot, baseline: Option<Snapshot>, t: int, i: Ioc)
    requires Indexable(s) && t in HiddenTgids(s) + SocketTgids(s)
    ensures var f := FindingFor(AllSignals(s, baseline), ProcessOf(t));
      i in Offers(f) && i.type_ == ProcessName
      <==> i.type_ == ProcessName && i.value != [] && i.confidence == f.confidence && i.source == f.subject
           && exists k :: Speaks(s, k) && SpeakerAt(s, k).tgid == t && SpeakerAt(s, k).comm == Some(i.value)
  {
    var sigs := AllSignals(s, baseline);
    var f := FindingFor(sigs, ProcessOf(t));
    DetectorsMatch(s, baseline);
    ProcessFinding(sigs, ViewOf(s, baseline), t);
    ProcessOffers(f, i);
    CommsUnder(sigs, t, SyscallKill, f, i);
    CommsUnder(sigs, t, DirectStatus, f, i);
    CommShown(s, baseline, t, SyscallKill, i.value);
    CommShown(s, baseline, t, DirectStatus, i.value);
  }

  lemma CommsUnder(sigs: seq<Signal>, t: int, c: Channel, f: Finding, i: Ioc)
    requires f == FindingFor(sigs, ProcessOf(t))
    ensures i in OfferComms(f, EvidenceUnder(f, c))
       <==> i.type_ == ProcessName && i.value != [] && i.confidence == f.confidence && i.source == f.subject
            && ShowsComm(sigs, t, c, i.value)
  {
    CommsOffered(f, EvidenceUnder(f, c), i);
    if e :| e in EvidenceUnder(f, c) && e.ProcessEvidence? && e.comm == Some(i.value) {
      ProcessEvidenceOf(sigs, t, c, e);
    }
    if g :| g in sigs && g.suspect == ProcessOf(t) && g.channel == c && g.evidence.ProcessEvidence?
            && g.evidence.comm == Some(i.value) {
      ProcessEvidenceOf(sigs, t, c, g.evidence);
    }
  }

  lemma NameSpoken(s: Snapshot, baseline: Option<Snapshot>, i: Ioc)
    requires Indexable(s)
    requires i in AllOffers(Score(AllSignals(s, baseline))) && i.type_ == ProcessName
    ensures i.value != [] && exists k :: Speaks(s, k) && SpeakerAt(s, k).comm == Some(i.value)
  {
    var sigs := AllSignals(s, baseline);
    DetectorsMatch(s, baseline);
    OfferedByProcess(sigs, ViewOf(s, baseline), i);
    var t :| t in HiddenTgids(s) + SocketTgids(s) && i in Offers(FindingFor(sigs, ProcessOf(t)));
    NameOfGroup(s, baseline, t, i);
  }

  lemma SpokenName(s: Snapshot, baseline: Option<Snapshot>, k: int, v: Text)
    requires Indexable(s) && v != [] && Speaks(s, k) && SpeakerAt(s, k).comm == Some(v)
    ensures Offered(AllOffers(Score(AllSignals(s, baseline))), (ProcessName, v))
  {
    var sigs, t := AllSignals(s, baseline), SpeakerAt(s, k).tgid;
    var f := FindingFor(sigs, ProcessOf(t));
    var i := Ioc(ProcessName, v, f.confidence, f.subject);
    NameOfGroup(s, baseline, t, i);
    DetectorsMatch(s, baseline);
    OfferedByProcess(sigs, ViewOf(s, baseline), i);
    assert KeyOf(i) == (ProcessName, v);
  }

  /** The process_name indicators are exactly the non-empty comms of the first readable task of each
      hidden thread group. */
  lemma NameIocs(s: Snapshot, baseline: Option<Snapshot>, v: Text)
    requires Indexable(s)
    ensures Offered(Extract(Analyze(s, baseline)), (ProcessName, v))
       <==> v != [] && exists k :: Speaks(s, k) && SpeakerAt(s, k).comm == Some(v)
  {
    var fs := Analyze(s, baseline);
    ExtractedKeys(fs, ProcessName, v);
    if i :| i in AllOffers(fs) && KeyOf(i) == (ProcessName, v) {
      NameSpoken(s, baseline, i);
    }
    if k :| v != [] && Speaks(s, k) && SpeakerAt(s, k).comm == Some(v) {
      SpokenName(s, baseline, k, v);
    }
  }
}
