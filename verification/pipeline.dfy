/** analyze(): what the detectors and the scorer together conclude from a snapshot. */
module Pipeline {
  import opened Text
  import opened Sorting
  import opened Snapshots
  import opened Findings
  import opened Signals
  import opened Scoring
  import opened ScoringLaws

  function Analyze(s: Snapshot, baseline: Option<Snapshot>): seq<Finding>
    requires Indexable(s)
  {
    Score(AllSignals(s, baseline))
  }

  /** analyze raises KeyError, here None, exactly on a snapshot that is not indexable. */
  method AnalyzeSnapshot(s: Snapshot, baseline: Option<Snapshot>) returns (findings: Option<seq<Finding>>)
    ensures findings.Some? <==> Indexable(s)
    ensures findings.Some? ==> findings.value == Analyze(s, baseline)
  {
    var processes := SignalsProcesses(s);
    var modules := SignalsModules(s);
    var hooks := SignalsHooks(s);
    var sockets := SignalsSockets(s);
    if processes.None? || hooks.None? || sockets.None? {
      return None;
    }
    var scored := ScoreSignals(processes.value + modules + hooks.value + sockets.value + DetectOverListed(s)
                               + DetectDrift(s, baseline));
    findings := Some(scored);
  }

  // ---------------------------------------------------------------------------------------------
  // Findings by subject

  predicate InGroup(sigs: seq<Signal>, c: Channel, x: Suspect) {
    Fires(sigs, c, x) || (Attributed(sigs) && x == Target(sigs) && c in ChannelsIn(Anon(sigs)))
  }

  lemma OfSuspectFires(sigs: seq<Signal>, c: Channel, x: Suspect)
    ensures c in ChannelsIn(OfSuspect(sigs, x)) <==> Fires(sigs, c, x)
  {
    if Fires(sigs, c, x) {
      var s :| s in sigs && s.channel == c && s.suspect == x;
      assert s in OfSuspect(sigs, x);
    }
  }

  lemma GroupByChannel(sigs: seq<Signal>, x: Suspect)
    ensures forall c :: c in ChannelsIn(GroupOf(sigs, x)) <==> InGroup(sigs, c, x)
  {
    GroupChannels(sigs, x);
    forall c ensures c in ChannelsIn(OfSuspect(sigs, x)) <==> Fires(sigs, c, x) {
      OfSuspectFires(sigs, c, x);
    }
  }

  lemma SuspectByChannel(sigs: seq<Signal>, x: Suspect)
    requires x.name.Some?
    ensures x in Suspects(sigs) <==> exists c :: Fires(sigs, c, x)
  {
    if x in Suspects(sigs) {
      var s :| s in sigs && s.suspect == x;
      assert Fires(sigs, s.channel, x);
    }
  }

  /** A named suspect's finding is the only one with its subject. */
  lemma FindingBySubject(sigs: seq<Signal>, x: Suspect, f: Finding)
    requires x.name.Some?
    ensures f in Score(sigs) && f.subject == SubjectOf(x) <==> x in Suspects(sigs) && f == FindingFor(sigs, x)
  {
    ScoreMembers(sigs, f);
    if f in Score(sigs) && f.subject == SubjectOf(x) {
      NamedBeforeUnattributed(x);
      var y :| y in Suspects(sigs) && f == FindingFor(sigs, y);
      SubjectInjective(x, y);
    }
  }

  lemma UnattributedKind(sigs: seq<Signal>)
    ensures Unattributed(sigs).kind == SuspectedHiddenModule
  {
  }

  /** The suspect of a finding that names one. */
  lemma NamedSuspect(sigs: seq<Signal>, f: Finding) returns (x: Suspect)
    requires f in Score(sigs) && f.kind != SuspectedHiddenModule
    ensures x in Suspects(sigs) && x.name.Some? && f == FindingFor(sigs, x)
  {
    UnattributedKind(sigs);
    ScoreMembers(sigs, f);
    x :| x in Suspects(sigs) && f == FindingFor(sigs, x);
  }

  /** The parts of a suspect's finding, from the channels that report on it. */
  lemma FindingParts(sigs: seq<Signal>, x: Suspect)
    requires x.name.Some?
    ensures var f := FindingFor(sigs, x);
      && f.subject == SubjectOf(x)
      && f.kind == KindOf(x, f.channels)
      && (forall c :: c in f.channels <==> InGroup(sigs, c, x))
      && f.confidence == ConfidenceOf(|ChannelsIn(GroupOf(sigs, x))|)
  {
    FindingChannels(x, GroupOf(sigs, x));
    GroupByChannel(sigs, x);
  }

  // ---------------------------------------------------------------------------------------------
  // Signals that report what a view says

  ghost predicate Matches(sigs: seq<Signal>, v: View) {
    forall c, x :: Fires(sigs, c, x) <==> Reports(v, c, x)
  }

  lemma DetectorsMatch(s: Snapshot, baseline: Option<Snapshot>)
    requires Indexable(s)
    ensures Matches(AllSignals(s, baseline), ViewOf(s, baseline))
  {
    forall c, x ensures Fires(AllSignals(s, baseline), c, x) <==> Reports(ViewOf(s, baseline), c, x) {
      AllSignalsFire(s, baseline, c, x);
    }
  }

  // ---------------------------------------------------------------------------------------------
  // Hidden processes

  lemma ProcessReports(v: View, t: int, c: Channel)
    ensures Reports(v, c, ProcessOf(t))
       <==> ((c == SyscallKill || c == DirectStatus) && t in v.hidden) || (c == SocketVisible && t in v.sockets)
  {
    forall u | ProcessOf(t) == ProcessOf(u) ensures t == u {
      ProcessOfInjective(t, u);
    }
  }

  lemma ProcessChannels(sigs: seq<Signal>, v: View, t: int)
    requires Matches(sigs, v)
    ensures ChannelsIn(GroupOf(sigs, ProcessOf(t)))
         == (if t in v.hidden then {SyscallKill, DirectStatus} else {}) + (if t in v.sockets then {SocketVisible} else {})
    ensures ProcessOf(t) in Suspects(sigs) <==> t in v.hidden + v.sockets
  {
    var x := ProcessOf(t);
    GroupByChannel(sigs, x);
    SuspectByChannel(sigs, x);
    forall c ensures Fires(sigs, c, x)
       <==> ((c == SyscallKill || c == DirectStatus) && t in v.hidden) || (c == SocketVisible && t in v.sockets) {
      ProcessReports(v, t, c);
    }
    assert t in v.hidden ==> Fires(sigs, SyscallKill, x);
    assert t in v.sockets ==> Fires(sigs, SocketVisible, x);
  }

  lemma ProcessConfidence(hidden: bool, sockets: bool)
    requires hidden || sockets
    ensures ConfidenceOf(|(if hidden then {SyscallKill, DirectStatus} else {})
                          + (if sockets then {SocketVisible} else {})|)
         == if hidden && sockets then High else if hidden then Medium else Low
  {
    assert {SyscallKill, DirectStatus} + {SocketVisible} == {SyscallKill, DirectStatus, SocketVisible};
    assert {SyscallKill, DirectStatus} + {} == {SyscallKill, DirectStatus};
    assert {} + {SocketVisible} == {SocketVisible};
  }

  lemma ProcessFinding(sigs: seq<Signal>, v: View, t: int)
    requires Matches(sigs, v)
    requires t in v.hidden + v.sockets
    ensures FindingFor(sigs, ProcessOf(t)).kind == HiddenProcess
    ensures FindingFor(sigs, ProcessOf(t)).confidence
         == if t in v.hidden && t in v.sockets then High else if t in v.hidden then Medium else Low
  {
    ProcessChannels(sigs, v, t);
    FindingParts(sigs, ProcessOf(t));
    ProcessConfidence(t in v.hidden, t in v.sockets);
  }

  lemma ProcessVerdictOf(sigs: seq<Signal>, v: View, t: int, f: Finding)
    requires Matches(sigs, v)
    ensures f in Score(sigs) && f.subject == SubjectOf(ProcessOf(t))
       <==> t in v.hidden + v.sockets && f == FindingFor(sigs, ProcessOf(t))
  {
    FindingBySubject(sigs, ProcessOf(t), f);
    ProcessChannels(sigs, v, t);
  }

  /** With H the unlisted thread groups of readable swept tasks and S the unlisted owners of in-table
      sockets: thread group t has a finding exactly when it is in H or S, it has one, and its
      confidence is HIGH in both, MEDIUM in H alone and LOW in S alone, however many threads and
      sockets it has. */
  lemma ProcessVerdict(s: Snapshot, baseline: Option<Snapshot>, t: int)
    requires Indexable(s)
    ensures t in HiddenTgids(s) + SocketTgids(s)
       <==> exists f :: f in Analyze(s, baseline) && f.subject == Lit("pid ") + Decimal(t)
    ensures forall f, g | f in Analyze(s, baseline) && g in Analyze(s, baseline) ::
              f.subject == Lit("pid ") + Decimal(t) && g.subject == f.subject ==> f == g
    ensures forall f :: f in Analyze(s, baseline) && f.subject == Lit("pid ") + Decimal(t) ==>
              && f.kind == HiddenProcess
              && f.confidence == (if t in HiddenTgids(s) && t in SocketTgids(s) then High
                                  else if t in HiddenTgids(s) then Medium else Low)
  {
    var sigs, v := AllSignals(s, baseline), ViewOf(s, baseline);
    DetectorsMatch(s, baseline);
    ProcessVerdictOf(sigs, v, t, FindingFor(sigs, ProcessOf(t)));
    if t in v.hidden + v.sockets {
      ProcessFinding(sigs, v, t);
    }
    assert SubjectOf(ProcessOf(t)) == Lit("pid ") + Decimal(t);
    forall f | f in Score(sigs) && f.subject == SubjectOf(ProcessOf(t))
      ensures t in v.hidden + v.sockets && f == FindingFor(sigs, ProcessOf(t)) {
      ProcessVerdictOf(sigs, v, t, f);
    }
  }

  lemma ProcessSuspectIn(v: View, x: Suspect, c: Channel)
    requires Reports(v, c, x) && x.kind == ProcessSuspect
    ensures ProcessIn(x, v.hidden + v.sockets)
  {
  }

  lemma ProcessKind(x: Suspect, f: Finding)
    requires f.kind == KindOf(x, f.channels) && f.kind == HiddenProcess
    ensures x.kind == ProcessSuspect
  {
  }

  lemma ProcessFindingsOf(sigs: seq<Signal>, v: View, f: Finding)
    requires Matches(sigs, v)
    requires f in Score(sigs) && f.kind == HiddenProcess
    ensures exists t :: t in v.hidden + v.sockets && f.subject == SubjectOf(ProcessOf(t))
  {
    var x := NamedSuspect(sigs, f);
    FindingParts(sigs, x);
    ProcessKind(x, f);
    SuspectByChannel(sigs, x);
    var c :| Fires(sigs, c, x);
    ProcessSuspectIn(v, x, c);
    var t :| t in v.hidden + v.sockets && x == ProcessOf(t);
    assert f.subject == SubjectOf(ProcessOf(t));
  }

  /** Every hidden-process finding is about such a thread group. */
  lemma ProcessFindings(s: Snapshot, baseline: Option<Snapshot>, f: Finding)
    requires Indexable(s)
    requires f in Analyze(s, baseline) && f.kind == HiddenProcess
    ensures exists t :: t in HiddenTgids(s) + SocketTgids(s) && f.subject == Lit("pid ") + Decimal(t)
  {
    DetectorsMatch(s, baseline);
    ProcessFindingsOf(AllSignals(s, baseline), ViewOf(s, baseline), f);
  }

  // ---------------------------------------------------------------------------------------------
  // Modules

  lemma ModuleReports(v: View, n: Text, c: Channel)
    ensures Reports(v, c, ModuleOf(n))
       <==> match c
            case FtraceOrphan => n in v.orphans
            case UnexpectedHook => n in v.hookOwners
            case OverListedChannel => n in v.overListed
            case BaselineDriftChannel => n in v.drift
            case _ => false
  {
  }

  /** The names the scorer treats as hidden are those found outside the listing. */
  lemma HiddenNamesAre(sigs: seq<Signal>, v: View)
    requires Matches(sigs, v)
    ensures HiddenNames(sigs) == v.orphans + v.hookOwners
  {
    forall n ensures n in HiddenNames(sigs)
                <==> Fires(sigs, FtraceOrphan, ModuleOf(n)) || Fires(sigs, UnexpectedHook, ModuleOf(n)) {
      if n in HiddenNames(sigs) {
        var g :| g in sigs && g.suspect.kind == ModuleSuspect && g.suspect.name == Some(n) && IsHidingNamed(g.channel);
        assert g.suspect == ModuleOf(n);
      }
    }
    forall n ensures Fires(sigs, FtraceOrphan, ModuleOf(n)) <==> n in v.orphans
    {
      ModuleReports(v, n, FtraceOrphan);
    }
    forall n ensures Fires(sigs, UnexpectedHook, ModuleOf(n)) <==> n in v.hookOwners
    {
      ModuleReports(v, n, UnexpectedHook);
    }
  }

  lemma AnonymousChannels(sigs: seq<Signal>, v: View, c: Channel)
    requires Matches(sigs, v)
    ensures c in ChannelsIn(Anon(sigs)) <==> (c == Taint && v.taint) || (c == VmallocRegion && v.regions)
  {
    if c in ChannelsIn(Anon(sigs)) {
      var g :| g in Anon(sigs) && g.channel == c;
      assert Fires(sigs, c, g.suspect);
    }
    if Reports(v, c, ANONYMOUS) {
      var g :| g in sigs && g.channel == c && g.suspect == ANONYMOUS;
      assert g in Anon(sigs);
    }
  }

  /** Exactly the channels of a named module's finding. */
  predicate ModuleChannel(v: View, n: Text, c: Channel) {
    match c
    case FtraceOrphan => n in v.orphans
    case UnexpectedHook => n in v.hookOwners
    case OverListedChannel => n in v.overListed
    case BaselineDriftChannel => n in v.drift
    case Taint => v.taint && v.orphans + v.hookOwners == {n}
    case VmallocRegion => v.regions && v.orphans + v.hookOwners == {n}
    case _ => false
  }

  lemma ModuleChannels(sigs: seq<Signal>, v: View, n: Text)
    requires Matches(sigs, v)
    ensures forall c :: InGroup(sigs, c, ModuleOf(n)) <==> ModuleChannel(v, n, c)
  {
    HiddenNamesAre(sigs, v);
    if Attributed(sigs) {
      TargetIsSuspect(sigs);
    }
    SortedSetSize(HiddenNames(sigs), Candidates(sigs), TextKey);
    forall c ensures InGroup(sigs, c, ModuleOf(n)) <==> ModuleChannel(v, n, c) {
      ModuleReports(v, n, c);
      AnonymousChannels(sigs, v, c);
    }
  }

  /** A module has a finding when some channel names it, and the finding's kind is decided by them. */
  lemma ModuleVerdict(sigs: seq<Signal>, v: View, n: Text, f: Finding)
    requires Matches(sigs, v)
    ensures f in Score(sigs) && f.subject == SubjectOf(ModuleOf(n))
       <==> n in v.orphans + v.hookOwners + v.overListed + v.drift && f == FindingFor(sigs, ModuleOf(n))
    ensures f == FindingFor(sigs, ModuleOf(n)) ==>
              && f.subject == SubjectOf(ModuleOf(n))
              && f.kind == KindOf(ModuleOf(n), f.channels)
              && forall c :: c in f.channels <==> ModuleChannel(v, n, c)
  {
    FindingBySubject(sigs, ModuleOf(n), f);
    SuspectByChannel(sigs, ModuleOf(n));
    ModuleChannels(sigs, v, n);
    FindingParts(sigs, ModuleOf(n));
    forall c ensures Fires(sigs, c, ModuleOf(n)) ==> n in v.orphans + v.hookOwners + v.overListed + v.drift {
      ModuleReports(v, n, c);
    }
    ModuleReports(v, n, FtraceOrphan);
    ModuleReports(v, n, UnexpectedHook);
    ModuleReports(v, n, OverListedChannel);
    ModuleReports(v, n, BaselineDriftChannel);
  }

  lemma OnlyTwoChannels(sigs: seq<Signal>, x: Suspect, f: Finding)
    requires f == FindingFor(sigs, x)
    requires f.channels != [] && forall c :: c in f.channels ==> !IsHiding(c)
    ensures f.confidence != High
  {
    FindingChannels(x, GroupOf(sigs, x));
    SubsetSize(ChannelsIn(GroupOf(sigs, x)), {OverListedChannel, BaselineDriftChannel});
  }

  /** The names a detector found outside the listing. */
  function Unlisted(s: Snapshot): (r: set<Text>)
    requires Indexable(s)
    ensures r !! ListedModules(s)
  {
    OrphanNames(s) + OrphanHookOwners(s)
  }

  lemma DichotomyFor(sigs: seq<Signal>, v: View, n: Text, f: Finding, listed: set<Text>)
    requires Matches(sigs, v)
    requires v.orphans + v.hookOwners !! listed
    requires v.overListed + v.drift <= listed
    requires f in Score(sigs) && f.subject == SubjectOf(ModuleOf(n))
    ensures f.kind == HiddenModule <==> n !in listed
    ensures f.kind == OverListedModule || f.kind == BaselineDrift <==> n in listed
    ensures f.kind == OverListedModule <==> n in v.overListed
    ensures n in listed ==> f.confidence != High && forall c :: c in f.channels ==> !IsHiding(c)
    ensures n !in listed ==> forall c :: c in f.channels ==> IsHiding(c)
  {
    ModuleVerdict(sigs, v, n, f);
    DichotomyOf(v, n, f, listed);
    if n in listed {
      OnlyTwoChannels(sigs, ModuleOf(n), f);
    }
  }

  lemma DichotomyOf(v: View, n: Text, f: Finding, listed: set<Text>)
    requires v.orphans + v.hookOwners !! listed
    requires v.overListed + v.drift <= listed
    requires n in v.orphans + v.hookOwners + v.overListed + v.drift
    requires f.kind == KindOf(ModuleOf(n), f.channels)
    requires forall c :: c in f.channels <==> ModuleChannel(v, n, c)
    ensures f.channels != []
    ensures f.kind == HiddenModule <==> n !in listed
    ensures f.kind == OverListedModule || f.kind == BaselineDrift <==> n in listed
    ensures f.kind == OverListedModule <==> n in v.overListed
    ensures n in listed ==> forall c :: c in f.channels ==> !IsHiding(c)
    ensures n !in listed ==> forall c :: c in f.channels ==> IsHiding(c)
  {
    if n in listed {
      forall c | c in f.channels ensures !IsHiding(c) {
        assert ModuleChannel(v, n, c);
        assert v.orphans + v.hookOwners == {n} ==> n in v.orphans + v.hookOwners;
      }
    } else {
      var c := if n in v.orphans then FtraceOrphan else UnexpectedHook;
      assert ModuleChannel(v, n, c);
    }
    assert n in v.overListed ==> ModuleChannel(v, n, OverListedChannel);
    assert n in v.drift ==> ModuleChannel(v, n, BaselineDriftChannel);
  }

  lemma ListingBounds(s: Snapshot, baseline: Option<Snapshot>)
    requires Indexable(s)
    ensures var v := ViewOf(s, baseline);
      && v.orphans + v.hookOwners == Unlisted(s)
      && v.overListed == OverListed(s) && v.drift == Drift(s, baseline)
      && v.overListed + v.drift <= ListedModules(s)
  {
  }

  lemma ModuleSubjectIs(n: Text)
    ensures SubjectOf(ModuleOf(n)) == Lit("module ") + n
  {
  }

  lemma DichotomyOn(sigs: seq<Signal>, v: View, n: Text, f: Finding, listed: set<Text>, overListed: set<Text>)
    requires Matches(sigs, v)
    requires v.orphans + v.hookOwners !! listed
    requires v.overListed == overListed && v.overListed + v.drift <= listed
    requires f in Score(sigs) && f.subject == Lit("module ") + n
    ensures f.kind == HiddenModule <==> n !in listed
    ensures f.kind == OverListedModule || f.kind == BaselineDrift <==> n in listed
    ensures f.kind == OverListedModule <==> n in overListed
    ensures n in listed ==> f.confidence != High && forall c :: c in f.channels ==> !IsHiding(c)
    ensures n !in listed ==> forall c :: c in f.channels ==> IsHiding(c)
  {
    ModuleSubjectIs(n);
    DichotomyFor(sigs, v, n, f, listed);
  }

  /** The listing decides what a module finding says: outside it, the module is hidden; inside it, it
      is over-listed or new, and no hiding channel is on the finding, whatever anonymous signals there
      are. An over-listed module is never reported with HIGH confidence. */
  lemma ListingDichotomy(s: Snapshot, baseline: Option<Snapshot>, n: Text, f: Finding)
    requires Indexable(s)
    requires f in Analyze(s, baseline) && f.subject == Lit("module ") + n
    ensures f.kind == HiddenModule <==> n !in ListedModules(s)
    ensures f.kind == OverListedModule || f.kind == BaselineDrift <==> n in ListedModules(s)
    ensures f.kind == OverListedModule <==> n in OverListed(s)
    ensures n in ListedModules(s) ==> f.confidence != High && forall c :: c in f.channels ==> !IsHiding(c)
    ensures n !in ListedModules(s) ==> forall c :: c in f.channels ==> IsHiding(c)
  {
    DetectorsMatch(s, baseline);
    ListingBounds(s, baseline);
    DichotomyOn(AllSignals(s, baseline), ViewOf(s, baseline), n, f, ListedModules(s), OverListed(s));
  }

  /** Which modules have a finding at all, and that each has one only. */
  lemma ModuleFindings(s: Snapshot, baseline: Option<Snapshot>, n: Text)
    requires Indexable(s)
    ensures n in Unlisted(s) + OverListed(s) + Drift(s, baseline)
       <==> exists f :: f in Analyze(s, baseline) && f.subject == Lit("module ") + n
    ensures forall f, g | f in Analyze(s, baseline) && g in Analyze(s, baseline) ::
              f.subject == Lit("module ") + n && g.subject == f.subject ==> f == g
  {
    var sigs, v := AllSignals(s, baseline), ViewOf(s, baseline);
    DetectorsMatch(s, baseline);
    ListingBounds(s, baseline);
    ModuleVerdict(sigs, v, n, FindingFor(sigs, ModuleOf(n)));
    forall f | f in Score(sigs) && f.subject == SubjectOf(ModuleOf(n))
      ensures n in v.orphans + v.hookOwners + v.overListed + v.drift && f == FindingFor(sigs, ModuleOf(n)) {
      ModuleVerdict(sigs, v, n, f);
    }
  }
}
