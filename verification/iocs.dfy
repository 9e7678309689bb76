/** reporting/iocs.py: portable indicators from findings. */
module Iocs {
  import opened Text
  import opened Sorting
  import opened Snapshots
  import opened Findings
  import opened Signals
  import opened Scoring
  import opened Pipeline

  /** The indicator types, in alphabetical order of their names. */
  datatype IocType = HookedFunction | KernelModule | NetworkEndpoint | ProcessName

  function TypeName(t: IocType): string {
    match t
    case HookedFunction => "hooked_function"
    case KernelModule => "kernel_module"
    case NetworkEndpoint => "network_endpoint"
    case ProcessName => "process_name"
  }

  function TypeRank(t: IocType): int {
    match t
    case HookedFunction => 0
    case KernelModule => 1
    case NetworkEndpoint => 2
    case ProcessName => 3
  }

  lemma TypesAreAlphabetical(a: IocType, b: IocType)
    requires TypeRank(a) < TypeRank(b)
    ensures LexLt(Lit(TypeName(a)), Lit(TypeName(b)))
  {
    FirstDifference(Lit(TypeName(a)), Lit(TypeName(b)), 0);
  }

  datatype Ioc = Ioc(type_: IocType, value: Text, confidence: Confidence, source: Text)

  type Key = (IocType, Text)

  function KeyOf(i: Ioc): Key { (i.type_, i.value) }

  /** (type, value). */
  function IocKey(i: Ioc): seq<int> { [TypeRank(i.type_)] + i.value }

  // ---------------------------------------------------------------------------------------------
  // What one finding offers

  function AfterLastColon(t: Text): Text {
    if t == [] then []
    else if t[|t| - 1] == ':' as int then []
    else AfterLastColon(t[..|t| - 1]) + [t[|t| - 1]]
  }

  /** No endpoint, or a port of 0. */
  predicate Placeholder(ep: Option<Text>) {
    ep.None? || ep.value == [] || AfterLastColon(ep.value) == ['0' as int]
  }

  const PEER_STATES: set<string> := {
    "ESTABLISHED", "SYN_SENT", "SYN_RECV", "FIN_WAIT1", "FIN_WAIT2",
    "TIME_WAIT", "CLOSE_WAIT", "LAST_ACK", "CLOSING", "NEW_SYN_RECV" }

  predicate IsPeerState(state: Option<Text>) {
    state.Some? && exists p :: p in PEER_STATES && state.value == Lit(p)
  }

  /** A peer state names the remote end, LISTEN the local one, anything else neither. */
  function Endpoints(e: Evidence): seq<Option<Text>> {
    if !e.SocketEvidence? then [None, None]
    else if IsPeerState(e.state) then [e.remote]
    else if e.state == Some(Lit("LISTEN")) then [e.local]
    else [e.local, e.remote]
  }

  function EvidenceUnder(f: Finding, c: Channel): seq<Evidence> {
    if c in f.evidence then f.evidence[c] else []
  }

  function RemovePrefix(prefix: Text, t: Text): Text {
    if |prefix| <= |t| && t[..|prefix|] == prefix then t[|prefix|..] else t
  }

  function Offer(f: Finding, t: IocType, value: Text): seq<Ioc> {
    if value == [] then [] else [Ioc(t, value, f.confidence, f.subject)]
  }

  function OfferHooks(f: Finding, es: seq<Evidence>): seq<Ioc> {
    if es == [] then []
    else
      OfferHooks(f, es[..|es| - 1])
      + if es[|es| - 1].HookEvidence? then Offer(f, HookedFunction, es[|es| - 1].function_) else []
  }

  function OfferComms(f: Finding, es: seq<Evidence>): seq<Ioc> {
    if es == [] then []
    else
      var e := es[|es| - 1];
      OfferComms(f, es[..|es| - 1])
      + if e.ProcessEvidence? && e.comm.Some? then Offer(f, ProcessName, e.comm.value) else []
  }

  function OfferEndpoints(f: Finding, eps: seq<Option<Text>>): seq<Ioc> {
    if eps == [] then []
    else
      var ep := eps[|eps| - 1];
      OfferEndpoints(f, eps[..|eps| - 1]) + if Placeholder(ep) then [] else Offer(f, NetworkEndpoint, ep.value)
  }

  function OfferSockets(f: Finding, es: seq<Evidence>): seq<Ioc> {
    if es == [] then []
    else OfferSockets(f, es[..|es| - 1]) + OfferEndpoints(f, Endpoints(es[|es| - 1]))
  }

  function Offers(f: Finding): seq<Ioc> {
    match f.kind
    case HiddenModule =>
      Offer(f, KernelModule, RemovePrefix(Lit("module "), f.subject))
      + OfferHooks(f, EvidenceUnder(f, UnexpectedHook))
    case HiddenProcess =>
      OfferComms(f, EvidenceUnder(f, SyscallKill)) + OfferComms(f, EvidenceUnder(f, DirectStatus))
      + OfferSockets(f, EvidenceUnder(f, SocketVisible))
    case _ => []
  }

  /** What f yields for each element, in order. */
  function Collect<S, T>(xs: seq<S>, f: S -> seq<T>): seq<T> {
    if xs == [] then [] else Collect(xs[..|xs| - 1], f) + f(xs[|xs| - 1])
  }

  lemma {:induction false} CollectMembers<S, T>(xs: seq<S>, f: S -> seq<T>, t: T)
    ensures t in Collect(xs, f) <==> exists k :: 0 <= k < |xs| && t in f(xs[k])
  {
    if xs != [] {
      var n := |xs| - 1;
      CollectMembers(xs[..n], f, t);
      assert forall k :: 0 <= k < n ==> xs[..n][k] == xs[k];
    }
  }

  function AllOffers(fs: seq<Finding>): seq<Ioc> {
    Collect(fs, Offers)
  }

  // ---------------------------------------------------------------------------------------------
  // First wins

  function Add(seen: map<Key, Ioc>, i: Ioc): map<Key, Ioc> {
    if KeyOf(i) in seen then seen else seen[KeyOf(i) := i]
  }

  function AddAll(seen: map<Key, Ioc>, offers: seq<Ioc>): map<Key, Ioc> {
    if offers == [] then seen else Add(AddAll(seen, offers[..|offers| - 1]), offers[|offers| - 1])
  }

  lemma {:induction false} AddAllConcat(seen: map<Key, Ioc>, a: seq<Ioc>, b: seq<Ioc>)
    ensures AddAll(seen, a + b) == AddAll(AddAll(seen, a), b)
  {
    if b == [] {
      assert a + b == a;
    } else {
      assert (a + b)[..|a + b| - 1] == a + b[..|b| - 1];
      AddAllConcat(seen, a, b[..|b| - 1]);
    }
  }

  predicate KeysMatch(seen: map<Key, Ioc>) {
    forall k :: k in seen ==> KeyOf(seen[k]) == k
  }

  lemma {:induction false} AddAllKeys(seen: map<Key, Ioc>, offers: seq<Ioc>)
    requires KeysMatch(seen)
    ensures KeysMatch(AddAll(seen, offers))
  {
    if offers != [] {
      AddAllKeys(seen, offers[..|offers| - 1]);
    }
  }

  lemma IocKeyInjective(a: Ioc, b: Ioc)
    requires IocKey(a) == IocKey(b)
    ensures KeyOf(a) == KeyOf(b)
  {
    assert IocKey(a)[0] == IocKey(b)[0];
    assert IocKey(a)[1..] == a.value && IocKey(b)[1..] == b.value;
  }

  lemma ValuesInjective(seen: map<Key, Ioc>)
    requires KeysMatch(seen)
    ensures InjectiveOn(seen.Values, IocKey)
  {
    forall a, b | a in seen.Values && b in seen.Values && IocKey(a) == IocKey(b) ensures a == b {
      IocKeyInjective(a, b);
    }
  }

  function Extract(fs: seq<Finding>): seq<Ioc> {
    AddAllKeys(map[], AllOffers(fs));
    ValuesInjective(AddAll(map[], AllOffers(fs)));
    SortedSet(AddAll(map[], AllOffers(fs)).Values, IocKey)
  }

  lemma AddAllStep(seen: map<Key, Ioc>, offers: seq<Ioc>, more: seq<Ioc>)
    requires |more| <= 1
    ensures AddAll(seen, offers + more) == if more == [] then AddAll(seen, offers) else Add(AddAll(seen, offers), more[0])
  {
    AddAllConcat(seen, offers, more);
    if more == [] {
      assert offers + more == offers;
    }
  }

  method AddHooks(f: Finding, start: map<Key, Ioc>) returns (seen: map<Key, Ioc>)
    ensures seen == AddAll(start, OfferHooks(f, EvidenceUnder(f, UnexpectedHook)))
  {
    var es := EvidenceUnder(f, UnexpectedHook);
    seen := start;
    for i := 0 to |es|
      invariant seen == AddAll(start, OfferHooks(f, es[..i]))
    {
      assert es[..i + 1][..i] == es[..i];
      AddAllStep(start, OfferHooks(f, es[..i]),
                 if es[i].HookEvidence? then Offer(f, HookedFunction, es[i].function_) else []);
      if es[i].HookEvidence? && es[i].function_ != [] {
        seen := Add(seen, Ioc(HookedFunction, es[i].function_, f.confidence, f.subject));
      }
    }
    assert es[..|es|] == es;
  }

  method AddComms(f: Finding, c: Channel, start: map<Key, Ioc>) returns (seen: map<Key, Ioc>)
    ensures seen == AddAll(start, OfferComms(f, EvidenceUnder(f, c)))
  {
    var es := EvidenceUnder(f, c);
    seen := start;
    for i := 0 to |es|
      invariant seen == AddAll(start, OfferComms(f, es[..i]))
    {
      assert es[..i + 1][..i] == es[..i];
      AddAllStep(start, OfferComms(f, es[..i]),
                 if es[i].ProcessEvidence? && es[i].comm.Some? then Offer(f, ProcessName, es[i].comm.value) else []);
      if es[i].ProcessEvidence? && es[i].comm.Some? && es[i].comm.value != [] {
        seen := Add(seen, Ioc(ProcessName, es[i].comm.value, f.confidence, f.subject));
      }
    }
    assert es[..|es|] == es;
  }

  method AddEndpoints(f: Finding, eps: seq<Option<Text>>, start: map<Key, Ioc>) returns (seen: map<Key, Ioc>)
    ensures seen == AddAll(start, OfferEndpoints(f, eps))
  {
    seen := start;
    for i := 0 to |eps|
      invariant seen == AddAll(start, OfferEndpoints(f, eps[..i]))
    {
      assert eps[..i + 1][..i] == eps[..i];
      AddAllStep(start, OfferEndpoints(f, eps[..i]),
                 if Placeholder(eps[i]) then [] else Offer(f, NetworkEndpoint, eps[i].value));
      if !Placeholder(eps[i]) {
        seen := Add(seen, Ioc(NetworkEndpoint, eps[i].value, f.confidence, f.subject));
      }
    }
    assert eps[..|eps|] == eps;
  }

  method AddSockets(f: Finding, start: map<Key, Ioc>) returns (seen: map<Key, Ioc>)
    ensures seen == AddAll(start, OfferSockets(f, EvidenceUnder(f, SocketVisible)))
  {
    var es := EvidenceUnder(f, SocketVisible);
    seen := start;
    for i := 0 to |es|
      invariant seen == AddAll(start, OfferSockets(f, es[..i]))
    {
      assert es[..i + 1][..i] == es[..i];
      AddAllConcat(start, OfferSockets(f, es[..i]), OfferEndpoints(f, Endpoints(es[i])));
      seen := AddEndpoints(f, Endpoints(es[i]), seen);
    }
    assert es[..|es|] == es;
  }

  method AddFinding(f: Finding, start: map<Key, Ioc>) returns (seen: map<Key, Ioc>)
    ensures seen == AddAll(start, Offers(f))
  {
    seen := start;
    if f.kind == HiddenModule {
      var name := RemovePrefix(Lit("module "), f.subject);
      var offer := Offer(f, KernelModule, name);
      AddAllStep(start, [], offer);
      assert [] + offer == offer;
      AddAllConcat(start, offer, OfferHooks(f, EvidenceUnder(f, UnexpectedHook)));
      if name != [] {
        seen := Add(seen, Ioc(KernelModule, name, f.confidence, f.subject));
      }
      seen := AddHooks(f, seen);
    } else if f.kind == HiddenProcess {
      var kills, statuses := OfferComms(f, EvidenceUnder(f, SyscallKill)), OfferComms(f, EvidenceUnder(f, DirectStatus));
      AddAllConcat(start, kills, statuses);
      AddAllConcat(start, kills + statuses, OfferSockets(f, EvidenceUnder(f, SocketVisible)));
      seen := AddComms(f, SyscallKill, seen);
      seen := AddComms(f, DirectStatus, seen);
      seen := AddSockets(f, seen);
    }
  }

  method ExtractIocs(fs: seq<Finding>) returns (iocs: seq<Ioc>)
    ensures iocs == Extract(fs)
  {
    var seen: map<Key, Ioc> := map[];
    for i := 0 to |fs|
      invariant seen == AddAll(map[], AllOffers(fs[..i]))
    {
      assert fs[..i + 1][..i] == fs[..i];
      AddAllConcat(map[], AllOffers(fs[..i]), Offers(fs[i]));
      seen := AddFinding(fs[i], seen);
    }
    assert fs[..|fs|] == fs;
    AddAllKeys(map[], AllOffers(fs));
    ValuesInjective(seen);
    iocs := SortedSet(seen.Values, IocKey);
  }

  // ---------------------------------------------------------------------------------------------
  // What extraction yields

  predicate Offered(offers: seq<Ioc>, k: Key) {
    exists i :: i in offers && KeyOf(i) == k
  }

  /** i is the first offer with its type and value. */
  ghost predicate FirstOffer(offers: seq<Ioc>, i: Ioc) {
    exists k: nat :: FirstAt(offers, i, k)
  }

  predicate FirstAt(offers: seq<Ioc>, i: Ioc, k: nat) {
    k < |offers| && offers[k] == i && !Offered(offers[..k], KeyOf(i))
  }

  predicate Wins(seen: map<Key, Ioc>, i: Ioc) {
    KeyOf(i) in seen && seen[KeyOf(i)] == i
  }

  lemma {:induction false} AddAllOffered(offers: seq<Ioc>, k: Key)
    ensures k in AddAll(map[], offers) <==> Offered(offers, k)
  {
    if offers != [] {
      var n := |offers| - 1;
      AddAllOffered(offers[..n], k);
      assert offers == offers[..n] + [offers[n]];
    }
  }

  lemma FirstOfferStep(front: seq<Ioc>, last: Ioc, i: Ioc)
    ensures FirstOffer(front + [last], i) <==> FirstOffer(front, i) || (i == last && !Offered(front, KeyOf(last)))
  {
    var offers := front + [last];
    if FirstOffer(front, i) {
      var k: nat :| FirstAt(front, i, k);
      assert offers[..k] == front[..k];
      assert FirstAt(offers, i, k);
    }
    if i == last && !Offered(front, KeyOf(last)) {
      assert offers[..|front|] == front;
      assert FirstAt(offers, i, |front|);
    }
    if FirstOffer(offers, i) {
      var k: nat :| FirstAt(offers, i, k);
      assert offers[..k] == front[..k];
      if k < |front| {
        assert FirstAt(front, i, k);
      } else {
        assert front[..k] == front;
      }
    }
  }

  lemma {:induction false} AddAllFirst(offers: seq<Ioc>, i: Ioc)
    ensures Wins(AddAll(map[], offers), i) <==> FirstOffer(offers, i)
  {
    if offers != [] {
      var n := |offers| - 1;
      AddAllFirst(offers[..n], i);
      AddAllOffered(offers[..n], KeyOf(offers[n]));
      FirstOfferStep(offers[..n], offers[n], i);
      assert offers == offers[..n] + [offers[n]];
    }
  }

  /** The report lists each indicator once, in strictly ascending (type, value) order, with the
      confidence and the source of the first finding that offers it. */
  lemma ExtractedAreFirstOffers(fs: seq<Finding>)
    ensures StrictlyAscending(Extract(fs), IocKey)
    ensures forall i :: i in Extract(fs) <==> FirstOffer(AllOffers(fs), i)
  {
    var seen := AddAll(map[], AllOffers(fs));
    AddAllKeys(map[], AllOffers(fs));
    ValuesInjective(seen);
    forall i ensures i in seen.Values <==> FirstOffer(AllOffers(fs), i) {
      AddAllFirst(AllOffers(fs), i);
      assert i in seen.Values <==> Wins(seen, i);
    }
  }

  /** A type and value are reported exactly when some finding offers them. */
  lemma ExtractedKeys(fs: seq<Finding>, t: IocType, v: Text)
    ensures Offered(Extract(fs), (t, v)) <==> Offered(AllOffers(fs), (t, v))
  {
    var offers := AllOffers(fs);
    var seen := AddAll(map[], offers);
    AddAllOffered(offers, (t, v));
    ExtractedAreFirstOffers(fs);
    if Offered(offers, (t, v)) {
      AddAllKeys(map[], offers);
      AddAllFirst(offers, seen[(t, v)]);
      assert seen[(t, v)] in Extract(fs);
    }
    if i :| i in Extract(fs) && KeyOf(i) == (t, v) {
      assert FirstOffer(offers, i);
    }
  }

  lemma AllOffersMembers(fs: seq<Finding>, i: Ioc)
    ensures i in AllOffers(fs) <==> exists f :: f in fs && i in Offers(f)
  {
    CollectMembers(fs, Offers, i);
    if f :| f in fs && i in Offers(f) {
      var k :| 0 <= k < |fs| && fs[k] == f;
      assert i in Offers(fs[k]);
    }
  }

  lemma {:induction false} HookOffers(f: Finding, es: seq<Evidence>, i: Ioc)
    ensures i in OfferHooks(f, es)
       <==> i.type_ == HookedFunction && i.value != [] && i.confidence == f.confidence && i.source == f.subject
            && exists e :: e in es && e.HookEvidence? && e.function_ == i.value
  {
    if es != [] {
      var n := |es| - 1;
      HookOffers(f, es[..n], i);
      assert es == es[..n] + [es[n]];
    }
  }

  lemma {:induction false} CommsOffered(f: Finding, es: seq<Evidence>, i: Ioc)
    ensures i in OfferComms(f, es)
       <==> i.type_ == ProcessName && i.value != [] && i.confidence == f.confidence && i.source == f.subject
            && exists e :: e in es && e.ProcessEvidence? && e.comm == Some(i.value)
  {
    if es != [] {
      var n := |es| - 1;
      CommsOffered(f, es[..n], i);
      assert es == es[..n] + [es[n]];
    }
  }

  lemma {:induction false} EndpointsOffered(f: Finding, eps: seq<Option<Text>>, i: Ioc)
    ensures i in OfferEndpoints(f, eps)
       <==> i.type_ == NetworkEndpoint && !Placeholder(Some(i.value)) && i.confidence == f.confidence
            && i.source == f.subject && Some(i.value) in eps
  {
    if eps != [] {
      var n := |eps| - 1;
      EndpointsOffered(f, eps[..n], i);
      assert eps == eps[..n] + [eps[n]];
    }
  }

  lemma LastOrBefore<T>(xs: seq<T>)
    requires xs != []
    ensures forall x :: x in xs <==> x in xs[..|xs| - 1] || x == xs[|xs| - 1]
  {
    assert xs == xs[..|xs| - 1] + [xs[|xs| - 1]];
  }

  lemma {:induction false} SocketsOffered(f: Finding, es: seq<Evidence>, i: Ioc)
    ensures i in OfferSockets(f, es)
       <==> i.type_ == NetworkEndpoint && !Placeholder(Some(i.value)) && i.confidence == f.confidence
            && i.source == f.subject && exists e :: e in es && Some(i.value) in Endpoints(e)
  {
    if es != [] {
      var n := |es| - 1;
      SocketsOffered(f, es[..n], i);
      EndpointsOffered(f, Endpoints(es[n]), i);
      LastOrBefore(es);
    }
  }

  lemma OffersByType(f: Finding, i: Ioc)
    requires i in Offers(f)
    ensures i.type_ == NetworkEndpoint ==> !Placeholder(Some(i.value))
    ensures i.type_ == KernelModule || i.type_ == HookedFunction ==> f.kind == HiddenModule
  {
    if f.kind == HiddenModule {
      HookOffers(f, EvidenceUnder(f, UnexpectedHook), i);
    } else {
      CommsOffered(f, EvidenceUnder(f, SyscallKill), i);
      CommsOffered(f, EvidenceUnder(f, DirectStatus), i);
      SocketsOffered(f, EvidenceUnder(f, SocketVisible), i);
    }
  }

  /** No reported endpoint is a placeholder: none has port 0. */
  lemma NoPlaceholderEndpoint(fs: seq<Finding>, i: Ioc)
    requires i in Extract(fs) && i.type_ == NetworkEndpoint
    ensures AfterLastColon(i.value) != ['0' as int]
  {
    ExtractedAreFirstOffers(fs);
    assert FirstOffer(AllOffers(fs), i);
    AllOffersMembers(fs, i);
    var f :| f in fs && i in Offers(f);
    OffersByType(f, i);
  }

  // ---------------------------------------------------------------------------------------------
  // End to end, from the snapshot

  lemma ModuleSubject(n: Text)
    ensures RemovePrefix(Lit("module "), SubjectOf(ModuleOf(n))) == n
  {
    var p := Lit("module ");
    assert (p + n)[..|p|] == p && (p + n)[|p|..] == n;
  }

  lemma {:induction false} EvidenceMembers(sigs: seq<Signal>, c: Channel, e: Evidence)
    ensures e in EvidenceOn(sigs, c) <==> exists g :: g in sigs && g.channel == c && g.evidence == e
  {
    if sigs != [] {
      EvidenceMembers(sigs[1..], c, e);
      assert sigs == [sigs[0]] + sigs[1..];
    }
  }

  /** Only the hook detector reports unexpected hooks. */
  lemma NoOtherHooks(s: Snapshot, baseline: Option<Snapshot>, x: Suspect)
    requires Indexable(s)
    ensures !Fires(DetectProcesses(s), UnexpectedHook, x)
    ensures !Fires(DetectModules(s), UnexpectedHook, x)
    ensures !Fires(DetectSockets(s), UnexpectedHook, x)
    ensures !Fires(DetectOverListed(s), UnexpectedHook, x)
    ensures !Fires(DetectDrift(s, baseline), UnexpectedHook, x)
  {
    ProcessesFire(s, UnexpectedHook, x);
    ModulesFire(s, UnexpectedHook, x);
    SocketsFire(s, UnexpectedHook, x);
    NamesFire(OverListed(s), OverListedChannel, EveryCorroboratingChannel, OverListedEvidence, UnexpectedHook, x);
    NamesFire(Drift(s, baseline), BaselineDriftChannel, SignedBaseline, DriftEvidence, UnexpectedHook, x);
  }

  lemma InConcat6(a: seq<Signal>, b: seq<Signal>, d: seq<Signal>, e: seq<Signal>, f: seq<Signal>, k: seq<Signal>, g: Signal)
    ensures g in a + b + d + e + f + k <==> g in a || g in b || g in d || g in e || g in f || g in k
  {
  }

  /** The unexpected_hook signals are those of the orphan hooks. */
  lemma HookSignalsInAll(s: Snapshot, baseline: Option<Snapshot>, g: Signal)
    requires Indexable(s)
    ensures g in AllSignals(s, baseline) && g.channel == UnexpectedHook
       <==> exists h :: h in OrphanHooks(s) && g == HookSignal(h)
  {
    InConcat6(DetectProcesses(s), DetectModules(s), DetectHooks(s), DetectSockets(s), DetectOverListed(s),
              DetectDrift(s, baseline), g);
    NoOtherHooks(s, baseline, g.suspect);
    HookSignalsExactly(s, g);
  }

  lemma HookSignalsExactly(s: Snapshot, g: Signal)
    requires HooksIndexable(s)
    ensures g in DetectHooks(s) && g.channel == UnexpectedHook <==> exists h :: h in OrphanHooks(s) && g == HookSignal(h)
  {
    if First(s, KernelHooks).Some? {
      var o := First(s, KernelHooks).value.entities;
      SortSameElements(HookSignals(o.hookKeys, o.hooks, ListedModules(s)), HookKey);
      HookSignalsExact(o.hookKeys, o.hooks, ListedModules(s), g);
    }
  }

  /** The unexpected_hook evidence of a module's finding. */
  lemma HookEvidenceIn(sigs: seq<Signal>, hooks: set<HookEntity>, n: Text, e: Evidence)
    requires forall h :: h in hooks ==> h.ownerModule.Some?
    requires forall g :: g in sigs && g.channel == UnexpectedHook <==> exists h :: h in hooks && g == HookSignal(h)
    ensures e in EvidenceUnder(FindingFor(sigs, ModuleOf(n)), UnexpectedHook)
       <==> exists h :: h in hooks && h.ownerModule == Some(n) && e == HookSignal(h).evidence
  {
    var group := GroupOf(sigs, ModuleOf(n));
    EvidenceMembers(group, UnexpectedHook, e);
    EvidenceNonempty(group, UnexpectedHook);
    forall g | g in group && g.channel == UnexpectedHook
      ensures exists h :: h in hooks && h.ownerModule == Some(n) && g == HookSignal(h)
    {
      var h :| h in hooks && g == HookSignal(h);
      assert g.suspect == ModuleOf(h.ownerModule.value);
    }
    forall h | h in hooks && h.ownerModule == Some(n) ensures HookSignal(h) in group {
      assert HookSignal(h) in OfSuspect(sigs, ModuleOf(n));
    }
  }

  lemma HookEvidenceOf(s: Snapshot, baseline: Option<Snapshot>, n: Text, e: Evidence)
    requires Indexable(s)
    ensures e in EvidenceUnder(FindingFor(AllSignals(s, baseline), ModuleOf(n)), UnexpectedHook)
       <==> exists h :: h in OrphanHooks(s) && h.ownerModule == Some(n) && e == HookSignal(h).evidence
  {
    var sigs, hooks := AllSignals(s, baseline), OrphanHooks(s);
    forall g ensures g in sigs && g.channel == UnexpectedHook <==> exists h :: h in hooks && g == HookSignal(h) {
      HookSignalsInAll(s, baseline, g);
    }
    HookEvidenceIn(sigs, hooks, n, e);
  }

  /** A hidden-module finding is that of a name outside the listing, and the other way round. */
  lemma HiddenModuleFinding(s: Snapshot, baseline: Option<Snapshot>, f: Finding)
    requires Indexable(s)
    ensures f in Analyze(s, baseline) && f.kind == HiddenModule
       <==> exists n :: n in Unlisted(s) && f == FindingFor(AllSignals(s, baseline), ModuleOf(n))
  {
    DetectorsMatch(s, baseline);
    ListingBounds(s, baseline);
    HiddenModuleIn(AllSignals(s, baseline), ViewOf(s, baseline), f, ListedModules(s), Unlisted(s));
  }

  lemma HiddenModuleIn(sigs: seq<Signal>, v: View, f: Finding, listed: set<Text>, unlisted: set<Text>)
    requires Matches(sigs, v)
    requires v.orphans + v.hookOwners == unlisted && unlisted !! listed
    requires v.overListed + v.drift <= listed
    ensures f in Score(sigs) && f.kind == HiddenModule
       <==> exists n :: n in unlisted && f == FindingFor(sigs, ModuleOf(n))
  {
    if f in Score(sigs) && f.kind == HiddenModule {
      var x := NamedSuspect(sigs, f);
      FindingParts(sigs, x);
      assert x == ModuleOf(x.name.value);
      ModuleVerdict(sigs, v, x.name.value, f);
      DichotomyFor(sigs, v, x.name.value, f, listed);
    }
    if n :| n in unlisted && f == FindingFor(sigs, ModuleOf(n)) {
      ModuleVerdict(sigs, v, n, f);
      DichotomyFor(sigs, v, n, f, listed);
    }
  }

  lemma ModuleOffers(f: Finding, n: Text, i: Ioc)
    requires f.kind == HiddenModule && f.subject == SubjectOf(ModuleOf(n))
    ensures i in Offers(f) && i.type_ == KernelModule
       <==> n != [] && i == Ioc(KernelModule, n, f.confidence, f.subject)
  {
    ModuleSubject(n);
    HookOffers(f, EvidenceUnder(f, UnexpectedHook), i);
  }

  lemma FunctionOffers(f: Finding, i: Ioc)
    requires f.kind == HiddenModule
    ensures i in Offers(f) && i.type_ == HookedFunction <==> i in OfferHooks(f, EvidenceUnder(f, UnexpectedHook))
  {
    HookOffers(f, EvidenceUnder(f, UnexpectedHook), i);
  }

  lemma OfferedBy(s: Snapshot, baseline: Option<Snapshot>, i: Ioc)
    requires Indexable(s)
    requires i.type_ == KernelModule || i.type_ == HookedFunction
    ensures i in AllOffers(Analyze(s, baseline))
       <==> exists n :: n in Unlisted(s) && i in Offers(FindingFor(AllSignals(s, baseline), ModuleOf(n)))
  {
    var fs := Analyze(s, baseline);
    AllOffersMembers(fs, i);
    if f :| f in fs && i in Offers(f) {
      OffersByType(f, i);
      HiddenModuleFinding(s, baseline, f);
    }
    if n :| n in Unlisted(s) && i in Offers(FindingFor(AllSignals(s, baseline), ModuleOf(n))) {
      HiddenModuleFinding(s, baseline, FindingFor(AllSignals(s, baseline), ModuleOf(n)));
    }
  }

  lemma UnlistedFinding(s: Snapshot, baseline: Option<Snapshot>, n: Text)
    requires Indexable(s) && n in Unlisted(s)
    ensures FindingFor(AllSignals(s, baseline), ModuleOf(n)).kind == HiddenModule
    ensures FindingFor(AllSignals(s, baseline), ModuleOf(n)).subject == SubjectOf(ModuleOf(n))
  {
    HiddenModuleFinding(s, baseline, FindingFor(AllSignals(s, baseline), ModuleOf(n)));
  }

  /** The kernel_module indicators are the names found outside the listing, except an empty name. */
  lemma ModuleIocs(s: Snapshot, baseline: Option<Snapshot>, v: Text)
    requires Indexable(s)
    ensures Offered(Extract(Analyze(s, baseline)), (KernelModule, v))
       <==> v != [] && v in Unlisted(s)
  {
    ExtractedKeys(Analyze(s, baseline), KernelModule, v);
    if i :| i in AllOffers(Analyze(s, baseline)) && KeyOf(i) == (KernelModule, v) {
      OfferedBy(s, baseline, i);
      var n :| n in Unlisted(s) && i in Offers(FindingFor(AllSignals(s, baseline), ModuleOf(n)));
      UnlistedFinding(s, baseline, n);
      ModuleOffers(FindingFor(AllSignals(s, baseline), ModuleOf(n)), n, i);
    }
    if v != [] && v in Unlisted(s) {
      var f := FindingFor(AllSignals(s, baseline), ModuleOf(v));
      var i := Ioc(KernelModule, v, f.confidence, f.subject);
      UnlistedFinding(s, baseline, v);
      ModuleOffers(f, v, i);
      OfferedBy(s, baseline, i);
    }
  }

  lemma UnlistedOwner(s: Snapshot, h: HookEntity)
    requires Indexable(s) && h in OrphanHooks(s)
    ensures h.ownerModule.Some? && h.ownerModule.value in Unlisted(s)
  {
  }

  /** The functions a hidden module's finding offers. */
  lemma FunctionsIn(f: Finding, es: seq<Evidence>, hooks: set<HookEntity>, n: Text, v: Text)
    requires forall h :: h in hooks ==> h.ownerModule.Some?
    requires forall e :: e in es <==> exists h :: h in hooks && h.ownerModule == Some(n) && e == HookSignal(h).evidence
    ensures (exists i :: i in OfferHooks(f, es) && KeyOf(i) == (HookedFunction, v))
       <==> v != [] && exists h :: h in hooks && h.ownerModule == Some(n) && h.function_ == v
    ensures forall i :: i in OfferHooks(f, es) ==> i.type_ == HookedFunction
  {
    if i :| i in OfferHooks(f, es) && KeyOf(i) == (HookedFunction, v) {
      HookOffers(f, es, i);
      var e :| e in es && e.HookEvidence? && e.function_ == v;
    }
    if h :| v != [] && h in hooks && h.ownerModule == Some(n) && h.function_ == v {
      assert HookSignal(h).evidence in es;
      HookOffers(f, es, Ioc(HookedFunction, v, f.confidence, f.subject));
    }
    forall i | i in OfferHooks(f, es) ensures i.type_ == HookedFunction {
      HookOffers(f, es, i);
    }
  }

  lemma FunctionsOffered(f: Finding, v: Text)
    requires f.kind == HiddenModule
    ensures (exists i :: i in Offers(f) && KeyOf(i) == (HookedFunction, v))
       <==> (exists i :: i in OfferHooks(f, EvidenceUnder(f, UnexpectedHook)) && KeyOf(i) == (HookedFunction, v))
  {
    forall i ensures i in Offers(f) && i.type_ == HookedFunction
                <==> i in OfferHooks(f, EvidenceUnder(f, UnexpectedHook)) && i.type_ == HookedFunction {
      FunctionOffers(f, i);
    }
  }

  lemma HookEvidences(s: Snapshot, baseline: Option<Snapshot>, n: Text)
    requires Indexable(s)
    ensures forall e :: e in EvidenceUnder(FindingFor(AllSignals(s, baseline), ModuleOf(n)), UnexpectedHook)
                   <==> exists h :: h in OrphanHooks(s) && h.ownerModule == Some(n) && e == HookSignal(h).evidence
  {
    forall e ensures e in EvidenceUnder(FindingFor(AllSignals(s, baseline), ModuleOf(n)), UnexpectedHook)
                <==> exists h :: h in OrphanHooks(s) && h.ownerModule == Some(n) && e == HookSignal(h).evidence {
      HookEvidenceOf(s, baseline, n, e);
    }
  }

  lemma FunctionsOf(s: Snapshot, baseline: Option<Snapshot>, n: Text, v: Text)
    requires Indexable(s) && n in Unlisted(s)
    ensures (exists i :: i in Offers(FindingFor(AllSignals(s, baseline), ModuleOf(n))) && KeyOf(i) == (HookedFunction, v))
       <==> v != [] && exists h :: h in OrphanHooks(s) && h.ownerModule == Some(n) && h.function_ == v
  {
    var f := FindingFor(AllSignals(s, baseline), ModuleOf(n));
    var es := EvidenceUnder(f, UnexpectedHook);
    UnlistedFinding(s, baseline, n);
    HookEvidences(s, baseline, n);
    FunctionsIn(f, es, OrphanHooks(s), n, v);
    FunctionsOffered(f, v);
  }

  /** The hooked_function indicators are the functions whose hook belongs to such a module. */
  lemma FunctionIocs(s: Snapshot, baseline: Option<Snapshot>, v: Text)
    requires Indexable(s)
    ensures Offered(Extract(Analyze(s, baseline)), (HookedFunction, v))
       <==> v != [] && exists h :: h in OrphanHooks(s) && h.function_ == v
  {
    ExtractedKeys(Analyze(s, baseline), HookedFunction, v);
    if i :| i in AllOffers(Analyze(s, baseline)) && KeyOf(i) == (HookedFunction, v) {
      OfferedBy(s, baseline, i);
      var n :| n in Unlisted(s) && i in Offers(FindingFor(AllSignals(s, baseline), ModuleOf(n)));
      FunctionsOf(s, baseline, n, v);
    }
    if h :| v != [] && h in OrphanHooks(s) && h.function_ == v {
      UnlistedOwner(s, h);
      FunctionsOf(s, baseline, h.ownerModule.value, v);
      var i :| i in Offers(FindingFor(AllSignals(s, baseline), ModuleOf(h.ownerModule.value))) && KeyOf(i) == (HookedFunction, v);
      OfferedBy(s, baseline, i);
    }
  }
}
