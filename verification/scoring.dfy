/** analysis/scoring.py: from signals to findings. */
module Scoring {
  import opened Text
  import opened Sorting
  import opened Findings

  predicate IsHiding(c: Channel) {
    c != OverListedChannel && c != BaselineDriftChannel
  }

  /** The channels that can make a module hidden by name. */
  predicate IsHidingNamed(c: Channel) {
    c == FtraceOrphan || c == UnexpectedHook
  }

  function ConfidenceOf(channels: nat): Confidence {
    if channels == 1 then Low else if channels == 2 then Medium else High
  }

  // ---------------------------------------------------------------------------------------------
  // Selections of signals

  function Named(sigs: seq<Signal>): (r: seq<Signal>)
    ensures forall s :: s in r <==> s in sigs && s.suspect.name.Some?
  {
    if sigs == [] then []
    else (if sigs[0].suspect.name.Some? then [sigs[0]] else []) + Named(sigs[1..])
  }

  function Anon(sigs: seq<Signal>): (r: seq<Signal>)
    ensures forall s :: s in r <==> s in sigs && s.suspect.name.None?
  {
    if sigs == [] then []
    else (if sigs[0].suspect.name.None? then [sigs[0]] else []) + Anon(sigs[1..])
  }

  function OfSuspect(sigs: seq<Signal>, x: Suspect): (r: seq<Signal>)
    ensures forall s :: s in r <==> s in sigs && s.suspect == x
  {
    if sigs == [] then []
    else (if sigs[0].suspect == x then [sigs[0]] else []) + OfSuspect(sigs[1..], x)
  }

  function ChannelsIn(sigs: seq<Signal>): set<Channel> {
    set s | s in sigs :: s.channel
  }

  function DissentsIn(sigs: seq<Signal>): set<Dissent> {
    set s | s in sigs :: s.dissent
  }

  /** The evidence of the signals on one channel, in order. */
  function EvidenceOn(sigs: seq<Signal>, c: Channel): seq<Evidence> {
    if sigs == [] then []
    else (if sigs[0].channel == c then [sigs[0].evidence] else []) + EvidenceOn(sigs[1..], c)
  }

  function Suspects(sigs: seq<Signal>): set<Suspect> {
    set s | s in sigs && s.suspect.name.Some? :: s.suspect
  }

  // ---------------------------------------------------------------------------------------------
  // _classify and _compose

  function ShowName(name: Option<Text>): Text {
    match name case None => Lit("None") case Some(n) => n
  }

  function SubjectOf(x: Suspect): Text {
    if x.kind == ProcessSuspect then Lit("pid ") + ShowName(x.name)
    else match x.name
         case None => Lit("unattributed hidden module")
         case Some(n) => Lit("module ") + n
  }

  function ChannelNames(channels: seq<Channel>): seq<Text> {
    seq(|channels|, i requires 0 <= i < |channels| => Lit(ChannelName(channels[i])))
  }

  function WithoutOverListed(channels: seq<Channel>): seq<Channel> {
    if channels == [] then []
    else (if channels[0] == OverListedChannel then [] else [channels[0]]) + WithoutOverListed(channels[1..])
  }

  function NameList(channels: seq<Channel>): Text {
    Join(Lit(", "), ChannelNames(channels))
  }

  predicate AnyHiding(channels: seq<Channel>) {
    exists c :: c in channels && IsHiding(c)
  }

  function KindOf(x: Suspect, channels: seq<Channel>): FindingKind {
    if x.kind == ProcessSuspect then HiddenProcess
    else if x.name.None? then SuspectedHiddenModule
    else if OverListedChannel in channels && !AnyHiding(channels) then OverListedModule
    else if AnyHiding(channels) then HiddenModule
    else BaselineDrift
  }

  // The fixed words of the summaries
  const IS_HIDDEN := Lit(" is hidden from the /proc readdir listing but seen by other channels")
  const NO_NAME := Lit("hidden-module indicators fired but no channel can name the module")
  const IS_OVER_LISTED := Lit(" is listed in /proc/modules but named by no other channel")
  const ALONGSIDE := Lit(", alongside ")
  const IS_CONCEALED := Lit(" is concealed from /proc/modules but named by ")
  const IS_NEW := Lit(" is loaded now but was absent from the baseline")
  const CANDIDATES := Lit("; candidates: ")

  function SummaryOf(x: Suspect, channels: seq<Channel>): Text {
    var others := WithoutOverListed(channels);
    match KindOf(x, channels)
    case HiddenProcess =>
      SubjectOf(x) + IS_HIDDEN
    case SuspectedHiddenModule =>
      NO_NAME
    case OverListedModule =>
      SubjectOf(x) + IS_OVER_LISTED
      + if others == [] then [] else ALONGSIDE + NameList(others)
    case HiddenModule =>
      SubjectOf(x) + IS_CONCEALED + NameList(others)
    case BaselineDrift =>
      SubjectOf(x) + IS_NEW
  }

  function Compose(x: Suspect, sigs: seq<Signal>): Finding {
    var channels := SortedChannels(ChannelsIn(sigs));
    Finding(KindOf(x, channels), SubjectOf(x), ConfidenceOf(|channels|), channels,
            SortedDissents(DissentsIn(sigs)),
            map c | c in ChannelsIn(sigs) :: EvidenceOn(sigs, c),
            [], SummaryOf(x, channels))
  }

  lemma {:induction false} EvidenceOnConcat(a: seq<Signal>, b: seq<Signal>, c: Channel)
    ensures EvidenceOn(a + b, c) == EvidenceOn(a, c) + EvidenceOn(b, c)
  {
    if a == [] {
      assert a + b == b;
      assert EvidenceOn(a, c) + EvidenceOn(b, c) == EvidenceOn(b, c);
    } else {
      assert (a + b)[1..] == a[1..] + b && (a + b)[0] == a[0];
      EvidenceOnConcat(a[1..], b, c);
      var first: seq<Evidence> := if a[0].channel == c then [a[0].evidence] else [];
      assert EvidenceOn(a, c) == first + EvidenceOn(a[1..], c);
      assert EvidenceOn(a + b, c) == first + EvidenceOn((a + b)[1..], c);
      assert first + (EvidenceOn(a[1..], c) + EvidenceOn(b, c)) == first + EvidenceOn(a[1..], c) + EvidenceOn(b, c);
    }
  }

  /** The evidence on a channel is that of the signals with the channel's sort key. */
  lemma {:induction false} EvidenceWithKey(sigs: seq<Signal>, c: Channel)
    ensures EvidenceOn(WithKey(sigs, SignalChannelKey, ChannelKey(c)), c) == EvidenceOn(sigs, c)
  {
    if sigs != [] {
      EvidenceWithKey(sigs[1..], c);
      var rest := WithKey(sigs[1..], SignalChannelKey, ChannelKey(c));
      if SignalChannelKey(sigs[0]) == ChannelKey(c) {
        assert ChannelKey(sigs[0].channel)[0] == ChannelKey(c)[0];
        assert sigs[0].channel == c;
        assert WithKey(sigs, SignalChannelKey, ChannelKey(c)) == [sigs[0]] + rest;
        assert ([sigs[0]] + rest)[1..] == rest;
      } else {
        assert WithKey(sigs, SignalChannelKey, ChannelKey(c)) == rest;
      }
    }
  }

  lemma EvidenceSorted(sigs: seq<Signal>, c: Channel)
    ensures EvidenceOn(SortBy(sigs, SignalChannelKey), c) == EvidenceOn(sigs, c)
  {
    EvidenceWithKey(sigs, c);
    EvidenceWithKey(SortBy(sigs, SignalChannelKey), c);
    SortStable(sigs, SignalChannelKey, ChannelKey(c));
  }

  lemma EvidenceStep(sigs: seq<Signal>, i: nat, c: Channel)
    requires i < |sigs|
    ensures EvidenceOn(sigs[..i + 1], c)
         == EvidenceOn(sigs[..i], c) + if sigs[i].channel == c then [sigs[i].evidence] else []
  {
    assert sigs[..i + 1] == sigs[..i] + [sigs[i]];
    EvidenceOnConcat(sigs[..i], [sigs[i]], c);
  }

  /** The evidence dictionary, one append at a time. */
  method CollectEvidence(sigs: seq<Signal>) returns (evidence: map<Channel, seq<Evidence>>)
    ensures evidence == map c | c in ChannelsIn(sigs) :: EvidenceOn(sigs, c)
  {
    evidence := map[];
    for i := 0 to |sigs|
      invariant forall c :: c in evidence <==> EvidenceOn(sigs[..i], c) != []
      invariant forall c :: c in evidence ==> evidence[c] == EvidenceOn(sigs[..i], c)
    {
      forall c ensures EvidenceOn(sigs[..i + 1], c)
                    == EvidenceOn(sigs[..i], c) + if sigs[i].channel == c then [sigs[i].evidence] else [] {
        EvidenceStep(sigs, i, c);
      }
      var before := if sigs[i].channel in evidence then evidence[sigs[i].channel] else [];
      evidence := evidence[sigs[i].channel := before + [sigs[i].evidence]];
    }
    assert sigs[..|sigs|] == sigs;
    forall c ensures c in evidence <==> c in ChannelsIn(sigs) {
      EvidenceNonempty(sigs, c);
    }
  }

  lemma {:induction false} EvidenceNonempty(sigs: seq<Signal>, c: Channel)
    ensures EvidenceOn(sigs, c) != [] <==> c in ChannelsIn(sigs)
  {
    if sigs != [] {
      EvidenceNonempty(sigs[1..], c);
      assert sigs == [sigs[0]] + sigs[1..];
    }
  }

  method ComposeFinding(x: Suspect, sigs: seq<Signal>) returns (f: Finding)
    ensures f == Compose(x, sigs)
  {
    var ordered := SortBy(sigs, SignalChannelKey);
    SortSameElements(sigs, SignalChannelKey);
    assert ChannelsIn(ordered) == ChannelsIn(sigs) && DissentsIn(ordered) == DissentsIn(sigs);
    var channels := SortedChannels(ChannelsIn(ordered));
    var dissent := SortedDissents(DissentsIn(ordered));
    var evidence := CollectEvidence(ordered);
    forall c | c in evidence ensures evidence[c] == EvidenceOn(sigs, c) {
      EvidenceSorted(sigs, c);
    }
    f := Finding(KindOf(x, channels), SubjectOf(x), ConfidenceOf(|channels|), channels, dissent,
                 evidence, [], SummaryOf(x, channels));
  }

  // ---------------------------------------------------------------------------------------------
  // score

  function HiddenNames(sigs: seq<Signal>): set<Text> {
    set s | s in sigs && s.suspect.kind == ModuleSuspect && s.suspect.name.Some? && IsHidingNamed(s.channel)
      :: s.suspect.name.value
  }

  function Candidates(sigs: seq<Signal>): seq<Text> {
    SortedTexts(HiddenNames(sigs))
  }

  /** Exactly one module is hidden by name, so anonymous signals are about it. */
  predicate Attributed(sigs: seq<Signal>) {
    |Candidates(sigs)| == 1
  }

  function Target(sigs: seq<Signal>): Suspect
    requires Attributed(sigs)
  {
    Suspect(ModuleSuspect, Some(Candidates(sigs)[0]))
  }

  /** The signals behind the finding of a suspect. */
  function GroupOf(sigs: seq<Signal>, x: Suspect): seq<Signal> {
    OfSuspect(sigs, x) + if Attributed(sigs) && x == Target(sigs) then Anon(sigs) else []
  }

  /** The anonymous signals no suspect takes. */
  function Leftover(sigs: seq<Signal>): seq<Signal> {
    if Attributed(sigs) then [] else Anon(sigs)
  }

  function Unattributed(sigs: seq<Signal>): Finding {
    var f := Compose(ANONYMOUS, Leftover(sigs));
    var candidates := Candidates(sigs);
    if |candidates| > 1 then
      f.(candidates := candidates, summary := f.summary + CANDIDATES + Join(Lit(", "), candidates))
    else f
  }

  /** (kind, name or ""). */
  function SuspectKey(x: Suspect): seq<int> {
    [if x.kind == ModuleSuspect then 0 else 1] + if x.name.Some? then x.name.value else []
  }

  lemma SuspectKeyInjective(sigs: seq<Signal>)
    ensures InjectiveOn(Suspects(sigs), SuspectKey)
  {
    forall x, y | x in Suspects(sigs) && y in Suspects(sigs) && SuspectKey(x) == SuspectKey(y)
      ensures x == y
    {
      assert SuspectKey(x)[0] == SuspectKey(y)[0];
      assert SuspectKey(x)[1..] == x.name.value && SuspectKey(y)[1..] == y.name.value;
    }
  }

  function SuspectList(sigs: seq<Signal>): (r: seq<Suspect>)
    ensures forall x :: x in r <==> x in Suspects(sigs)
    ensures StrictlyAscending(r, SuspectKey)
  {
    SuspectKeyInjective(sigs);
    SortedSet(Suspects(sigs), SuspectKey)
  }

  function FindingFor(sigs: seq<Signal>, x: Suspect): Finding {
    Compose(x, GroupOf(sigs, x))
  }

  function NamedFindings(sigs: seq<Signal>, xs: seq<Suspect>): (r: seq<Finding>)
    ensures |r| == |xs| && forall i :: 0 <= i < |xs| ==> r[i] == FindingFor(sigs, xs[i])
  {
    seq(|xs|, i requires 0 <= i < |xs| => FindingFor(sigs, xs[i]))
  }

  lemma NamedFindingsStep(sigs: seq<Signal>, xs: seq<Suspect>, i: nat)
    requires i < |xs|
    ensures NamedFindings(sigs, xs[..i + 1]) == NamedFindings(sigs, xs[..i]) + [FindingFor(sigs, xs[i])]
  {
    assert xs[..i + 1] == xs[..i] + [xs[i]];
  }

  function Unsorted(sigs: seq<Signal>): seq<Finding> {
    NamedFindings(sigs, SuspectList(sigs)) + if Leftover(sigs) == [] then [] else [Unattributed(sigs)]
  }

  function Score(sigs: seq<Signal>): seq<Finding> {
    SortBy(Unsorted(sigs), SubjectKey)
  }

  lemma {:induction false} OfSuspectConcat(a: seq<Signal>, b: seq<Signal>, x: Suspect)
    ensures OfSuspect(a + b, x) == OfSuspect(a, x) + OfSuspect(b, x)
  {
    if a == [] {
      assert a + b == b;
    } else {
      assert (a + b)[1..] == a[1..] + b;
      OfSuspectConcat(a[1..], b, x);
    }
  }

  lemma {:induction false} AnonConcat(a: seq<Signal>, b: seq<Signal>)
    ensures Anon(a + b) == Anon(a) + Anon(b)
  {
    if a == [] {
      assert a + b == b;
    } else {
      assert (a + b)[1..] == a[1..] + b;
      AnonConcat(a[1..], b);
    }
  }

  lemma {:induction false} OfSuspectNamed(sigs: seq<Signal>, x: Suspect)
    requires x.name.Some?
    ensures OfSuspect(Named(sigs), x) == OfSuspect(sigs, x)
  {
    if sigs != [] {
      OfSuspectNamed(sigs[1..], x);
      if sigs[0].suspect.name.Some? {
        assert Named(sigs) == [sigs[0]] + Named(sigs[1..]);
        assert ([sigs[0]] + Named(sigs[1..]))[1..] == Named(sigs[1..]);
      } else {
        assert Named(sigs) == Named(sigs[1..]);
      }
    }
  }

  ghost predicate Grouped(groups: map<Suspect, seq<Signal>>, sigs: seq<Signal>) {
    groups.Keys == Suspects(sigs) && forall x :: x in groups ==> groups[x] == OfSuspect(sigs, x)
  }

  lemma NotYet(sigs: seq<Signal>, x: Suspect)
    requires x.name.Some?
    ensures x !in Suspects(sigs) ==> OfSuspect(sigs, x) == []
  {
    HasMember(OfSuspect(sigs, x));
  }

  lemma SuspectsStep(sigs: seq<Signal>, s: Signal)
    requires s.suspect.name.Some?
    ensures Suspects(sigs + [s]) == Suspects(sigs) + {s.suspect}
  {
  }

  lemma OfSuspectStep(sigs: seq<Signal>, s: Signal, x: Suspect)
    ensures OfSuspect(sigs + [s], x) == if s.suspect == x then OfSuspect(sigs, x) + [s] else OfSuspect(sigs, x)
  {
    OfSuspectConcat(sigs, [s], x);
    assert OfSuspect([s], x) == if s.suspect == x then [s] else [];
  }

  lemma GroupStep(sigs: seq<Signal>, s: Signal, groups: map<Suspect, seq<Signal>>)
    requires s.suspect.name.Some? && Grouped(groups, sigs)
    ensures Grouped(groups[s.suspect := (if s.suspect in groups then groups[s.suspect] else []) + [s]], sigs + [s])
  {
    NotYet(sigs, s.suspect);
    var grown := groups[s.suspect := OfSuspect(sigs, s.suspect) + [s]];
    SuspectsStep(sigs, s);
    assert grown.Keys == groups.Keys + {s.suspect};
    forall x | x in grown ensures grown[x] == OfSuspect(sigs + [s], x) {
      OfSuspectStep(sigs, s, x);
    }
  }

  /** The groups dictionary, one signal at a time. */
  method GroupSignals(named: seq<Signal>) returns (groups: map<Suspect, seq<Signal>>)
    requires forall s :: s in named ==> s.suspect.name.Some?
    ensures groups.Keys == Suspects(named)
    ensures forall x :: x in groups ==> groups[x] == OfSuspect(named, x)
  {
    groups := map[];
    for i := 0 to |named|
      invariant Grouped(groups, named[..i])
    {
      var s := named[i];
      TakeOneMore(named, i);
      GroupStep(named[..i], s, groups);
      var before := if s.suspect in groups then groups[s.suspect] else [];
      groups := groups[s.suspect := before + [s]];
    }
    assert named[..|named|] == named;
  }

  lemma GroupGains(sigs: seq<Signal>, x: Suspect)
    ensures Attributed(sigs) && x == Target(sigs) ==> GroupOf(sigs, x) == OfSuspect(sigs, x) + Anon(sigs)
    ensures !(Attributed(sigs) && x == Target(sigs)) ==> GroupOf(sigs, x) == OfSuspect(sigs, x)
  {
  }

  /** Attribution: the single hidden-named module takes the anonymous signals, if there are any. */
  method Attribute(sigs: seq<Signal>, groups: map<Suspect, seq<Signal>>)
    returns (candidates: seq<Text>, attributed: map<Suspect, seq<Signal>>, anon: seq<Signal>)
    requires groups.Keys == Suspects(sigs)
    requires forall x :: x in groups ==> groups[x] == OfSuspect(sigs, x) && x.name.Some?
    ensures candidates == Candidates(sigs) && anon == Leftover(sigs)
    ensures attributed.Keys == Suspects(sigs)
    ensures forall x :: x in attributed ==> attributed[x] == GroupOf(sigs, x)
  {
    var hiddenNamed := set x | x in groups && x.kind == ModuleSuspect
                               && (exists s: Signal :: s in groups[x] && IsHidingNamed(s.channel)) :: x.name.value;
    HiddenNamesByGroup(sigs, groups);
    candidates := SortedTexts(hiddenNamed);
    anon := Anon(sigs);
    attributed := groups;
    if |candidates| == 1 {
      TargetIsSuspect(sigs);
    }
    if |candidates| == 1 && anon != [] {
      var target := Suspect(ModuleSuspect, Some(candidates[0]));
      attributed := groups[target := groups[target] + anon];
      anon := [];
    }
    forall x | x in attributed ensures attributed[x] == GroupOf(sigs, x) {
      GroupGains(sigs, x);
    }
  }

  method ComposeAll(sigs: seq<Signal>, groups: map<Suspect, seq<Signal>>, order: seq<Suspect>)
    returns (findings: seq<Finding>)
    requires forall x :: x in order ==> x in groups
    requires forall x :: x in groups ==> groups[x] == GroupOf(sigs, x)
    ensures findings == NamedFindings(sigs, order)
  {
    findings := [];
    for i := 0 to |order|
      invariant findings == NamedFindings(sigs, order[..i])
    {
      var x := order[i];
      assert x in order;
      var f := ComposeFinding(x, groups[x]);
      NamedFindingsStep(sigs, order, i);
      findings := findings + [f];
    }
    assert order[..|order|] == order;
  }

  method ScoreSignals(sigs: seq<Signal>) returns (findings: seq<Finding>)
    ensures findings == Score(sigs)
  {
    var groups := GroupSignals(Named(sigs));
    assert Suspects(Named(sigs)) == Suspects(sigs);
    forall x | x in groups ensures groups[x] == OfSuspect(sigs, x) && x.name.Some? {
      OfSuspectNamed(sigs, x);
    }
    var candidates, attributed, anon := Attribute(sigs, groups);
    SuspectKeyInjective(sigs);
    var order := SortedSet(attributed.Keys, SuspectKey);
    findings := ComposeAll(sigs, attributed, order);
    var extra := ComposeLeftover(sigs, candidates, anon);
    findings := SortBy(findings + extra, SubjectKey);
  }

  method ComposeLeftover(sigs: seq<Signal>, candidates: seq<Text>, anon: seq<Signal>) returns (r: seq<Finding>)
    requires candidates == Candidates(sigs) && anon == Leftover(sigs)
    ensures r == if Leftover(sigs) == [] then [] else [Unattributed(sigs)]
  {
    if anon == [] {
      return [];
    }
    var f := ComposeFinding(ANONYMOUS, anon);
    if |candidates| > 1 {
      f := f.(candidates := candidates, summary := f.summary + CANDIDATES + Join(Lit(", "), candidates));
    }
    r := [f];
  }

  lemma HiddenNamesByGroup(sigs: seq<Signal>, groups: map<Suspect, seq<Signal>>)
    requires groups.Keys == Suspects(sigs)
    requires forall x :: x in groups ==> groups[x] == OfSuspect(sigs, x) && x.name.Some?
    ensures HiddenNames(sigs) == set x | x in groups && x.kind == ModuleSuspect
                && (exists s: Signal :: s in groups[x] && IsHidingNamed(s.channel)) :: x.name.value
  {
    var byGroup := set x | x in groups && x.kind == ModuleSuspect
                && (exists s: Signal :: s in groups[x] && IsHidingNamed(s.channel)) :: x.name.value;
    forall n | n in HiddenNames(sigs) ensures n in byGroup {
      var s :| s in sigs && s.suspect.kind == ModuleSuspect && s.suspect.name == Some(n) && IsHidingNamed(s.channel);
      assert s in groups[s.suspect];
    }
    forall n | n in byGroup ensures n in HiddenNames(sigs) {
      var x :| x in groups && x.kind == ModuleSuspect && x.name.value == n
               && (exists s: Signal :: s in groups[x] && IsHidingNamed(s.channel));
      var s: Signal :| s in groups[x] && IsHidingNamed(s.channel);
      assert s in sigs && s.suspect == x;
    }
  }

  lemma TargetIsSuspect(sigs: seq<Signal>)
    requires Attributed(sigs)
    ensures Target(sigs) in Suspects(sigs)
    ensures HiddenNames(sigs) == {Candidates(sigs)[0]}
  {
    var candidates := Candidates(sigs);
    assert candidates[0] in candidates;
    forall n | n in HiddenNames(sigs) ensures n == candidates[0] {
      assert n in candidates;
    }
    var s :| s in sigs && s.suspect.kind == ModuleSuspect && s.suspect.name == Some(candidates[0])
             && IsHidingNamed(s.channel);
    assert s.suspect == Target(sigs);
  }

  // ---------------------------------------------------------------------------------------------
  // One finding per suspect, in subject order

  lemma SubjectOrder(a: Suspect, b: Suspect)
    requires a.name.Some? && b.name.Some?
    requires LexLt(SuspectKey(a), SuspectKey(b))
    ensures LexLt(SubjectOf(a), SubjectOf(b))
  {
    if a.kind == b.kind {
      var p := if a.kind == ModuleSuspect then Lit("module ") else Lit("pid ");
      var k := [if a.kind == ModuleSuspect then 0 else 1];
      LexPrefix(k, a.name.value, b.name.value);
      LexPrefix(p, a.name.value, b.name.value);
      assert SubjectOf(a) == p + a.name.value && SubjectOf(b) == p + b.name.value;
      assert SubjectOf(a)[|p|..] == a.name.value && SubjectOf(b)[|p|..] == b.name.value;
    } else {
      assert SubjectOf(a)[0] == 'm' as int && SubjectOf(b)[0] == 'p' as int;
    }
  }

  /** Every named subject precedes that of the unattributed finding. */
  lemma NamedBeforeUnattributed(x: Suspect)
    requires x.name.Some?
    ensures LexLt(SubjectOf(x), SubjectOf(ANONYMOUS))
  {
    assert SubjectOf(x)[0] == 'm' as int || SubjectOf(x)[0] == 'p' as int;
    assert SubjectOf(ANONYMOUS)[0] == 'u' as int;
  }

  lemma UnsortedLength(sigs: seq<Signal>)
    ensures |Unsorted(sigs)| == |SuspectList(sigs)| + if Leftover(sigs) == [] then 0 else 1
  {
  }

  lemma UnsortedAt(sigs: seq<Signal>, i: nat)
    requires i < |Unsorted(sigs)|
    ensures Unsorted(sigs)[i]
         == if i < |SuspectList(sigs)| then FindingFor(sigs, SuspectList(sigs)[i]) else Unattributed(sigs)
  {
  }

  lemma UnsortedSubject(sigs: seq<Signal>, i: nat)
    requires i < |Unsorted(sigs)|
    ensures Unsorted(sigs)[i].subject
         == if i < |SuspectList(sigs)| then SubjectOf(SuspectList(sigs)[i]) else SubjectOf(ANONYMOUS)
    ensures i < |SuspectList(sigs)| ==> SuspectList(sigs)[i].name.Some?
  {
    UnsortedAt(sigs, i);
    if i < |SuspectList(sigs)| {
      assert SuspectList(sigs)[i] in SuspectList(sigs);
    }
  }

  lemma UnsortedAscends(sigs: seq<Signal>)
    ensures StrictlyAscending(Unsorted(sigs), SubjectKey)
  {
    var xs, fs := SuspectList(sigs), Unsorted(sigs);
    UnsortedLength(sigs);
    forall i, j | 0 <= i < j < |fs| ensures LexLt(SubjectKey(fs[i]), SubjectKey(fs[j])) {
      UnsortedSubject(sigs, i);
      UnsortedSubject(sigs, j);
      if j < |xs| {
        SubjectOrder(xs[i], xs[j]);
      } else {
        NamedBeforeUnattributed(xs[i]);
      }
    }
  }

  /** Findings come in strictly ascending order of subject, so no subject has two. */
  lemma ScoreAscends(sigs: seq<Signal>)
    ensures Score(sigs) == Unsorted(sigs)
    ensures StrictlyAscending(Score(sigs), SubjectKey)
  {
    UnsortedAscends(sigs);
    SortFixpoint(Unsorted(sigs), SubjectKey);
  }

  lemma NamedFindingsMembers(sigs: seq<Signal>, xs: seq<Suspect>, f: Finding)
    ensures f in NamedFindings(sigs, xs) <==> exists x :: x in xs && f == FindingFor(sigs, x)
  {
    var fs := NamedFindings(sigs, xs);
    if f in fs {
      var i :| 0 <= i < |fs| && fs[i] == f;
      assert xs[i] in xs;
    }
    if x :| x in xs && f == FindingFor(sigs, x) {
      var i :| 0 <= i < |xs| && xs[i] == x;
      assert fs[i] == f;
    }
  }

  /** The findings are exactly one per named suspect, and one for the anonymous signals left over. */
  lemma ScoreMembers(sigs: seq<Signal>, f: Finding)
    ensures f in Score(sigs)
       <==> (exists x :: x in Suspects(sigs) && f == FindingFor(sigs, x))
            || (Leftover(sigs) != [] && f == Unattributed(sigs))
  {
    ScoreAscends(sigs);
    NamedFindingsMembers(sigs, SuspectList(sigs), f);
  }

  /** A subject identifies its suspect. */
  lemma SubjectInjective(a: Suspect, b: Suspect)
    requires a.name.Some? && b.name.Some?
    requires SubjectOf(a) == SubjectOf(b)
    ensures a == b
  {
    assert a.kind == b.kind by {
      assert SubjectOf(a)[0] == SubjectOf(b)[0];
    }
    var p := if a.kind == ModuleSuspect then Lit("module ") else Lit("pid ");
    assert SubjectOf(a)[|p|..] == a.name.value && SubjectOf(b)[|p|..] == b.name.value;
  }
}
