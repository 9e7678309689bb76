/** Laws of the scorer: nothing is lost, order does not matter, more evidence never hurts a suspect
    except in one exactly described case. */
module ScoringLaws {
  import opened Text
  import opened Sorting
  import opened Findings
  import opened Scoring

  // ---------------------------------------------------------------------------------------------
  // Conservation

  type Pair = (Channel, Evidence)

  /** Every signal's evidence, tagged with its channel. */
  ghost function Pairs(sigs: seq<Signal>): multiset<Pair> {
    if sigs == [] then multiset{}
    else multiset{(sigs[0].channel, sigs[0].evidence)} + Pairs(sigs[1..])
  }

  ghost function Tagged(c: Channel, es: seq<Evidence>): multiset<Pair> {
    if es == [] then multiset{} else multiset{(c, es[0])} + Tagged(c, es[1..])
  }

  /** Everything a finding files under the given channels. */
  ghost function FiledUnder(channels: seq<Channel>, evidence: map<Channel, seq<Evidence>>): multiset<Pair> {
    if channels == [] then multiset{}
    else (if channels[0] in evidence then Tagged(channels[0], evidence[channels[0]]) else multiset{})
         + FiledUnder(channels[1..], evidence)
  }

  /** Everything a report files, finding by finding. */
  ghost function Filed(fs: seq<Finding>): multiset<Pair> {
    if fs == [] then multiset{} else FiledUnder(fs[0].channels, fs[0].evidence) + Filed(fs[1..])
  }

  lemma CountFirst<T>(xs: seq<T>, x: T)
    requires xs != []
    ensures multiset(xs)[x] == (if xs[0] == x then 1 else 0) + multiset(xs[1..])[x]
  {
    assert xs == [xs[0]] + xs[1..];
  }

  lemma {:induction false} TaggedCount(c: Channel, es: seq<Evidence>, p: Pair)
    ensures Tagged(c, es)[p] == if p.0 == c then multiset(es)[p.1] else 0
  {
    if es != [] {
      TaggedCount(c, es[1..], p);
      CountFirst(es, p.1);
    }
  }

  lemma {:induction false} PairsCount(sigs: seq<Signal>, p: Pair)
    ensures Pairs(sigs)[p] == multiset(EvidenceOn(sigs, p.0))[p.1]
  {
    if sigs != [] {
      PairsCount(sigs[1..], p);
      var first := if sigs[0].channel == p.0 then [sigs[0].evidence] else [];
      assert multiset(first + EvidenceOn(sigs[1..], p.0)) == multiset(first) + multiset(EvidenceOn(sigs[1..], p.0));
    }
  }

  lemma {:induction false} FiledUnderCount(channels: seq<Channel>, evidence: map<Channel, seq<Evidence>>, p: Pair)
    requires StrictlyAscending(channels, ChannelKey)
    ensures FiledUnder(channels, evidence)[p]
         == if p.0 in channels && p.0 in evidence then multiset(evidence[p.0])[p.1] else 0
  {
    if channels != [] {
      FiledUnderCount(channels[1..], evidence, p);
      if channels[0] in evidence {
        TaggedCount(channels[0], evidence[channels[0]], p);
      }
      assert channels[0] !in channels[1..];
      assert channels == [channels[0]] + channels[1..];
    }
  }

  /** A finding files exactly the evidence of the signals it was composed from. */
  lemma ComposeFiles(x: Suspect, sigs: seq<Signal>)
    ensures var f := Compose(x, sigs); FiledUnder(f.channels, f.evidence) == Pairs(sigs)
  {
    var f := Compose(x, sigs);
    forall p: Pair ensures FiledUnder(f.channels, f.evidence)[p] == Pairs(sigs)[p] {
      FiledUnderCount(f.channels, f.evidence, p);
      PairsCount(sigs, p);
      EvidenceNonempty(sigs, p.0);
    }
  }

  lemma {:induction false} PairsConcat(a: seq<Signal>, b: seq<Signal>)
    ensures Pairs(a + b) == Pairs(a) + Pairs(b)
  {
    if a == [] {
      assert a + b == b;
    } else {
      assert (a + b)[1..] == a[1..] + b && (a + b)[0] == a[0];
      PairsConcat(a[1..], b);
    }
  }

  ghost function PairsOfSuspects(sigs: seq<Signal>, xs: seq<Suspect>): multiset<Pair> {
    if xs == [] then multiset{} else Pairs(OfSuspect(sigs, xs[0])) + PairsOfSuspects(sigs, xs[1..])
  }

  ghost predicate Distinct<T(!new)>(xs: seq<T>) {
    forall i, j :: 0 <= i < j < |xs| ==> xs[i] != xs[j]
  }

  lemma OneMoreForSuspect(s: Signal, rest: seq<Signal>, x: Suspect)
    ensures Pairs(OfSuspect([s] + rest, x))
         == (if s.suspect == x then multiset{(s.channel, s.evidence)} else multiset{}) + Pairs(OfSuspect(rest, x))
  {
    assert ([s] + rest)[1..] == rest;
    if s.suspect == x {
      assert OfSuspect([s] + rest, x) == [s] + OfSuspect(rest, x);
      assert ([s] + OfSuspect(rest, x))[1..] == OfSuspect(rest, x);
    } else {
      assert OfSuspect([s] + rest, x) == OfSuspect(rest, x);
    }
  }

  lemma {:induction false} OneMoreSignal(s: Signal, rest: seq<Signal>, xs: seq<Suspect>)
    requires Distinct(xs)
    ensures PairsOfSuspects([s] + rest, xs)
         == (if s.suspect in xs then multiset{(s.channel, s.evidence)} else multiset{}) + PairsOfSuspects(rest, xs)
  {
    if xs != [] {
      OneMoreSignal(s, rest, xs[1..]);
      OneMoreForSuspect(s, rest, xs[0]);
      assert xs[0] !in xs[1..];
      assert s.suspect in xs <==> s.suspect == xs[0] || s.suspect in xs[1..];
    }
  }

  /** Grouping by suspect splits the named signals without loss or repetition. */
  lemma {:induction false} GroupsPartition(sigs: seq<Signal>, xs: seq<Suspect>)
    requires Distinct(xs)
    requires forall s :: s in sigs ==> (s.suspect in xs <==> s.suspect.name.Some?)
    ensures PairsOfSuspects(sigs, xs) + Pairs(Anon(sigs)) == Pairs(sigs)
  {
    if sigs == [] {
      NoSignals(xs);
    } else {
      var s, rest := sigs[0], sigs[1..];
      assert sigs == [s] + rest;
      assert s in sigs && forall t :: t in rest ==> t in sigs;
      GroupsPartition(rest, xs);
      OneMoreSignal(s, rest, xs);
      PairsConcat(if s.suspect.name.None? then [s] else [], Anon(rest));
    }
  }

  lemma {:induction false} NoSignals(xs: seq<Suspect>)
    ensures PairsOfSuspects([], xs) == multiset{}
  {
    if xs != [] {
      NoSignals(xs[1..]);
    }
  }

  lemma {:induction false} FiledConcat(a: seq<Finding>, b: seq<Finding>)
    ensures Filed(a + b) == Filed(a) + Filed(b)
  {
    if a == [] {
      assert a + b == b;
    } else {
      assert (a + b)[1..] == a[1..] + b && (a + b)[0] == a[0];
      FiledConcat(a[1..], b);
    }
  }

  /** What a suspect's finding has to file: its own signals, and the anonymous ones if it gets them. */
  ghost function Share(sigs: seq<Signal>, x: Suspect): multiset<Pair> {
    Pairs(OfSuspect(sigs, x)) + if Attributed(sigs) && x == Target(sigs) then Pairs(Anon(sigs)) else multiset{}
  }

  ghost function Shares(sigs: seq<Signal>, xs: seq<Suspect>): multiset<Pair> {
    if xs == [] then multiset{} else Share(sigs, xs[0]) + Shares(sigs, xs[1..])
  }

  lemma FindingFiles(sigs: seq<Signal>, x: Suspect)
    ensures FiledUnder(FindingFor(sigs, x).channels, FindingFor(sigs, x).evidence) == Share(sigs, x)
  {
    ComposeFiles(x, GroupOf(sigs, x));
    PairsConcat(OfSuspect(sigs, x), if Attributed(sigs) && x == Target(sigs) then Anon(sigs) else []);
  }

  lemma {:induction false} FiledByShares(fs: seq<Finding>, sigs: seq<Signal>, xs: seq<Suspect>)
    requires |fs| == |xs|
    requires forall i :: 0 <= i < |xs| ==> FiledUnder(fs[i].channels, fs[i].evidence) == Share(sigs, xs[i])
    ensures Filed(fs) == Shares(sigs, xs)
  {
    if xs != [] {
      FiledByShares(fs[1..], sigs, xs[1..]);
    }
  }

  /** The anonymous pairs, when the target that takes them is among xs. */
  ghost function AnonIf(sigs: seq<Signal>, xs: seq<Suspect>): multiset<Pair> {
    if Attributed(sigs) && Target(sigs) in xs then Pairs(Anon(sigs)) else multiset{}
  }

  lemma TargetOnce(sigs: seq<Signal>, xs: seq<Suspect>)
    requires Distinct(xs) && xs != []
    ensures AnonIf(sigs, xs) == AnonIf(sigs, [xs[0]]) + AnonIf(sigs, xs[1..])
    ensures Share(sigs, xs[0]) == Pairs(OfSuspect(sigs, xs[0])) + AnonIf(sigs, [xs[0]])
  {
    assert xs[0] !in xs[1..];
    assert Attributed(sigs) ==> (Target(sigs) in xs <==> Target(sigs) == xs[0] || Target(sigs) in xs[1..]);
  }

  lemma Regroup(a: multiset<Pair>, b: multiset<Pair>, c: multiset<Pair>, d: multiset<Pair>)
    ensures (a + b) + (c + d) == (a + c) + (b + d)
  {
  }

  lemma {:induction false} SharesSplit(sigs: seq<Signal>, xs: seq<Suspect>)
    requires Distinct(xs)
    ensures Shares(sigs, xs) == PairsOfSuspects(sigs, xs) + AnonIf(sigs, xs)
  {
    if xs != [] {
      SharesSplit(sigs, xs[1..]);
      TargetOnce(sigs, xs);
      Regroup(Pairs(OfSuspect(sigs, xs[0])), AnonIf(sigs, [xs[0]]), PairsOfSuspects(sigs, xs[1..]), AnonIf(sigs, xs[1..]));
    }
  }

  lemma NamedFile(sigs: seq<Signal>, xs: seq<Suspect>)
    ensures Filed(NamedFindings(sigs, xs)) == Shares(sigs, xs)
  {
    var fs := NamedFindings(sigs, xs);
    forall i | 0 <= i < |xs| ensures FiledUnder(fs[i].channels, fs[i].evidence) == Share(sigs, xs[i]) {
      FindingFiles(sigs, xs[i]);
    }
    FiledByShares(fs, sigs, xs);
  }

  lemma LeftoverFiles(sigs: seq<Signal>)
    ensures Filed(if Leftover(sigs) == [] then [] else [Unattributed(sigs)]) == Pairs(Leftover(sigs))
  {
    if Leftover(sigs) != [] {
      ComposeFiles(ANONYMOUS, Leftover(sigs));
      var one := [Unattributed(sigs)];
      assert one[1..] == [] && Filed(one[1..]) == multiset{};
    }
  }

  lemma SharesAddUp(sigs: seq<Signal>)
    ensures Shares(sigs, SuspectList(sigs)) + Pairs(Leftover(sigs)) == Pairs(sigs)
  {
    var xs := SuspectList(sigs);
    SharesSplit(sigs, xs);
    assert forall s :: s in sigs && s.suspect.name.Some? ==> s.suspect in Suspects(sigs);
    GroupsPartition(sigs, xs);
    if Attributed(sigs) {
      TargetIsSuspect(sigs);
    }
  }

  /** Conservation: the report files exactly the evidence it was given, each piece once, under the
      channel it came on. */
  lemma Conservation(sigs: seq<Signal>)
    ensures Filed(Score(sigs)) == Pairs(sigs)
  {
    ScoreAscends(sigs);
    var named := NamedFindings(sigs, SuspectList(sigs));
    var rest := if Leftover(sigs) == [] then [] else [Unattributed(sigs)];
    NamedFile(sigs, SuspectList(sigs));
    LeftoverFiles(sigs);
    FiledConcat(named, rest);
    SharesAddUp(sigs);
  }

  /** Attribution: anonymous signals go together. With exactly one module hidden by name they are at
      the end of each of its evidence lists and nowhere else; otherwise they make up the unattributed
      finding, which names every candidate when there are several. */
  lemma Attribution(sigs: seq<Signal>, c: Channel)
    requires c in ChannelsIn(Anon(sigs))
    ensures Attributed(sigs) ==>
              && HiddenNames(sigs) == {Candidates(sigs)[0]}
              && Target(sigs) in Suspects(sigs)
              && c in FindingFor(sigs, Target(sigs)).evidence
              && FindingFor(sigs, Target(sigs)).evidence[c]
                 == EvidenceOn(OfSuspect(sigs, Target(sigs)), c) + EvidenceOn(Anon(sigs), c)
              && forall f :: f in Score(sigs) ==> f.subject != SubjectOf(ANONYMOUS)
    ensures !Attributed(sigs) ==>
              && Unattributed(sigs) in Score(sigs)
              && c in Unattributed(sigs).evidence
              && Unattributed(sigs).evidence[c] == EvidenceOn(Anon(sigs), c)
              && Unattributed(sigs).candidates == (if |HiddenNames(sigs)| >= 2 then SortedTexts(HiddenNames(sigs)) else [])
              && forall x :: x in Suspects(sigs) ==> GroupOf(sigs, x) == OfSuspect(sigs, x)
  {
    EvidenceNonempty(Anon(sigs), c);
    if Attributed(sigs) {
      TargetIsSuspect(sigs);
      var x := Target(sigs);
      EvidenceOnConcat(OfSuspect(sigs, x), Anon(sigs), c);
      EvidenceNonempty(GroupOf(sigs, x), c);
      forall f | f in Score(sigs) ensures f.subject != SubjectOf(ANONYMOUS) {
        ScoreMembers(sigs, f);
        var y :| y in Suspects(sigs) && f == FindingFor(sigs, y);
        NamedBeforeUnattributed(y);
      }
    } else {
      ScoreMembers(sigs, Unattributed(sigs));
      SortedSetSize(HiddenNames(sigs), Candidates(sigs), TextKey);
    }
  }

  // ---------------------------------------------------------------------------------------------
  // Order independence

  ghost predicate Permuted<T>(a: seq<T>, b: seq<T>) {
    multiset(a) == multiset(b)
  }

  lemma PermutedMembers<T>(a: seq<T>, b: seq<T>)
    requires Permuted(a, b)
    ensures forall x :: x in a <==> x in b
  {
    forall x ensures x in a <==> x in b {
      assert x in a <==> x in multiset(a);
      assert x in b <==> x in multiset(b);
    }
  }

  lemma {:induction false} OfSuspectCount(sigs: seq<Signal>, x: Suspect, s: Signal)
    ensures multiset(OfSuspect(sigs, x))[s] == if s.suspect == x then multiset(sigs)[s] else 0
  {
    if sigs != [] {
      OfSuspectCount(sigs[1..], x, s);
      assert sigs == [sigs[0]] + sigs[1..];
      var first := if sigs[0].suspect == x then [sigs[0]] else [];
      assert multiset(first + OfSuspect(sigs[1..], x)) == multiset(first) + multiset(OfSuspect(sigs[1..], x));
    }
  }

  lemma {:induction false} AnonCount(sigs: seq<Signal>, s: Signal)
    ensures multiset(Anon(sigs))[s] == if s.suspect.name.None? then multiset(sigs)[s] else 0
  {
    if sigs != [] {
      AnonCount(sigs[1..], s);
      assert sigs == [sigs[0]] + sigs[1..];
      var first := if sigs[0].suspect.name.None? then [sigs[0]] else [];
      assert multiset(first + Anon(sigs[1..])) == multiset(first) + multiset(Anon(sigs[1..]));
    }
  }

  lemma SelectionsPermute(a: seq<Signal>, b: seq<Signal>, x: Suspect)
    requires Permuted(a, b)
    ensures Permuted(OfSuspect(a, x), OfSuspect(b, x))
    ensures Permuted(Anon(a), Anon(b))
  {
    forall s: Signal ensures multiset(OfSuspect(a, x))[s] == multiset(OfSuspect(b, x))[s]
                          && multiset(Anon(a))[s] == multiset(Anon(b))[s] {
      OfSuspectCount(a, x, s);
      OfSuspectCount(b, x, s);
      AnonCount(a, s);
      AnonCount(b, s);
    }
  }

  lemma {:induction false} EvidencePermutes(a: seq<Signal>, b: seq<Signal>, c: Channel)
    requires Permuted(a, b)
    ensures Permuted(EvidenceOn(a, c), EvidenceOn(b, c))
  {
    PermutedMembers(a, b);
    if a == [] {
      HasMember(b);
    } else {
      assert a[0] in a;
      var i :| 0 <= i < |b| && b[i] == a[0];
      RemoveMember(a, b, i);
      EvidencePermutes(a[1..], b[..i] + b[i + 1..], c);
      EvidenceSplit(a, 0, c);
      assert a[..0] + a[1..] == a[1..];
      EvidenceSplit(b, i, c);
    }
  }

  lemma RemoveMember<T>(a: seq<T>, b: seq<T>, i: nat)
    requires Permuted(a, b) && a != [] && i < |b| && b[i] == a[0]
    ensures Permuted(a[1..], b[..i] + b[i + 1..])
  {
    assert a == [a[0]] + a[1..];
    assert b == b[..i] + [b[i]] + b[i + 1..];
    assert multiset(a[1..]) == multiset(a) - multiset{a[0]};
    assert multiset(b[..i] + b[i + 1..]) == multiset(b) - multiset{b[i]};
  }

  lemma EvidenceSplit(sigs: seq<Signal>, i: nat, c: Channel)
    requires i < |sigs|
    ensures multiset(EvidenceOn(sigs, c))
         == multiset(EvidenceOn(sigs[..i] + sigs[i + 1..], c))
            + if sigs[i].channel == c then multiset{sigs[i].evidence} else multiset{}
  {
    var front, back := sigs[..i], sigs[i + 1..];
    assert sigs == front + ([sigs[i]] + back);
    EvidenceOnConcat(front, back, c);
    EvidenceOnConcat([sigs[i]], back, c);
    EvidenceOnConcat(front, [sigs[i]] + back, c);
  }

  /** The same finding, except for the order of evidence within each channel. */
  ghost predicate SameFinding(f: Finding, g: Finding) {
    && f.kind == g.kind && f.subject == g.subject && f.confidence == g.confidence
    && f.channels == g.channels && f.dissent == g.dissent && f.candidates == g.candidates
    && f.summary == g.summary
    && f.evidence.Keys == g.evidence.Keys
    && forall c :: c in f.evidence ==> Permuted(f.evidence[c], g.evidence[c])
  }

  lemma ComposePermutes(x: Suspect, a: seq<Signal>, b: seq<Signal>)
    requires Permuted(a, b)
    ensures SameFinding(Compose(x, a), Compose(x, b))
  {
    PermutedMembers(a, b);
    assert ChannelsIn(a) == ChannelsIn(b) && DissentsIn(a) == DissentsIn(b);
    forall c ensures Permuted(EvidenceOn(a, c), EvidenceOn(b, c)) {
      EvidencePermutes(a, b, c);
    }
  }

  lemma FindingPermutes(a: seq<Signal>, b: seq<Signal>, x: Suspect)
    requires Permuted(a, b)
    ensures SameFinding(FindingFor(a, x), FindingFor(b, x))
    ensures SameFinding(Unattributed(a), Unattributed(b))
  {
    PermutedMembers(a, b);
    assert HiddenNames(a) == HiddenNames(b);
    SelectionsPermute(a, b, x);
    assert Permuted(GroupOf(a, x), GroupOf(b, x));
    ComposePermutes(x, GroupOf(a, x), GroupOf(b, x));
    assert Permuted(Leftover(a), Leftover(b));
    ComposePermutes(ANONYMOUS, Leftover(a), Leftover(b));
  }

  lemma SameSuspectList(a: seq<Signal>, b: seq<Signal>)
    requires Permuted(a, b)
    ensures SuspectList(a) == SuspectList(b)
    ensures (Leftover(a) == []) == (Leftover(b) == [])
  {
    PermutedMembers(a, b);
    assert Suspects(a) == Suspects(b);
    assert HiddenNames(a) == HiddenNames(b);
    SelectionsPermute(a, b, ANONYMOUS);
    PermutedMembers(Anon(a), Anon(b));
    HasMember(Anon(a));
    HasMember(Anon(b));
  }

  lemma SameUnsorted(a: seq<Signal>, b: seq<Signal>)
    requires Permuted(a, b)
    requires SuspectList(a) == SuspectList(b) && ((Leftover(a) == []) == (Leftover(b) == []))
    ensures |Unsorted(a)| == |Unsorted(b)|
    ensures forall i :: 0 <= i < |Unsorted(a)| ==> SameFinding(Unsorted(a)[i], Unsorted(b)[i])
  {
    var xs := SuspectList(a);
    UnsortedLength(a);
    UnsortedLength(b);
    forall i | 0 <= i < |Unsorted(a)| ensures SameFinding(Unsorted(a)[i], Unsorted(b)[i]) {
      UnsortedAt(a, i);
      UnsortedAt(b, i);
      FindingPermutes(a, b, if i < |xs| then xs[i] else ANONYMOUS);
    }
  }

  /** The order signals arrive in changes no conclusion: the same findings come out, in the same
      order, with the same channels, dissent, confidence and wording. */
  lemma OrderIndependence(a: seq<Signal>, b: seq<Signal>)
    requires Permuted(a, b)
    ensures |Score(a)| == |Score(b)|
    ensures forall i :: 0 <= i < |Score(a)| ==> SameFinding(Score(a)[i], Score(b)[i])
  {
    SameSuspectList(a, b);
    SameUnsorted(a, b);
    ScoreAscends(a);
    ScoreAscends(b);
  }

  // ---------------------------------------------------------------------------------------------
  // Monotone corroboration

  function ConfidenceRank(c: Confidence): int {
    match c case Low => 0 case Medium => 1 case High => 2
  }

  /** s would be a second module hidden by name: the guard of the one exception. */
  predicate Displaces(sigs: seq<Signal>, s: Signal) {
    && Attributed(sigs)
    && s.suspect.kind == ModuleSuspect && s.suspect.name.Some? && IsHidingNamed(s.channel)
    && s.suspect != Target(sigs)
  }

  function NameIfHidden(s: Signal): set<Text> {
    if s.suspect.kind == ModuleSuspect && s.suspect.name.Some? && IsHidingNamed(s.channel)
    then {s.suspect.name.value} else {}
  }

  lemma HiddenNamesStep(sigs: seq<Signal>, s: Signal)
    ensures HiddenNames(sigs + [s])
         == HiddenNames(sigs) + NameIfHidden(s)
  {
  }

  /** Appending a signal keeps the attribution target, unless the signal displaces it. */
  lemma AttributionKept(sigs: seq<Signal>, s: Signal)
    requires Attributed(sigs)
    ensures Displaces(sigs, s) <==> !Attributed(sigs + [s])
    ensures !Displaces(sigs, s) ==> Target(sigs + [s]) == Target(sigs)
    ensures Displaces(sigs, s) ==>
              && HiddenNames(sigs + [s]) == {Candidates(sigs)[0], s.suspect.name.value}
              && |Candidates(sigs + [s])| == 2
  {
    TargetIsSuspect(sigs);
    HiddenNamesStep(sigs, s);
    SortedSetSize(HiddenNames(sigs + [s]), Candidates(sigs + [s]), TextKey);
    if !Displaces(sigs, s) {
      assert HiddenNames(sigs + [s]) == HiddenNames(sigs);
    }
  }

  lemma ChannelsConcat(a: seq<Signal>, b: seq<Signal>)
    ensures ChannelsIn(a + b) == ChannelsIn(a) + ChannelsIn(b)
  {
  }

  lemma FindingChannels(x: Suspect, sigs: seq<Signal>)
    ensures forall c :: c in Compose(x, sigs).channels <==> c in ChannelsIn(sigs)
    ensures |Compose(x, sigs).channels| == |ChannelsIn(sigs)|
    ensures Compose(x, sigs).confidence == ConfidenceOf(|ChannelsIn(sigs)|)
  {
    SortedSetSize(ChannelsIn(sigs), Compose(x, sigs).channels, ChannelKey);
  }

  lemma MoreChannels(x: Suspect, a: seq<Signal>, b: seq<Signal>)
    requires ChannelsIn(a) != {} && ChannelsIn(a) <= ChannelsIn(b)
    ensures ConfidenceRank(Compose(x, a).confidence) <= ConfidenceRank(Compose(x, b).confidence)
  {
    FindingChannels(x, a);
    FindingChannels(x, b);
    SubsetSize(ChannelsIn(a), ChannelsIn(b));
  }

  lemma SubsetSize<T>(a: set<T>, b: set<T>)
    requires a <= b
    ensures |a| <= |b|
  {
    assert b == a + (b - a);
  }

  lemma GroupChannels(sigs: seq<Signal>, x: Suspect)
    ensures ChannelsIn(GroupOf(sigs, x))
         == ChannelsIn(OfSuspect(sigs, x))
            + if Attributed(sigs) && x == Target(sigs) then ChannelsIn(Anon(sigs)) else {}
  {
    ChannelsConcat(OfSuspect(sigs, x), if Attributed(sigs) && x == Target(sigs) then Anon(sigs) else []);
  }

  lemma SelectionsGrow(sigs: seq<Signal>, s: Signal, x: Suspect)
    ensures ChannelsIn(OfSuspect(sigs + [s], x))
         == ChannelsIn(OfSuspect(sigs, x)) + if s.suspect == x then {s.channel} else {}
    ensures ChannelsIn(Anon(sigs + [s])) >= ChannelsIn(Anon(sigs))
  {
    OfSuspectConcat(sigs, [s], x);
    AnonConcat(sigs, [s]);
    ChannelsConcat(OfSuspect(sigs, x), OfSuspect([s], x));
    ChannelsConcat(Anon(sigs), Anon([s]));
  }

  lemma GroupGrows(sigs: seq<Signal>, s: Signal, x: Suspect)
    requires x.name.Some?
    ensures !(Displaces(sigs, s) && x == Target(sigs)) ==>
              ChannelsIn(GroupOf(sigs, x)) <= ChannelsIn(GroupOf(sigs + [s], x))
    ensures Displaces(sigs, s) && x == Target(sigs) ==>
              ChannelsIn(GroupOf(sigs + [s], x)) == ChannelsIn(OfSuspect(sigs, x))
  {
    SelectionsGrow(sigs, s, x);
    GroupChannels(sigs, x);
    GroupChannels(sigs + [s], x);
    if Attributed(sigs) {
      AttributionKept(sigs, s);
    }
  }

  /** One more signal never takes a channel from a named suspect and never lowers its confidence. The
      one exception is a signal that makes a second module hidden by name: the module that was alone
      then keeps its own channels and loses exactly those only anonymous signals gave it. */
  lemma MonotoneCorroboration(sigs: seq<Signal>, s: Signal, x: Suspect)
    requires x in Suspects(sigs)
    ensures x in Suspects(sigs + [s])
    ensures var f, g := FindingFor(sigs, x), FindingFor(sigs + [s], x);
      if Displaces(sigs, s) && x == Target(sigs) then
        forall c :: c in f.channels && c !in g.channels
               <==> c in ChannelsIn(Anon(sigs)) && c !in ChannelsIn(OfSuspect(sigs, x))
      else
        && (forall c :: c in f.channels ==> c in g.channels)
        && ConfidenceRank(f.confidence) <= ConfidenceRank(g.confidence)
  {
    var before, after := GroupOf(sigs, x), GroupOf(sigs + [s], x);
    GroupGrows(sigs, s, x);
    FindingChannels(x, before);
    FindingChannels(x, after);
    var own :| own in sigs && own.suspect == x;
    assert own in sigs + [s];
    assert own in before && own.channel in ChannelsIn(before);
    if Displaces(sigs, s) && x == Target(sigs) {
      ChannelsConcat(OfSuspect(sigs, x), Anon(sigs));
    } else {
      MoreChannels(x, before, after);
    }
  }

  /** What the displaced module loses reappears whole in the unattributed finding, which names both
      modules. */
  lemma DisplacedEvidenceReappears(sigs: seq<Signal>, s: Signal)
    requires Displaces(sigs, s) && Anon(sigs) != []
    ensures Unattributed(sigs + [s]) in Score(sigs + [s])
    ensures Unattributed(sigs + [s]).evidence
         == map c | c in ChannelsIn(Anon(sigs)) :: EvidenceOn(Anon(sigs), c)
    ensures Unattributed(sigs + [s]).candidates == SortedTexts({Candidates(sigs)[0], s.suspect.name.value})
  {
    AttributionKept(sigs, s);
    AnonConcat(sigs, [s]);
    assert Anon([s]) == [];
    assert Leftover(sigs + [s]) == Anon(sigs);
    UnattributedOf(sigs + [s]);
    ScoreMembers(sigs + [s], Unattributed(sigs + [s]));
  }

  lemma UnattributedOf(sigs: seq<Signal>)
    requires |Candidates(sigs)| > 1
    ensures Unattributed(sigs).evidence == map c | c in ChannelsIn(Anon(sigs)) :: EvidenceOn(Anon(sigs), c)
    ensures Unattributed(sigs).candidates == Candidates(sigs)
  {
  }
}
