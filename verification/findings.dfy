/** analysis/models.py: signals, suspects and findings. */
module Findings {
  import opened Text
  import opened Sorting
  import Snapshots

  /** The channels kdetect's own detectors report on. */
  datatype Channel =
    | BaselineDriftChannel
    | DirectStatus
    | FtraceOrphan
    | OverListedChannel
    | SocketVisible
    | SyscallKill
    | Taint
    | UnexpectedHook
    | VmallocRegion

  function ChannelName(c: Channel): string {
    match c
    case BaselineDriftChannel => "baseline_drift"
    case DirectStatus => "direct_status"
    case FtraceOrphan => "ftrace_orphan"
    case OverListedChannel => "over_listed"
    case SocketVisible => "socket_visible"
    case SyscallKill => "syscall_kill"
    case Taint => "taint"
    case UnexpectedHook => "unexpected_hook"
    case VmallocRegion => "vmalloc_region"
  }

  /** The place of a channel in the alphabetical order of the names. */
  function ChannelRank(c: Channel): int {
    match c
    case BaselineDriftChannel => 0
    case DirectStatus => 1
    case FtraceOrphan => 2
    case OverListedChannel => 3
    case SocketVisible => 4
    case SyscallKill => 5
    case Taint => 6
    case UnexpectedHook => 7
    case VmallocRegion => 8
  }

  /** The views a signal is denied by. */
  datatype Dissent = EveryCorroboratingChannel | ProcfsReaddir | ModulesListing | SignedBaseline

  function DissentName(d: Dissent): string {
    match d
    case EveryCorroboratingChannel => "every corroborating channel"
    case ProcfsReaddir => "procfs readdir (all passes)"
    case ModulesListing => "procfs.modules listing"
    case SignedBaseline => "signed baseline"
  }

  function DissentRank(d: Dissent): int {
    match d
    case EveryCorroboratingChannel => 0
    case ProcfsReaddir => 1
    case ModulesListing => 2
    case SignedBaseline => 3
  }

  datatype SuspectKind = ModuleSuspect | ProcessSuspect

  /** What a signal is about; no name for a hidden-module indicator that cannot name the module. */
  datatype Suspect = Suspect(kind: SuspectKind, name: Option<Text>)

  /** The suspect of signals that cannot name their module. */
  const ANONYMOUS := Suspect(ModuleSuspect, None)

  /** The evidence dictionaries, one constructor per shape the detectors build. */
  datatype Evidence =
    | TaintEvidence(taint: int, bits: seq<int>, explainedBy: map<int, seq<Text>>)
    | RegionEvidence(regions: int, listed: int, unaccounted: int)
    | FtraceEvidence(ftraceModule: Text)
    | HookEvidence(function_: Text, hookType: Text, callback: Option<Text>, ownerModule: Text)
    | ProcessEvidence(tgid: int, comm: Option<Text>, inPasses: seq<Text>)
    | SocketEvidence(inode: int, local: Option<Text>, remote: Option<Text>, state: Option<Text>)
    | OverListedEvidence
    | DriftEvidence

  datatype Signal = Signal(channel: Channel, suspect: Suspect, dissent: Dissent, evidence: Evidence)

  datatype FindingKind =
    | HiddenProcess
    | HiddenModule
    | SuspectedHiddenModule
    | BaselineDrift
    | OverListedModule

  datatype Confidence = Low | Medium | High

  /** candidates is the extra evidence entry of an ambiguous finding; empty when there is none. */
  datatype Finding = Finding(
    kind: FindingKind, subject: Text, confidence: Confidence, channels: seq<Channel>,
    dissent: seq<Dissent>, evidence: map<Channel, seq<Evidence>>, candidates: seq<Text>,
    summary: Text)

  /** Why a channel did not contribute; the detail dictionary depends on the reason. */
  datatype ChannelNote = ChannelNote(channel: Text, reason: Text, detail: map<Text, Snapshots.Json>)

  // ---------------------------------------------------------------------------------------------
  // Sort keys

  function ChannelKey(c: Channel): seq<int> { [ChannelRank(c)] }

  function DissentKey(d: Dissent): seq<int> { [DissentRank(d)] }

  function TextKey(t: Text): seq<int> { t }

  function IntKey(n: int): seq<int> { [n] }

  function SignalChannelKey(s: Signal): seq<int> { ChannelKey(s.channel) }

  function SubjectKey(f: Finding): seq<int> { f.subject }

  function SortedChannels(s: set<Channel>): (r: seq<Channel>)
    ensures forall c :: c in r <==> c in s
    ensures StrictlyAscending(r, ChannelKey)
  {
    SortedSet(s, ChannelKey)
  }

  function SortedDissents(s: set<Dissent>): (r: seq<Dissent>)
    ensures forall d :: d in r <==> d in s
    ensures StrictlyAscending(r, DissentKey)
  {
    SortedSet(s, DissentKey)
  }

  function SortedTexts(s: set<Text>): (r: seq<Text>)
    ensures forall t :: t in r <==> t in s
    ensures StrictlyAscending(r, TextKey)
  {
    SortedSet(s, TextKey)
  }

  function SortedInts(s: set<int>): (r: seq<int>)
    ensures forall n :: n in r <==> n in s
    ensures StrictlyAscending(r, IntKey)
  {
    SortedSet(s, IntKey)
  }

  /** A set of numbers that is not empty has a member, its least for one. */
  lemma HasLeast(s: set<int>)
    ensures s != {} ==> SortedInts(s) != [] && SortedInts(s)[0] in s
  {
    assert SortedInts(s) == [] ==> s == {};
    assert SortedInts(s) != [] ==> SortedInts(s)[0] in SortedInts(s);
  }

  // ---------------------------------------------------------------------------------------------
  // The ranks are the alphabetical order of the names

  lemma {:induction false} FirstDifference(a: Text, b: Text, k: nat)
    requires k < |a| && k < |b|
    requires forall i :: 0 <= i < k ==> a[i] == b[i]
    requires a[k] < b[k]
    ensures LexLt(a, b)
  {
    if k > 0 {
      FirstDifference(a[1..], b[1..], k - 1);
    }
  }

  /** Sorting channels by rank is sorting them by name. */
  lemma ChannelsAreAlphabetical(a: Channel, b: Channel)
    requires ChannelRank(a) < ChannelRank(b)
    ensures LexLt(Lit(ChannelName(a)), Lit(ChannelName(b)))
  {
    var s, t := Lit(ChannelName(a)), Lit(ChannelName(b));
    if a == SocketVisible && b == SyscallKill {
      FirstDifference(s, t, 1);
    } else {
      FirstDifference(s, t, 0);
    }
  }

  lemma DissentsAreAlphabetical(a: Dissent, b: Dissent)
    requires DissentRank(a) < DissentRank(b)
    ensures LexLt(Lit(DissentName(a)), Lit(DissentName(b)))
  {
    var s, t := Lit(DissentName(a)), Lit(DissentName(b));
    if a == ProcfsReaddir && b == ModulesListing {
      FirstDifference(s, t, 6);
    } else {
      FirstDifference(s, t, 0);
    }
  }
}
