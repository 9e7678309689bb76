/** analysis/signals.py: the notes about channels that could not contribute. */
module Notes {
  import opened Text
  import opened Snapshots
  import opened Signals
  import opened Findings
  import opened Records

  const TAINT_CHANNEL: Text := Lit("taint")
  const OVER_LISTED_CHANNEL: Text := Lit("over_listed")
  const SATURATED: Text := Lit("saturated")
  const UNCORROBORATED: Text := Lit("uncorroborated")

  function ConsultedFtrace(): Text { Lit("kernel.module_evidence.ftrace_modules") }

  function ConsultedKallsyms(): Text { Lit("kernel.hooks.kallsyms_modules") }

  /** Every reconcilable set bit is explained, and there is one. */
  predicate Saturated(r: Reconciliation) {
    r.unexplained == [] && r.explainedBy != map[]
  }

  function SaturatedNote(r: Reconciliation): ChannelNote {
    ChannelNote(TAINT_CHANNEL, SATURATED, map[Lit("explained_by") := Object(DumpById(r.explainedBy, FromTexts))])
  }

  function UncorroboratedNote(listed: nat): ChannelNote {
    ChannelNote(OVER_LISTED_CHANNEL, UNCORROBORATED,
                map[Lit("listed") := Int(listed),
                    Lit("channels_consulted") := FromTexts([ConsultedFtrace(), ConsultedKallsyms()])])
  }

  function TaintNotes(s: Snapshot): seq<ChannelNote> {
    match First(s, KernelModuleEvidence)
    case None => []
    case Some(o) =>
      var r := Reconcile(TaintWord(o), ListedMarkers(s));
      if Saturated(r) then [SaturatedNote(r)] else []
  }

  function OverListedNotes(s: Snapshot): seq<ChannelNote> {
    match Corroboration(s)
    case None => []
    case Some((listed, corroborated)) =>
      if listed != {} && listed - corroborated == listed then [UncorroboratedNote(|listed|)] else []
  }

  function ChannelNotes(s: Snapshot): seq<ChannelNote> {
    TaintNotes(s) + OverListedNotes(s)
  }

  // ---------------------------------------------------------------------------------------------
  // What a note says

  /** Bit 12 or bit 13 of the taint word is set, and some listed module's marker has its letter. */
  predicate Explained(s: Snapshot, taint: int, bit: int) {
    BitSet(taint, bit) && BitOwners(ListedMarkers(s), bit) != {}
  }

  /** The taint note appears exactly when some bit is set and each set bit has a listed owner; the
      anonymous taint signal then stays silent. */
  lemma TaintNoteExactly(s: Snapshot)
    requires First(s, KernelModuleEvidence).Some?
    ensures var taint := TaintWord(First(s, KernelModuleEvidence).value);
      TaintNotes(s) != [] <==>
        && (BitSet(taint, 12) || BitSet(taint, 13))
        && (BitSet(taint, 12) ==> Explained(s, taint, 12))
        && (BitSet(taint, 13) ==> Explained(s, taint, 13))
    ensures TaintNotes(s) != [] ==> TaintSignals(s, First(s, KernelModuleEvidence).value) == []
  {
    var taint := TaintWord(First(s, KernelModuleEvidence).value);
    var r := Reconcile(taint, ListedMarkers(s));
    assert 12 in r.explainedBy <==> Explained(s, taint, 12);
    assert 13 in r.explainedBy <==> Explained(s, taint, 13);
    if r.explainedBy == map[] {
      assert 12 !in r.explainedBy && 13 !in r.explainedBy;
    }
  }

  /** When the corroborating channels could be read and nothing is over-listed, the note tells the two
      reasons apart: either every listed name was corroborated, or none was. */
  lemma SilenceExplained(s: Snapshot)
    requires Corroboration(s).Some? && OverListed(s) == {} && ListedModules(s) != {}
    ensures OverListedNotes(s) == [] <==> ListedModules(s) <= Corroboration(s).value.1
    ensures OverListedNotes(s) != [] <==> ListedModules(s) !! Corroboration(s).value.1
  {
    var listed, corroborated := Corroboration(s).value.0, Corroboration(s).value.1;
    assert listed == ListedModules(s);
    var name :| name in listed;
    if listed - corroborated == listed {
      assert name in listed - corroborated;
      assert forall m :: m in listed ==> m in listed - corroborated;
    } else {
      assert listed - corroborated == {};
      assert forall m :: m in listed ==> m !in listed - corroborated;
      assert name in corroborated;
    }
  }

  /** A note about over_listed and an over_listed signal never come together. */
  lemma NoteSilencesOverListed(s: Snapshot)
    ensures OverListedNotes(s) != [] ==> OverListed(s) == {}
  {
  }
}
