# kdetect in Dafny

kdetect captures several views of a Linux host (a readdir of /proc, a kill sweep, module and hook
listings, socket tables), compares them, and reports processes and modules that one view has and
another lacks. This project models the parts of it that do not touch the operating system and proves
what they promise:

- the layer that shows untrusted strings in a Markdown report (`escape.dfy`, `documents.dfy`,
  `report.dfy`, `report_laws.dfy`), read back by scanners written from CommonMark 0.31.2, sections 6.1
  (code spans) and 4.5 (fenced code blocks) (`commonmark.dfy`);
- the pipeline from a snapshot to signals, findings, indicators and notes (`signals.dfy`,
  `scoring.dfy`, `scoring_laws.dfy`, `pipeline.dfy`, `iocs.dfy`, `iocs_processes.dfy`, `notes.dfy`);
- snapshots in JSON, the round trip through it, and redaction (`records.dfy`, `entity_json.dfy`,
  `snapshot_json.dfy`, `redact.dfy`, `redact_laws.dfy`, `redact_reports.dfy`);
- the collectors and parsers with state or a round trip (`parsers_*.dfy`, `collectors_*.dfy`), and how
  a capture wires them together (`capture.dfy`).

`text.dfy`, `strings.dfy` and `sorting.dfy` hold Python's strings, string methods and `sorted`;
`snapshot.dfy` and `findings.dfy` hold the data types. `dafny verify dfyconfig.toml` checks everything.

The analysis raises `KeyError` on an id that has no entity, and only on one that a detector looks up:
`Signals.Indexable` is the exact condition (`Pipeline.AnalyzeSnapshot`), every capture is proved to meet
it (`Capture.CaptureIndexable`), and redaction does not change it.

Code that updates variables in a loop is a method proved equal to a function; what the program promises
is then proved about that function. Objects that are updated in place are classes: the two collectors,
and the entity dictionaries that redaction overwrites.

Three places where the code does something its documentation does not say:

- `KernelHookParseError` is the module's error for a hook file it cannot parse, and
  `parse_enabled_functions` documents the shape "name (count) [flags] [tramp: ...]"; yet a line without
  an arrow that has "tramp:" and a "(", but no "(" after "tramp:", raises a bare `ValueError`.
  `KernelHooksParser.RaisesExactly` gives the condition for every line and
  `KernelHooksParser.RaisesOnAShortTrampoline` a line that meets it.
- Loading ignores the entities of a `kernel.module_evidence` observation and redaction walks them, so a
  snapshot can load and then make `redact_snapshot` raise. `RedactionLoads.RaisesExactly` gives the
  condition for every snapshot and `RedactionLoads.RaisesOnIgnoredEntities` such observations.
- A code span of spaces only keeps its padding for a reader, because section 6.1 strips no spaces from
  it: `Escape.ScanCode` states what is read in both cases.

## Model

| member | source | states |
|---|---|---|
| `ReportLaws.ReportContainment` | `src/kdetect/reporting/report.py:131-183` | Whole-document containment: a fence scan of the report's text finds one fenced block per finding with a body, in ranked order, each holding exactly the shown summary and evidence lines; no other line opens a block and the scan ends outside one. For all snapshots, findings, indicators, notes and baseline names. |
| `ReportLaws.ReportSpans` | `src/kdetect/reporting/report.py:91-183` | Any stretch of the report between blocks, read as one paragraph, shows every value in a code span of its own, and no span reaches from one line into another. |
| `ReportLaws.DocumentSafe` | `src/kdetect/reporting/report.py:131-183` | Every line the renderer prints outside a block keeps values apart and starts in a way that opens no fence, even behind a list marker. |
| `ReportLaws.RankedOrder` | `src/kdetect/reporting/report.py:32-33` | Findings are shown by confidence, highest first, then by subject; none is added or lost. |
| `Report.BuildMarkdown` | `src/kdetect/reporting/report.py:131-183` | The renderer, which appends the findings, the indicators and the notes to the header line by line, builds exactly the document that the containment results are about. |
| `Report.BuildFindings` | `src/kdetect/reporting/report.py:156-166` | The loop over the ranked findings builds their elements in order. |
| `Report.BuildFinding` | `src/kdetect/reporting/report.py:157-166` | One finding: heading, the lines for agreeing and dissenting channels when there are any, the block when it has lines, an empty line. |
| `Report.BuildIocs` | `src/kdetect/reporting/report.py:167-172` | The loop over the indicators under their heading, or the word None. |
| `Report.BuildNotes` | `src/kdetect/reporting/report.py:177` | The loop over the notes appends the lines of each. |
| `Report.BuildCoverage` | `src/kdetect/reporting/report.py:177-182` | The notes get a heading exactly when there are lines to print under it. |
| `Report.RenderEvidence` | `src/kdetect/reporting/report.py:72-88` | The evidence lines of a finding, by kind: first non-empty comm over both process channels and one line per socket, or one line per channel in key order. |
| `Report.RenderSockets` | `src/kdetect/reporting/report.py:81-83` | One socket line per piece of socket evidence, in order. |
| `Report.FindComm` | `src/kdetect/reporting/report.py:76-79` | The loop over both channels keeps the comm that the next row describes, or nothing. |
| `Report.FirstCommIsFirst` | `src/kdetect/reporting/report.py:76-79` | It is the comm of the first evidence that has a non-empty one, and empty iff none has. |
| `Report.CandidatesInOrder` | `src/kdetect/reporting/report.py:84-87` | Sorting the evidence keys puts `candidates` after `baseline_drift` and before every other channel. |
| `Report.KindsAreAlphabetical` | `src/kdetect/reporting/report.py:47` | The order used for finding kinds is the order of their names. |
| `Escape.MakePrintable` | `src/kdetect/reporting/escape.py:22-38` | The character loop of `printable` builds the escape code of the string. |
| `Escape.PrintableLossless` | `src/kdetect/reporting/escape.py:15-38` | A decoder gives back every string from its shown form, whatever the invisible categories are (as long as they leave printable ASCII alone). |
| `Escape.PrintableInjective` | `src/kdetect/reporting/escape.py:22-38` | Two different strings are never shown alike. |
| `Escape.PrintableDistributes` | `src/kdetect/reporting/escape.py:22-38` | `printable` distributes over concatenation. |
| `Escape.PrintableShown` | `src/kdetect/reporting/escape.py:10-38` | Nothing invisible is left in the output, and only the empty string is shown as nothing. |
| `Escape.PadHexExact` | `src/kdetect/reporting/escape.py:30-34` | The 2, 4 and 8 digit widths hold every number they are used for, exactly and without loss. |
| `Escape.MeasureLongestRun` | `src/kdetect/reporting/escape.py:41-46` | The one-pass count is the length of a run that occurs, and no run is longer. |
| `Escape.ScanCode` | `src/kdetect/reporting/escape.py:49-62` | A code-span scan of `md_code(s)` before any text that does not start with a backtick reads one span holding the shown value (with its padding when it is all spaces) and continues after it. |
| `Escape.MdCodeInjective` | `src/kdetect/reporting/escape.py:49-62` | `md_code` tells all values apart, the empty one included. |
| `Escape.ScanFormatted` | `src/kdetect/reporting/escape.py:49-62` | A line of literals alternating with `md_code` values is read back as exactly those spans. |
| `Documents.CodeOpensNothing` | `src/kdetect/reporting/escape.py:49-62` | A value at the start of a line opens no fence, however many backticks it holds. |
| `Escape.ScanMdBlock` | `src/kdetect/reporting/escape.py:65-70` | A fence scan of `md_block(lines)` reads one block whose body is the shown lines, and continues after it as if it were not there. |
| `Escape.MdBlockOneLine` | `src/kdetect/reporting/escape.py:65-70` | No line of a block contains a line ending. |
| `Documents.ScanRendered` | `src/kdetect/reporting/escape.py:65-70` | Lines and blocks mixed in any order are read back as exactly the blocks. |
| `Documents.ScanText` | `src/kdetect/reporting/report.py:183` | The same for the text joined by newlines. |
| `Documents.ScanParagraph` | `src/kdetect/reporting/escape.py:49-62` | Lines joined into one paragraph still show every value in its own span. |
| `Pipeline.ProcessVerdict` | `src/kdetect/analysis/signals.py:93-161` | With H the unlisted thread groups of readable swept tasks and S the unlisted owners of in-table sockets: pid t has a finding iff t is in H or S, only one, HIGH in both, MEDIUM in H alone, LOW in S alone, however many threads or sockets it has. |
| `Pipeline.ProcessFindings` | `src/kdetect/analysis/signals.py:93-161` | Every hidden-process finding is about a member of H or S. |
| `Pipeline.ListingDichotomy` | `src/kdetect/analysis/scoring.py:31-60` | A module finding is HIDDEN_MODULE iff its name is outside the listing, OVER_LISTED or BASELINE_DRIFT iff inside, OVER_LISTED iff no channel corroborates it; inside the listing there is no hiding channel and no HIGH, outside only hiding channels, anonymous signals included. |
| `Pipeline.ModuleFindings` | `src/kdetect/analysis/signals.py:43-90` | A module has a finding iff it is unlisted, over-listed or new since the baseline, and only one. |
| `Pipeline.AnalyzeSnapshot` | `src/kdetect/analysis/scoring.py:117-118` | Detectors in order, then the scorer, give the analysis that the results above are about; it raises KeyError iff some id that a detector looks up has no entity. |
| `Signals.AllSignalsFire` | `src/kdetect/analysis/signals.py:235-241` | Loops, reported sets, sorting and concatenation together report exactly the (channel, suspect) pairs of seven sets. |
| `Signals.SignalsProcesses` | `src/kdetect/analysis/signals.py:93-122` | The sweep loop with its reported set gives two signals per unlisted thread group, at its first readable task; it raises iff there is a readdir pass and a swept id without an entity. |
| `Signals.ProcessesFire` | `src/kdetect/analysis/signals.py:93-122` | It reports exactly H, on both channels. |
| `Signals.SignalsSockets` | `src/kdetect/analysis/signals.py:125-161` | The nested loops over sockets and owners, sorted, give one signal per socket and unlisted owner; it raises iff there is a socket view and a swept id or a socket key without an entity. |
| `Signals.BuildFold` | `src/kdetect/analysis/signals.py:139-144` | The loop builds the tid to tgid map of the sweep, and raises iff a swept id has no entity. |
| `Signals.OwnersOf` | `src/kdetect/analysis/signals.py:146-157` | One signal per unlisted thread group of one socket, at its first owner. |
| `Signals.SocketsFire` | `src/kdetect/analysis/signals.py:125-161` | It reports exactly S. |
| `Signals.SignalsModules` | `src/kdetect/analysis/signals.py:43-71` | Taint, region and ftrace signals in order. |
| `Signals.ModulesFire` | `src/kdetect/analysis/signals.py:43-71` | Which anonymous and named module signals appear. |
| `Signals.SignalsHooks` | `src/kdetect/analysis/signals.py:74-90` | The loop over hooks, sorted by owner and function; it raises iff a hook key has no entity. |
| `Signals.HooksFire` | `src/kdetect/analysis/signals.py:74-90` | It reports exactly the named owners outside the listing. |
| `Signals.ReconcileTaint` | `src/kdetect/analysis/taint.py:50-68` | The loop over the bit table computes which set bits no marker explains, and the sorted owners of the others. |
| `Notes.TaintNoteExactly` | `src/kdetect/analysis/signals.py:257-265` | The taint note appears iff a reconcilable bit is set and every set one has a listed owner; the anonymous taint signal is then silent. |
| `Notes.SilenceExplained` | `src/kdetect/analysis/signals.py:266-272` | When the over_listed channel could be consulted and says nothing, the note is absent iff every listed name is corroborated and present iff none is. |
| `Notes.NoteSilencesOverListed` | `src/kdetect/analysis/signals.py:196-223` | A note about over_listed and an over_listed signal never come together. |
| `Findings.ChannelsAreAlphabetical` | `src/kdetect/analysis/scoring.py:64-65` | The order used for channels is the order of their names. |
| `Findings.DissentsAreAlphabetical` | `src/kdetect/analysis/scoring.py:66` | The order used for dissents is the order of their names. |
| `ScoringLaws.Conservation` | `src/kdetect/analysis/scoring.py:63-114` | Every signal's evidence is filed once, under its channel, in one finding: as multisets, what the findings hold is what was put in. |
| `ScoringLaws.Attribution` | `src/kdetect/analysis/scoring.py:79-114` | Anonymous signals go together: to the end of the lists of the one module hidden by name, or to the unattributed finding, which names all candidates, sorted, when there are two or more. |
| `ScoringLaws.OrderIndependence` | `src/kdetect/analysis/scoring.py:63-114` | Permuting the signals changes no kind, subject, confidence, channel list, dissent list, candidate or summary, and only permutes evidence within a channel. |
| `ScoringLaws.MonotoneCorroboration` | `src/kdetect/analysis/scoring.py:79-114` | One more signal never takes a channel from a named suspect nor lowers its confidence, except when it makes a second module hidden by name: the first then loses exactly the channels only anonymous signals gave it. |
| `ScoringLaws.AttributionKept` | `src/kdetect/analysis/scoring.py:88-95` | Exactly which signals displace the attribution target. |
| `ScoringLaws.DisplacedEvidenceReappears` | `src/kdetect/analysis/scoring.py:101-113` | What the displaced module loses reappears whole in the unattributed finding, which names both modules. |
| `ScoringLaws.ComposeFiles` | `src/kdetect/analysis/scoring.py:63-72` | One finding files exactly the evidence of its own signals. |
| `Scoring.ScoreSignals` | `src/kdetect/analysis/scoring.py:75-114` | Grouping, attribution, composition and sorting in sequence give the score function. |
| `Scoring.GroupSignals` | `src/kdetect/analysis/scoring.py:79-81` | The dictionary of lists holds, for each named suspect, its signals in order. |
| `Scoring.Attribute` | `src/kdetect/analysis/scoring.py:83-95` | The single candidate takes the anonymous signals; the groups and the leftover are as specified. |
| `Scoring.ComposeAll` | `src/kdetect/analysis/scoring.py:97-100` | One finding per suspect, in the given order. |
| `Scoring.ComposeFinding` | `src/kdetect/analysis/scoring.py:63-72` | Composition of one group. |
| `Scoring.CollectEvidence` | `src/kdetect/analysis/scoring.py:67-69` | The setdefault loop files evidence per channel, in order. |
| `Scoring.ScoreAscends` | `src/kdetect/analysis/scoring.py:97-114` | Findings come in strictly ascending subject order, so no subject has two; the final sort moves nothing. |
| `Scoring.ScoreMembers` | `src/kdetect/analysis/scoring.py:75-114` | The findings are one per named suspect, plus the unattributed one iff anonymous signals are left over. |
| `Scoring.SubjectInjective` | `src/kdetect/analysis/scoring.py:31-60` | A subject identifies its suspect. |
| `Iocs.ExtractIocs` | `src/kdetect/reporting/iocs.py:42-84` | The nested loops with the shared first-wins dictionary, then the sort, give the extraction function. |
| `Iocs.AddFinding` | `src/kdetect/reporting/iocs.py:49-82` | What one finding adds to the shared dictionary. |
| `Iocs.ExtractedAreFirstOffers` | `src/kdetect/reporting/iocs.py:42-84` | The indicators are strictly ascending in (type, value), and each has the confidence and source of the first finding that offers it. |
| `Iocs.ExtractedKeys` | `src/kdetect/reporting/iocs.py:42-84` | A (type, value) is reported iff some finding offers it. |
| `Iocs.NoPlaceholderEndpoint` | `src/kdetect/reporting/iocs.py:27-29` | No reported endpoint has port 0. |
| `Iocs.ModuleIocs` | `src/kdetect/reporting/iocs.py:52-54` | The kernel_module values of an analysed snapshot are exactly the non-empty names among ftrace tags and hook owners that are outside the listing. |
| `Iocs.FunctionIocs` | `src/kdetect/reporting/iocs.py:55-58` | The hooked_function values are exactly the non-empty functions of hooks owned by such modules. |
| `ProcessIocs.EndpointIocs` | `src/kdetect/reporting/iocs.py:64-82` | The network_endpoint values of an analysed snapshot are exactly the ends worth sharing of the in-table sockets an unlisted thread group holds: the remote one in a peer state, the local one of a listener, either otherwise, never a placeholder. |
| `ProcessIocs.NameIocs` | `src/kdetect/reporting/iocs.py:59-63` | The process_name values are exactly the non-empty comms of the first readable task of each hidden thread group. |
| `ProcessIocs.ProcessSignalsOf` | `src/kdetect/analysis/signals.py:104-121` | Each process signal, evidence included, comes from the first readable task of a hidden thread group, and each such task gives its pair. |
| `ProcessIocs.SocketSignalsOf` | `src/kdetect/analysis/signals.py:145-161` | Each socket signal, evidence included, comes from an in-table socket and an unlisted thread group that holds it, and each such pair gives one. |
| `Iocs.TypesAreAlphabetical` | `src/kdetect/reporting/iocs.py:84` | The order used for indicator types is the order of their names. |
| `SnapshotJson.SnapshotRoundTrip` | `src/kdetect/models.py:468-488` | from_dict(to_dict(s)) is s with id lists, partial lists and owners sorted when the schema major is ours, and is refused otherwise; no entity is lost to the conversion of keys. |
| `SnapshotJson.ToDictFixpoint` | `src/kdetect/models.py:350-367` | After one trip to_dict gives the same dictionary again. |
| `SnapshotJson.NormalTwice` | `src/kdetect/models.py:350-391` | What one trip leaves, a second trip leaves as it is. |
| `SnapshotJson.ObservationRoundTrip` | `src/kdetect/models.py:350-391` | One observation, with its optional keys and the entity type its collector stores. |
| `SnapshotJson.EntitiesRoundTrip` | `src/kdetect/models.py:369-377` | Ids and entities of each collector, under numeric or string keys as the collector uses. |
| `SnapshotJson.DispatchInverts` | `src/kdetect/models.py:305-316` | The collector's name finds the entity type the collector stores. |
| `SnapshotJson.VersionRoundTrip` | `src/kdetect/models.py:32-69` | A printed MAJOR.MINOR is read back, so exactly our major number is compatible. |
| `SnapshotJson.ErrorsRoundTrip` | `src/kdetect/models.py:105-123` | Collection errors come back as they were. |
| `SnapshotJson.HostRoundTrip` | `src/kdetect/models.py:394-434` | Host facts come back as they were. |
| `SnapshotJson.CaptureRoundTrip` | `src/kdetect/models.py:437-454` | Capture metadata comes back as it was. |
| `Records.ByIdRoundTrip` | `src/kdetect/models.py:359-377` | Writing entities under decimal keys and reading the keys as numbers loses and moves none. |
| `Records.ByNameRoundTrip` | `src/kdetect/models.py:359-377` | The same for string keys. |
| `EntityJson.ProcessRoundTrip` | `src/kdetect/models.py:151-182` | A process whose values have their fields' types comes back with its partial list sorted. |
| `EntityJson.SweepRoundTrip` | `src/kdetect/models.py:185-205` | A swept task comes back as it was. |
| `EntityJson.ModuleRoundTrip` | `src/kdetect/models.py:208-238` | A module comes back as it was. |
| `EntityJson.HookRoundTrip` | `src/kdetect/models.py:241-267` | A hook comes back as it was. |
| `EntityJson.SocketRoundTrip` | `src/kdetect/models.py:270-300` | A socket comes back with its owners sorted. |
| `RedactionReports.RedactionKeepsConclusions` | `src/kdetect/reporting/redact.py:5-20` | On a raw snapshot that loads, whatever its processes hold, redaction leaves the loaded snapshot as it was but for command lines, and analysis, channel notes and report text are the same before and after, with any baseline, redacted or not; one analysis raises iff the other does. |
| `RedactionLoads.RedactionCommutesWithLoading` | `src/kdetect/reporting/redact.py:14-20` | Loading the redacted snapshot gives the loaded one with only its command lines replaced. |
| `Redaction.RedactionForgetsExactly` | `src/kdetect/reporting/redact.py:14-20` | Two raw snapshots are redacted to the same value iff they differ in nothing but values under `cmdline`. |
| `Redaction.RedactionIdempotent` | `src/kdetect/reporting/redact.py:14-20` | Redacting twice is redacting once, and only `cmdline` values change. |
| `Redaction.RedactInPlace` | `src/kdetect/reporting/redact.py:14-20` | The nested loops overwrite the shared dictionaries so that the snapshot they hold becomes its redaction, aliasing included. |
| `Redaction.RedactLoops` | `src/kdetect/reporting/redact.py:16-19` | Every dictionary reached has its command line replaced and nothing else. |
| `Redaction.RedactEntities` | `src/kdetect/reporting/redact.py:17-19` | The same for the entities of one observation. |
| `RedactionLoads.RaisesExactly` | `src/kdetect/reporting/redact.py:16-17` | On a snapshot that loads, redaction raises iff some evidence observation has entities that are not an object. |
| `RedactionLoads.RaisesOnIgnoredEntities` | `src/kdetect/reporting/redact.py:16-17` | Any evidence observation with its entities set to null loads as before and cannot be redacted. |
| `RedactionReports.SignalsRedacted` | `src/kdetect/analysis/signals.py:235-241` | Redacting the snapshot, the baseline or both changes no signal, nor whether the analysis raises. |
| `RedactionReports.NotesRedacted` | `src/kdetect/analysis/signals.py:244-273` | Redaction changes no channel note. |
| `ProcfsCollector.ProcfsProcessCollector.Collect` | `src/kdetect/collectors/procfs.py:53-144` | The collection loop over any source ends in the specified observation. |
| `ProcfsCollector.ProcfsProcessCollector.Visit` | `src/kdetect/collectors/procfs.py:75-132` | One process has vanished, or exists and cannot be described, or has an entity; what is recorded for each. |
| `ProcfsCollector.ProcfsProcessCollector.Describe` | `src/kdetect/collectors/procfs.py:93-132` | The three optional reads in turn give the entity, its degradation and its errors. |
| `ProcfsCollector.Optional` | `src/kdetect/collectors/procfs.py:146-167` | A vanished attribute is absent, a failed one is named and recorded. |
| `ProcfsCollector.CollectorAccounting` | `src/kdetect/collectors/procfs.py:53-144` | Over a unique pid list: entity_ids is the sorted list of pids that had not vanished, entity keys are among them, scanned = len(entity_ids) + vanished, and len(errors) = vanished + undescribed + the lengths of the partial lists. |
| `ProcfsCollector.StatusByErrors` | `src/kdetect/collectors/procfs.py:53-167` | PARTIAL iff some error is not a vanished process; FAILED iff the pids could not be listed. |
| `ProcfsCollector.PartialIsExact` | `src/kdetect/collectors/procfs.py:93-132` | An entity's partial list is sorted and holds exactly its fields that exist and could not be read. |
| `SocketCollectors.SocketCollector.Collect` | `src/kdetect/collectors/sockets.py:41-80` | Reading tables, walking fds and rewriting entities end in the specified sockets, status OK, no errors, and the counts of tables read, sockets and pids walked, unless a table does not parse. |
| `SocketCollectors.SocketCollector.WalkPids` | `src/kdetect/collectors/sockets.py:59-64` | Walking the pids in any order builds, for each table key, the set of pids that hold it. |
| `SocketCollectors.OwnersExact` | `src/kdetect/collectors/sockets.py:55-70` | owner_pids of an in-table socket is exactly the sorted set of walked pids whose fds hold it. |
| `SocketCollectors.CollectSweep` | `src/kdetect/collectors/syscall_sweep.py:21-45` | The sweep records, for each task id, its status when readable and itself as thread group when not, and counts the answers. |
| `Capture.CaptureSnapshot` | `src/kdetect/cli.py:70-91` | The capture runs pass A, sweep, pass B, then sockets over the pids of pass A and the sweep. |
| `Capture.CaptureIndexable` | `src/kdetect/cli.py:70-91` | What a capture records can be analysed without a missing entity. |
| `Capture.CaptureSound` | `src/kdetect/cli.py:80-81` | Every process finding of a capture is about the thread group of a swept task; a LOW one only about a swept, unlisted id whose own status was unreadable. |
| `Capture.NoLowWhenReadable` | `src/kdetect/collectors/syscall_sweep.py:26-35` | When every swept status could be read there is no LOW process finding. |
| `Capture.SocketTgidsWereSwept` | `src/kdetect/analysis/signals.py:135-160` | Every socket suspect is the thread group of a swept task. |
| `Capture.UnconfirmedIsUnreadable` | `src/kdetect/analysis/signals.py:135-160` | A socket suspect the sweep does not confirm is a swept, unlisted id with an unreadable status. |
| `ProcfsParsers.StatRoundTrip` | `src/kdetect/parsers/procfs.py:69-109` | A printed stat line is read back exactly for every pid, comm, state and list of at least 19 integers after the state, with or without trailing whitespace. |
| `ProcfsParsers.CutAtComm` | `src/kdetect/parsers/procfs.py:78-90` | The cut is at the parentheses around the comm, not at any inside it. |
| `ProcfsParsers.CmdlineRoundTrip` | `src/kdetect/parsers/procfs.py:25-32` | NUL-terminated arguments are read back, except empty ones. |
| `ProcfsParsers.ReadStatus` | `src/kdetect/parsers/procfs.py:34-67` | The line loop with four variables gives the fields that the lines spell, or nothing when one is malformed or missing. |
| `ProcfsParsers.StatusRoundTrip` | `src/kdetect/parsers/procfs.py:47-60` | The text of a status file is read back: each field is that of the last line with its key, whatever whitespace stands around its numbers and whatever other lines there are; without a Uid, Gid or Tgid line it is refused. |
| `ProcfsParsers.NameKept` | `src/kdetect/parsers/procfs.py:59-60` | A name that neither starts nor ends with whitespace is read back from behind the tab. |
| `ProcfsParsers.BadStays` | `src/kdetect/parsers/procfs.py:61-62` | A malformed value makes the whole file unparseable whatever follows. |
| `KernelHooksParser.ParseEnabledFunctions` | `src/kdetect/parsers/kernel_hooks.py:56-92` | One pass with three variables and a flush gives the rows of the two-pass grouping: blocks cut at column-0 lines, first callback and, independently, first module of each. |
| `KernelHooksParser.ParseLines` | `src/kdetect/parsers/kernel_hooks.py:77-92` | The same on non-blank lines, with the raising lines. |
| `KernelHooksParser.RowPerHead` | `src/kdetect/parsers/kernel_hooks.py:56-92` | There is one row per column-0 line. |
| `KernelHooksParser.HookLineRoundTrip` | `src/kdetect/parsers/kernel_hooks.py:25-53` | In the single-line format the callback and the module after the last arrow are read back, whatever precedes it. |
| `KernelHooksParser.RaisesExactly` | `src/kdetect/parsers/kernel_hooks.py:46-48` | A line raises ValueError iff it has no arrow, has "tramp:", has a "(" and has none after "tramp:". |
| `KernelHooksParser.RaisesOnAShortTrampoline` | `src/kdetect/parsers/kernel_hooks.py:46-48` | Such a line. |
| `KallsymsParser.ReduceKallsyms` | `src/kdetect/parsers/kernel_hooks.py:112-127` | The loop builds the map of the last module per symbol. |
| `KallsymsParser.TableRoundTrip` | `src/kdetect/parsers/kernel_hooks.py:112-127` | The text of a printed symbol table gives a map that sends each module symbol to the last module that has it, and holds no other name. |
| `KallsymsParser.SymbolRoundTrip` | `src/kdetect/parsers/kernel_hooks.py:120-126` | One printed symbol is read back; core symbols give nothing. |
| `SocketsParser.DecodeInvertsV4` | `src/kdetect/parsers/sockets.py:39-53` | Decoding inverts the kernel's print format of an IPv4 address and port. |
| `SocketsParser.DecodeInvertsV6` | `src/kdetect/parsers/sockets.py:39-53` | Decoding recovers all sixteen bytes of an IPv6 address. |
| `SocketsParser.SwapTwice` | `src/kdetect/parsers/sockets.py:48-49` | The byte reversal of each word is an involution. |
| `SocketsParser.DecodeInjective` | `src/kdetect/parsers/sockets.py:39-53` | Fields of either address family that decode alike hold the same address and port. |
| `SocketsParser.ParseNetTable` | `src/kdetect/parsers/sockets.py:56-74` | The row loop gives the rows of the table, or nothing when one is bad. |
| `SocketsParser.TableRoundTrip` | `src/kdetect/parsers/sockets.py:56-74` | The text of a printed table, header and all and however the columns are padded, is read back row by row: inode, state, both endpoints the right way round, uid. |
| `SocketsParser.RowRoundTrip` | `src/kdetect/parsers/sockets.py:60-71` | One printed row, however padded, is read back. |
| `SocketsParser.BadTableStays` | `src/kdetect/parsers/sockets.py:63-73` | A bad row makes the table unparseable whatever follows. |

## Left out

- Unicode categories are a predicate that is false on printable ASCII; the tables themselves are not part of this model.
- Python's `repr` of evidence and `str` of a JSON value other than a string or an integer are parameters: any text.
- The channel, dissent, finding-kind and indicator-type strings are enumerations; their sort order is proved to be that of the names.
- Evidence dictionaries are a datatype with one constructor per kind of evidence.
- The JSON key names are a parameter: any naming that gives each field of the schema a key of its own.
- A JSON value of another type than its field's is kept in a process, where nothing reads it, and rejected on loading anywhere else; the program keeps most such values unchecked. JSON numbers are integers.
- RedactionReports.RedactionKeepsConclusions: excludes a raw snapshot with a value of another JSON type outside a process, which the program would load and may then fail on.
- RedactionLoads.RedactionCommutesWithLoading: the same.
- RedactionLoads.RaisesExactly: the same.
- SnapshotJson.SnapshotRoundTrip: is about snapshots whose processes hold values of their fields' types; what `to_dict` makes of others is not modelled.
- Two integer keys that spell the same number, such as "1" and "01", are rejected on loading; the program lets the later one win.
- The warning printed for a newer minor schema version, and `to_json` text.
- Python's `int()` on underscores and non-ASCII digits, and hexadecimal signs and prefixes in an address field.
- `inet_ntop` on sixteen bytes is a parameter, injective where that is needed.
- Sources are functions, so each attribute of a process is read once and does not change during one collection.
- All durations are parameters, the sweep's own among them.
- CommonMark beyond code spans, fenced blocks and one list marker: emphasis, links, HTML and deeper nesting.
- `render_json`, `Finding.to_dict` and the command line's own printing and exit codes.
- Live sources, fixture readers, host facts, clocks and the signed baseline store: a baseline is a given snapshot.
- `parse_kprobes`, `parsers/modules.py` and the module and hook collectors: straight-line parsing whose results are given observations here.
- Redaction.RedactInPlace: assumes that an entity which is a dictionary is one of the shared ones and that the observations can be walked; `RedactionLoads.RaisesExactly` covers the others, where the loops stop part-way.
