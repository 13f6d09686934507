# Verification of the QSP audit node

A Dafny 4.11 model of the protocol logic of the Quantstamp audit node, with proofs.

* **Report codec** (`Bits`, `Versions`, `ReportFormat`, `RoundTrip`, `NormalForm`, `Fixpoints`,
  `ReportLayout`, `ReportEncoder`). The bit format in which audit reports are stored on the chain: a
  16-bit header, a 256-bit hash and records of 24 or 32 bits. `ReportFormat` says what encoder and
  decoder compute; `ReportEncoder` holds the loops, proved equal to it; `ReportLayout` says which bit
  means what; the other modules hold the theorems.
* **Police comparison** (`PoliceCheck`). When a police node accepts an auditor's report.
* **Audit node** (`EventTable`, `Handlers`, `AuditNode`, `NodeInvariant`, `NodeSteps`, `NodeTheorems`,
  `NodeRounds`, `NodeDecisions`, `NodeProgress`, `NodeRuns`, `NodeThreads`). The event table, its SQL
  statements as typed operations, the decision of each thread on one event, and the node as a step
  relation: four threads and a start-up pass select snapshots, work on them, and queue their writes
  for one database worker; writes may fail, threads may die, and the process may restart at any
  point. `NodeInvariant.Inv` is inductive, so the theorems hold in every reachable state.
  `NodeProgress` says what the start-up pass does and when every request ends, `NodeRuns` has the
  concrete runs. `NodeThreads` has the handlers as imperative code over the worker object, proved to
  do what the decision functions say.
* **Database worker** (`SqlWorker`, `NodeOnWorker`). Any number of clients and the worker thread, with
  a log of all that was ever queued; the class `Sqlite3Worker` has one method per atomic step.
  `NodeOnWorker` puts the threads on top of it and proves that every run of the whole is a run of the
  state machine, and that every run of the state machine is realised by one of the whole.
* **Analyzers** (`Analyzers`). Worker threads publishing reports while a collector joins and copies.
* **Latest block query** (`LatestBlock`). The maximum over a column that holds decimal text.
* **Chain loops** (`Transactions`, `BlockFeed`). Nonce retry, confirmation wait, block polling.

A run is any finite list of actions; an action that is not enabled changes nothing, so a statement
about all lists covers every interleaving. Start with `NodeTheorems`, `RoundTrip.CompressThenDecode`,
`Fixpoints.RecompressNormalises`, `NodeProgress.RestartCompletes`, `NodeOnWorker.SystemReachesExactly`,
`SqlWorker.Linearizable` and `Analyzers.VerdictOfRun`.

## Where the code differs from what it says

* "A status is never updated to a lower rank" (`src/qsp_protocol_node/audit/audit.py:38-42`) is false:
  `NodeRuns.RankFalls` is a run, `NodeTheorems.RankFallsIff` the exact condition and the true order.
* "Resubmit only inside the audit window" is false in the general exception branch of the monitor:
  `NodeRuns.ResubmitsLate` is a run, `NodeDecisions.ResubmitsOutsideWindowIff` the exact condition.
* The bound on submission attempts bounds status changes, not transactions sent:
  `NodeTheorems.AtMostSevenChanges`, `NodeRuns.ResendsWithoutProgress`, `NodeRuns.ResendsForever`.
  With live answers and no failed write every request ends: `NodeProgress.CyclesComplete`.
* "An analyzer alive at its join is a timeout" is false in a short gap:
  `Analyzers.LateWorkerBecomesError`, `Analyzers.AliveAtJoin`.
* Compressing what was decoded need not give back the text: `Fixpoints.RecompressCanReorder`,
  `Fixpoints.RecompressFixpoints`.
* "The block number of the latest event" is a maximum over text: `LatestBlock.LatestMissesTen`,
  `LatestBlock.LatestIsLargestIff`.
* When no audit result is produced the code calls `set_evt_to_error`, which the pool manager does not
  have; the model takes the general exception branch, as the code does.

## Model

| member | source | states |
|---|---|---|
| `Bits.BinaryOfValue` | src/qsp_protocol_node/audit/report_processing.py:105-138 | Every bit string is the fixed-width binary text of the number it stands for, and that number fits the width. |
| `Bits.ValueOfBinary` | src/qsp_protocol_node/audit/report_processing.py:105-138 | A number that fits a width is read back from its bits. |
| `Bits.ToHexRoundTrip` | src/qsp_protocol_node/audit/report_processing.py:133-152 | Bits whose number is a positive multiple of four survive the trip through hex text; the text has one upper-case digit for four bits. |
| `Bits.ToHexOfNibbles` | src/qsp_protocol_node/audit/report_processing.py:117-152 | Reading hex digits and printing them again only upper-cases them. |
| `Bits.NibblesIgnoreCase` | src/qsp_protocol_node/audit/report_processing.py:117-131 | Lower-casing a hex string changes neither whether it is accepted nor the bits. |
| `Versions.ParseVersionText` | src/qsp_protocol_node/audit/report_processing.py:159-204 | A printed version string parses to the same three numbers. |
| `Versions.SplitThenJoin` | src/qsp_protocol_node/audit/report_processing.py:159 | Splitting a text at its dots is undone by joining with dots, and no part holds a dot. |
| `ReportLayout.HexDigits` | src/qsp_protocol_node/audit/report_processing.py:117-152 | The sixteen digits: which digit is printed for which number, and that either case is read. |
| `ReportLayout.NibbleValue` | src/qsp_protocol_node/audit/report_processing.py:117-131 | The four bits of a hex digit stand for its value, highest bit first. |
| `ReportLayout.NibblesConcat` | src/qsp_protocol_node/audit/report_processing.py:117-131 | Hex text stands for its digits one after the other. |
| `ReportLayout.HeaderLayout` | src/qsp_protocol_node/audit/report_processing.py:154-185 | Four bits each for major and minor, six for patch, bit 14 set exactly for state 4 and clear for 5, bit 15 set exactly for "success". |
| `ReportLayout.RecordLayout` | src/qsp_protocol_node/audit/report_processing.py:287-316 | Eight bits of type code, a bit set exactly when the lines differ, 15 bits of start line, and 8 of difference only if that bit is set. |
| `ReportLayout.CompressLayout` | src/qsp_protocol_node/audit/report_processing.py:377-416 | The compressed text is header, contract hash and the records of the distinct findings, in this order. |
| `ReportLayout.FindingsIff` | src/qsp_protocol_node/audit/report_processing.py:284-316 | A finding belongs to a report exactly when an instance of one of its vulnerabilities has this type, start line and end line, a missing or zero end line counting as the start line. |
| `ReportLayout.FindingsConcat` | src/qsp_protocol_node/audit/report_processing.py:278-321 | The findings come analyzer by analyzer, in order. |
| `ReportLayout.FindingsOfOneAnalyzer` | src/qsp_protocol_node/audit/report_processing.py:284-316 | The findings of an analyzer with one vulnerability are its instances, in order. |
| `ReportLayout.KeepFirstPrefix` | src/qsp_protocol_node/audit/report_processing.py:318-319 | Of equal findings the first is kept. |
| `ReportLayout.GroupsInOrder` | src/qsp_protocol_node/audit/report_processing.py:235-261 | There is one group for each type, in order of first appearance. |
| `ReportLayout.GroupHolds` | src/qsp_protocol_node/audit/report_processing.py:235-261 | A group holds exactly the findings of its type, in order, numbered from zero. |
| `ReportLayout.DecodedFields` | src/qsp_protocol_node/audit/report_processing.py:418-444 | Field by field, decoding what was compressed gives the same version numbers, state, status, upper-cased hash and the same set of findings. |
| `ReportLayout.ReadRecord` | src/qsp_protocol_node/audit/report_processing.py:323-356 | A record is read exactly when it has 10 bits, a known code and, with the difference bit set, 25 bits; what is read and what is left over are its slices. |
| `ReportLayout.DecodesIff` | src/qsp_protocol_node/audit/report_processing.py:418-444 | A text decodes exactly when it is hex of at least five digits and record after record of what follows the hash can be read. |
| `RoundTrip.EncodeInstanceMeaning` | src/qsp_protocol_node/audit/report_processing.py:287-316 | The branches on one instance (missing or zero end line, equal lines, differences) amount to: raise unless type, start and difference fit, else write the record of the finding. |
| `RoundTrip.DecodeOfRecord` | src/qsp_protocol_node/audit/report_processing.py:323-356 | A 24- or 32-bit record in front of anything decodes to its finding and leaves exactly the rest. |
| `RoundTrip.DecodeOfRecords` | src/qsp_protocol_node/audit/report_processing.py:323-356 | Any list of encodable findings comes back from its records, in order. |
| `RoundTrip.HeaderRoundTrip` | src/qsp_protocol_node/audit/report_processing.py:154-219 | The header is written exactly when the version parts fit 4, 4 and 6 bits and state and status are known values; reading it gives the same values with the version in plain form. |
| `RoundTrip.CompressSucceedsIff` | src/qsp_protocol_node/audit/report_processing.py:377-416 | Compression succeeds exactly on reports whose parts fit the format; the output has 68 hex digits plus 6 for each distinct one-line finding and 8 for each other. |
| `RoundTrip.CompressThenDecode` | src/qsp_protocol_node/audit/report_processing.py:377-444 | Every report that compresses decodes to its canonical form: plain version, same state and status, upper-case hash, distinct findings kept at first occurrence and grouped by type. |
| `NormalForm.ByTypeIsStable` | src/qsp_protocol_node/audit/report_processing.py:235-261 | Grouping keeps, for every type, that type's findings in their order: nothing lost, added or reordered. |
| `NormalForm.ByTypeContiguous` | src/qsp_protocol_node/audit/report_processing.py:235-261 | After grouping every type is one block. |
| `NormalForm.ByTypeFixpoint` | src/qsp_protocol_node/audit/report_processing.py:235-261 | Grouping changes nothing exactly when the types already stand in blocks. |
| `NormalForm.FindingsOfGrouped` | src/qsp_protocol_node/audit/report_processing.py:222-276 | The findings read from the produced groups are the grouped findings. |
| `NormalForm.CanonicalIsIdempotent` | src/qsp_protocol_node/audit/report_processing.py:222-276 | The canonical form of a canonical form is itself. |
| `NormalForm.CanonicalCompresses` | src/qsp_protocol_node/audit/report_processing.py:377-444 | The decoded form of an encoder output compresses again, to a text of the same length. |
| `NormalForm.RecompressIsIdempotent` | src/qsp_protocol_node/audit/report_processing.py:377-444 | On encoder outputs decode-then-compress succeeds, keeps length and decoded report, and doing it twice is doing it once. |
| `Fixpoints.DecodeWholeRecords` | src/qsp_protocol_node/audit/report_processing.py:323-356 | Bits made of whole records decode, and encoding the findings gives the same bits. |
| `Fixpoints.HeaderReencodes` | src/qsp_protocol_node/audit/report_processing.py:154-219 | Every 16-bit header is what encoding its decoded fields writes. |
| `Fixpoints.RecompressFixpoints` | src/qsp_protocol_node/audit/report_processing.py:377-444 | Decode-then-compress gives back a text exactly when it is upper-case hex of at least 68 digits, made of whole records, without duplicates, with types in blocks. |
| `Fixpoints.RecompressOfEncoded` | src/qsp_protocol_node/audit/report_processing.py:377-444 | An encoder output is reproduced exactly when the distinct findings of its report already stand in type blocks. |
| `Fixpoints.RecompressNormalises` | src/qsp_protocol_node/audit/report_processing.py:377-444 | Any text at all re-encodes exactly when it decodes and has 68 digits, and the result is in normal form: truncated last records, zero differences, duplicates and scattered types are gone. |
| `Fixpoints.RecompressCanReorder` | src/qsp_protocol_node/audit/report_processing.py:235-261 | A family of reports with alternating types whose compressed text is not reproduced. |
| `ReportEncoder.InitializeVulnerabilityTypes` | src/qsp_protocol_node/audit/report_processing.py:83-103 | The type list loads exactly when it has at most 256 names; the two tables are inverse, codes are positions, a repeated name keeps its last code. |
| `ReportEncoder.ToBitStringFromHex` | src/qsp_protocol_node/audit/report_processing.py:117-131 | The digit loop yields four bits per digit, or raises on a wrong length or a non-hex character. |
| `ReportEncoder.RecordIsInjective` | src/qsp_protocol_node/audit/report_processing.py:318-319 | Two encodable findings have the same record only when they are equal, so dropping equal records drops equal findings. |
| `ReportEncoder.KeepFirstRecords` | src/qsp_protocol_node/audit/report_processing.py:318-319 | Removing duplicate records is encoding the findings with duplicates removed. |
| `ReportEncoder.EncodeInstances` | src/qsp_protocol_node/audit/report_processing.py:287-316 | The inner loop encodes every instance of one vulnerability, or raises if one does not fit. |
| `ReportEncoder.EncodeAnalyzer` | src/qsp_protocol_node/audit/report_processing.py:284-316 | The middle loop encodes every vulnerability of one analyzer report in order. |
| `ReportEncoder.EncodeVulnerabilities` | src/qsp_protocol_node/audit/report_processing.py:278-321 | The three nested loops and the removal of duplicates write the records of the distinct findings, in order of first occurrence. |
| `ReportEncoder.DecodeVulnerabilities` | src/qsp_protocol_node/audit/report_processing.py:323-356 | The consuming loop computes the recursive decoder, errors on short input included, and terminates. |
| `ReportEncoder.GroupedAppend` | src/qsp_protocol_node/audit/report_processing.py:239-251 | Adding one finding to the groups built so far gives the groups of the longer list. |
| `ReportEncoder.CollectGroups` | src/qsp_protocol_node/audit/report_processing.py:235-251 | The dictionary of lists and the list of names changed in place hold the groups in order of first appearance, numbered from zero. |
| `ReportEncoder.ProduceReport` | src/qsp_protocol_node/audit/report_processing.py:222-276 | The produced report carries the groups under one unknown analyzer. |
| `ReportEncoder.CompressReport` | src/qsp_protocol_node/audit/report_processing.py:377-416 | The imperative encoder computes the function the theorems are about. |
| `ReportEncoder.DecodeReport` | src/qsp_protocol_node/audit/report_processing.py:418-444 | The imperative decoder computes the function the theorems are about. |
| `PoliceCheck.FromUncompressedReport` | src/qsp_protocol_node/audit/vulnerabilities_set.py:11-23 | The nested loops collect exactly the (type, start line) pairs of the instances in the report's own lists. |
| `PoliceCheck.ReportLinesIff` | src/qsp_protocol_node/audit/vulnerabilities_set.py:11-23 | A (type, line) pair is compared exactly when some instance of some vulnerability of some analyzer has that type and that start line. |
| `PoliceCheck.SameHashIff` | src/qsp_protocol_node/audit/threads/submit_report_thread.py:152-161 | Contract hashes agree up to case exactly when they stand for the same bits. |
| `PoliceCheck.CompressionKeepsLines` | src/qsp_protocol_node/audit/report_processing.py:377-444 | Compressing and decoding keeps the set of (type, start line) pairs. |
| `PoliceCheck.SimilarIff` | src/qsp_protocol_node/audit/threads/submit_report_thread.py:175-182 | The quotient test holds exactly when the police set is empty or 5 times the common pairs is at least 3 times the police pairs. |
| `PoliceCheck.AcceptanceIsMonotone` | src/qsp_protocol_node/audit/threads/submit_report_thread.py:163-182 | Finding more of the police pairs never turns an accepted report down. |
| `PoliceCheck.TextAcceptedIff` | src/qsp_protocol_node/audit/threads/submit_report_thread.py:127-182 | Whatever text is on the chain, it is accepted exactly when it decodes, is long enough for its contract hash, agrees with the police hash up to case, and 5 times the common pairs is at least 3 times the police pairs; it raises exactly when the chain holds no report. |
| `PoliceCheck.AcceptedIff` | src/qsp_protocol_node/audit/threads/submit_report_thread.py:127-195 | For a text that an encoder wrote and the chain hands back in lower case this is: the hashes agree up to case and the 3/5 rule holds for the reports themselves. |
| `PoliceCheck.SameReportIsAccepted` | src/qsp_protocol_node/audit/threads/submit_report_thread.py:127-195 | A police node with the same report accepts every report that compresses. |
| `Decimal.ParseIntText` | src/qsp_protocol_node/evt/evt_pool_manager.py:22-49 | Reading the decimal text of any integer gives the integer. |
| `Decimal.ParseSpacesAndSigns` | src/qsp_protocol_node/evt/evt_pool_manager.py:22-49 | Digits are read with leading zeros, spaces around and a sign in front; the empty text and a trailing dot are turned down. |
| `EventTable.DecodeIff` | src/qsp_protocol_node/evt/evt_pool_manager.py:22-49 | A row decodes exactly when its block and price columns hold numbers, and then every other field is the column. |
| `EventTable.DecodeThenEncode` | src/qsp_protocol_node/evt/evt_pool_manager.py:22-49 | A row whose text columns were written by the encoder decodes, and encoding gives the same columns. |
| `EventTable.SelectIff` | src/qsp_protocol_node/evt/get_event_by_request_id.sql:1-3 | A select by id returns exactly the rows with that id, a select by status exactly the rows with that status, all unchanged. The selects by status are get_events_to_be_*.sql. |
| `EventTable.UpdateChangesIff` | src/qsp_protocol_node/evt/set_evt_status_to_done.sql:1-5 | An update changes exactly the rows with its id that are not finished, only rows to be submitted if it is the one to submitted, any row if it is the error update, and says which status they end in. The other updates are set_evt_status_to_*.sql. |
| `EventTable.InsertAddsIff` | src/qsp_protocol_node/evt/createdb.sql:48 | An insert adds exactly its row, unless a row with the same id and the same type is there. |
| `Handlers.SettersReadBack` | src/qsp_protocol_node/evt/evt_pool_manager.py:208-253 | Each of the four setters stores the event it is given: reading the updated row returns its fields with the new status; a resubmission counts one attempt; what each setter must not write is unchanged. |
| `Handlers.AssignmentReadsBack` | src/qsp_protocol_node/evt/evt_pool_manager.py:155-172 | An inserted assignment reads back as the offer, in the first stage, with no attempts and no report. |
| `Handlers.AuditOutcome` | src/qsp_protocol_node/audit/threads/perform_audit_thread.py:371-414 | The event moves on exactly with a report and room for the write; a KeyError leaves it alone, anything else ends in error or, without room, in the death of the thread. |
| `Handlers.AuditIsStored` | src/qsp_protocol_node/audit/threads/perform_audit_thread.py:388-401 | After a successful audit the row reads back with that report, its block and one more attempt. |
| `Handlers.SubmissionIsStored` | src/qsp_protocol_node/audit/threads/submit_report_thread.py:47-93 | The event becomes submitted exactly when a transaction was sent and there is room; only status, hash and status line change. |
| `NodeDecisions.MarksDoneIff` | src/qsp_protocol_node/audit/threads/monitor_submission_thread.py:46-65 | A request is marked done exactly when it is finished and n blocks deep. |
| `NodeDecisions.MonitorDecides` | src/qsp_protocol_node/audit/threads/monitor_submission_thread.py:34-131 | The monitor's whole decision table: what it does for every answer of the chain, number of attempts and room in the queue. |
| `NodeDecisions.MonitorCarries` | src/qsp_protocol_node/audit/threads/monitor_submission_thread.py:34-131 | What the monitor writes: the stored report and submission block, the exception message or the note of the branch, and no transaction hash exactly after preparing a resubmission inside the window. |
| `NodeDecisions.MonitorStops` | src/qsp_protocol_node/audit/threads/monitor_submission_thread.py:34-131 | The monitor writes nothing exactly while it waits for depth, and its thread dies exactly when the last write of an exception branch finds no room. |
| `NodeDecisions.ResubmitsIff` | src/qsp_protocol_node/audit/threads/monitor_submission_thread.py:66-131 | It resubmits exactly with fewer than three attempts, after an exception or inside the window; with the rows on done and waiting, everything else is an error. |
| `NodeDecisions.UnfinishedOutcome` | src/qsp_protocol_node/audit/threads/monitor_submission_thread.py:66-108 | Without an exception an unfinished request is resubmitted exactly inside its window with attempts left, and otherwise ends in error. |
| `NodeDecisions.ResubmitsOutsideWindowIff` | src/qsp_protocol_node/audit/threads/monitor_submission_thread.py:119-131 | Outside the window a resubmission happens exactly through the general exception branch with attempts left. |
| `NodeDecisions.SubmissionSilentIff` | src/qsp_protocol_node/audit/threads/submit_report_thread.py:73-83 | The row is left for another try exactly on a duplicate, a not-confirmed or a KeyError answer. |
| `NodeDecisions.InsertsIff` | src/qsp_protocol_node/audit/threads/poll_requests_thread.py:131-152 | An assignment is inserted exactly when unknown and deep enough (or an audit with block 0 and a non-zero id), with room in the queue; an error update replaces it only when the insert found no room. Police assignments are at lines 214-241. |
| `NodeDecisions.LooksUpIff` | src/qsp_protocol_node/audit/threads/poll_requests_thread.py:131-142 | Looked up are every police assignment, and an audit with a non-zero id that is deep enough or carries block 0. |
| `NodeThreads.EventPoolManager.ExecSql` | src/qsp_protocol_node/evt/evt_pool_manager.py:58-65 | A statement is appended to the queue, refused after close, or raises on a full queue; database and results are unchanged. |
| `NodeThreads.EventPoolManager.SetEvtStatusToBeSubmitted` | src/qsp_protocol_node/evt/evt_pool_manager.py:208-223 | Queues exactly the move to be submitted for this event. |
| `NodeThreads.EventPoolManager.SetEvtStatusToSubmitted` | src/qsp_protocol_node/evt/evt_pool_manager.py:225-237 | Queues exactly the move to submitted for this event. |
| `NodeThreads.EventPoolManager.SetEvtStatusToDone` | src/qsp_protocol_node/evt/evt_pool_manager.py:239-245 | Queues exactly the move to done for this event. |
| `NodeThreads.EventPoolManager.SetEvtStatusToError` | src/qsp_protocol_node/evt/evt_pool_manager.py:247-253 | Queues exactly the move to error for this event. |
| `NodeThreads.ProcessAuditRequest` | src/qsp_protocol_node/audit/threads/perform_audit_thread.py:371-414 | The handler with its exception branches has the outcome of the decision function used in the state machine. |
| `NodeThreads.ProcessSubmissionRequest` | src/qsp_protocol_node/audit/threads/submit_report_thread.py:47-93 | The same for the submission handler. |
| `NodeThreads.MonitorTry` | src/qsp_protocol_node/audit/threads/monitor_submission_thread.py:38-108 | The try block ends normally with the decided write, or leaves the worker untouched with the exception its handlers need. |
| `NodeThreads.ResubmitOrFail` | src/qsp_protocol_node/audit/threads/monitor_submission_thread.py:66-108 | The not-finished half of the try block. |
| `NodeThreads.MonitorSubmissionTimeout` | src/qsp_protocol_node/audit/threads/monitor_submission_thread.py:34-131 | The whole monitor handler has the outcome of the decision function, nested exceptions included. |
| `NodeThreads.TimeoutEvent` | src/qsp_protocol_node/audit/audit.py:144-160 | The start-up handler for one stale event. |
| `NodeThreads.AddOffer` | src/qsp_protocol_node/audit/threads/poll_requests_thread.py:51-74 | Inserting an assignment, with the error update that replaces a failed insert. |
| `LatestBlock.MaxTextIsLast` | src/qsp_protocol_node/evt/get_latest_block_number.sql:1-2 | The text maximum is one of the texts and none comes after it in the text order. |
| `LatestBlock.TextOrder` | src/qsp_protocol_node/evt/createdb.sql:34 | The text order of two block numbers compares the digits both have; on a tie the shorter is less. |
| `LatestBlock.LatestIsLargestIff` | src/qsp_protocol_node/evt/evt_pool_manager.py:131-136 | The query returns the largest block exactly when no shorter block number in the table exceeds the leading digits of the largest. |
| `LatestBlock.LatestMissesTen` | src/qsp_protocol_node/evt/evt_pool_manager.py:131-146 | With blocks 9 and 10 in the table the latest block is 9; without events it is -1. |
| `NodeSteps.UpdateTouchesOneRow` | src/qsp_protocol_node/evt/set_evt_status_to_be_submitted.sql:1-12 | With one row per request an update filtered on the request id changes at most that row. |
| `NodeSteps.UpdatedRowOk` | src/qsp_protocol_node/evt/set_evt_status_to_done.sql:1-5 | A queued update that fits its row passes its guard, and the updated row satisfies every row rule. |
| `NodeSteps.VerdictFits` | src/qsp_protocol_node/evt/evt_pool_manager.py:174-206 | Whatever a thread decides on a row it owns is a statement that fits that row. |
| `NodeSteps.WorkerWrites` | src/qsp_protocol_node/utils/db/sql3liteworker.py:145-161 | Applying or rolling back the write at the head of the queue keeps the invariant. |
| `NodeSteps.WorkerAnswersThread` | src/qsp_protocol_node/evt/evt_pool_manager.py:174-206 | A snapshot answered by the worker equals its rows, belongs to the asking thread and meets no queued write. |
| `NodeSteps.WorkerAnswersPoll` | src/qsp_protocol_node/evt/evt_pool_manager.py:138-140 | The answer of the lookup is exactly whether the id is in some row, and after an unknown id no row and no queued write concerns it. |
| `NodeSteps.LookupFinds` | src/qsp_protocol_node/evt/get_event_by_request_id.sql:1-3 | The lookup by id finds something exactly when a row of either type has that id. |
| `NodeSteps.HandleKeeps` | src/qsp_protocol_node/evt/evt_pool_manager.py:174-206 | Handling one snapshot entry keeps the invariant, failed writes and dying threads included. |
| `NodeSteps.DecideKeeps` | src/qsp_protocol_node/audit/threads/poll_requests_thread.py:140-152 | Queueing an insert after a lookup keeps the invariant. |
| `NodeSteps.FetchKeeps` | src/qsp_protocol_node/evt/evt_pool_manager.py:174-206 | Queueing a select keeps the invariant. |
| `NodeSteps.StepKeeps` | src/qsp_protocol_node/audit/audit.py:33-53 | Every step of every thread, of the worker and a restart keep the invariant. |
| `NodeSteps.ExecKeeps` | src/qsp_protocol_node/audit/audit.py:33-53 | Every run keeps the invariant. |
| `NodeTheorems.StepChangesRow` | src/qsp_protocol_node/audit/audit.py:33-53 | A row changes only when a queued update of the thread owning its status is applied, and then by one move of the life cycle; rows are never removed. |
| `NodeTheorems.StepChangesOneRow` | src/qsp_protocol_node/evt/createdb.sql:48 | One step changes at most one row. |
| `NodeTheorems.RankFallsIff` | src/qsp_protocol_node/audit/audit.py:38-42 | The status falls in rank exactly when a queued resubmission by the monitor is applied; on (attempts, rank) it never falls. |
| `NodeTheorems.MeasureFalls` | src/qsp_protocol_node/audit/threads/monitor_submission_thread.py:72-108 | Every status change strictly lowers a measure between 0 and 7, which is 0 exactly for done and error. |
| `NodeTheorems.AtMostSevenChanges` | src/qsp_protocol_node/evt/set_evt_status_to_be_submitted.sql:1-12 | In every run from a fresh database a request changes status at most seven times and its attempts stay between 0 and 3. |
| `NodeTheorems.TerminalForever` | src/qsp_protocol_node/evt/set_evt_status_to_error.sql:1-4 | A row that is done or in error never changes again in any continuation of any run, although the error update has no status guard. |
| `NodeTheorems.ReportIsStable` | src/qsp_protocol_node/evt/evt_pool_manager.py:208-237 | Once a report is stored its uri, hash, state, both texts and submission block stay the same through all resubmissions and restarts. |
| `NodeTheorems.ReachableRows` | src/qsp_protocol_node/audit/threads/poll_requests_thread.py:131-152 | Reachable databases have one row per request; each assignment is an audit with block 0 or n below a block on which the poller looked up that request; for each done request the monitor read, in a call that reported it finished, a block n above its submission. |
| `NodeTheorems.RunObserves` | src/qsp_protocol_node/audit/threads/monitor_submission_thread.py:41-50 | What the state remembers as looked up or reported finished was observed by an action taken in the run. |
| `NodeTheorems.DepthOfRuns` | src/qsp_protocol_node/audit/threads/monitor_submission_thread.py:41-59 | The depth rules in terms of the run alone: some lookup of the poller for the inserted request, and some finished report of the monitor for the done one, came with a block deep enough. |
| `NodeTheorems.ReachableOwnership` | src/qsp_protocol_node/audit/audit.py:48-53 | In reachable states unprocessed snapshot entries equal their rows, no two threads hold one request, and queued updates concern rows their thread owns. |
| `NodeTheorems.FaultsKeepRows` | src/qsp_protocol_node/utils/db/sql3liteworker.py:145-161 | A failed write, a dying thread and a restart change no row: they lose exactly the write, the thread's remaining events, and the queue with all that was begun. |
| `NodeRuns.ReachesSubmitted` | src/qsp_protocol_node/evt/evt_pool_manager.py:188-206 | A concrete run that takes a request from the poll to submitted. |
| `NodeRuns.RankFalls` | src/qsp_protocol_node/audit/audit.py:38-42 | A concrete run on which the status falls in rank. |
| `NodeRuns.ResubmitsLate` | src/qsp_protocol_node/audit/threads/monitor_submission_thread.py:119-131 | A concrete run that resubmits outside the audit window. |
| `NodeRuns.ResendsWithoutProgress` | src/qsp_protocol_node/audit/threads/submit_report_thread.py:73-83 | While the chain accepts no submission, any number of rounds that resend every waiting report leave the database as it is. |
| `NodeRuns.ResendsForever` | src/qsp_protocol_node/audit/threads/submit_report_thread.py:73-83 | A concrete run to a waiting report on which this happens. |
| `NodeRounds.RoundServes` | src/qsp_protocol_node/evt/evt_pool_manager.py:174-206 | A full undisturbed round of a thread over all its events, in any order, applies exactly its decisions to the rows it watches and changes no other. |
| `NodeRounds.OfferRoundInsertsIff` | src/qsp_protocol_node/audit/threads/poll_requests_thread.py:131-152 | From any state at rest, lookup, answer, decision and write leave the table with the new row added if the offer is acceptable and no row has its id, and otherwise exactly as it was. Police offers are at lines 214-241. |
| `NodeProgress.LiveMeansWrite` | src/qsp_protocol_node/audit/threads/submit_report_thread.py:47-93 | With room in the queue a thread writes exactly on live answers: no KeyError for an audit, no unaccepted submission, no finished request waiting for depth; the other threads are at lines 371-414 of the audit thread and 34-131 of the monitor. |
| `NodeProgress.CyclesComplete` | src/qsp_protocol_node/audit/threads/monitor_submission_thread.py:66-108 | With live answers and no failed write, three cycles of the threads bring every request in the table to done or error. |
| `NodeProgress.RestartCompletes` | src/qsp_protocol_node/audit/audit.py:144-163 | The same from every reachable state, whatever is queued or half done, after a restart and the start-up pass. |
| `NodeProgress.StartUpSweeps` | src/qsp_protocol_node/audit/audit.py:144-163 | From every reachable state, restart and start-up pass put exactly the assigned and the to-be-submitted rows whose block is at most head - limit + discard in error, with the note "Submission timeout", and leave every other row as it was. |
| `SqlWorker.StepKeeps` | src/qsp_protocol_node/utils/db/sql3liteworker.py:97-161 | Every step of clients and worker keeps the worker's invariant. |
| `SqlWorker.Linearizable` | src/qsp_protocol_node/utils/db/sql3liteworker.py:97-161 | Every answer handed over goes to the client that put the select, and is that query on the database after exactly the entries put before it by any client, in order, failed writes rolled back. |
| `SqlWorker.WaitsForItsLast` | src/qsp_protocol_node/utils/db/sql3liteworker.py:217-219 | A blocked client waits for the last entry it has put, which is a select. |
| `SqlWorker.DeliveredOnce` | src/qsp_protocol_node/utils/db/sql3liteworker.py:176-197 | A result is handed out once and stays what it was. |
| `SqlWorker.ClosingLosesNothing` | src/qsp_protocol_node/utils/db/sql3liteworker.py:109-122 | When the connection is closed everything queued before the exit flag was set has been applied, in order, and nothing else. |
| `SqlWorker.LatePutIsLost` | src/qsp_protocol_node/utils/db/sql3liteworker.py:210-223 | An entry put after the connection was closed is never applied and never answered. |
| `SqlWorker.ClosingStops` | src/qsp_protocol_node/utils/db/sql3liteworker.py:109-122 | From every state of a running worker, once the exit flag is set and the token put, one turn for each entry stops it, with every entry ever put applied in order, whatever writes fail. `close` is at lines 163-169. |
| `SqlWorker.StopsIff` | src/qsp_protocol_node/utils/db/sql3liteworker.py:117-122 | The worker stops exactly in an exit test with the flag set and nothing queued. |
| `SqlWorker.AnswersArrive` | src/qsp_protocol_node/utils/db/sql3liteworker.py:176-190 | Once a select has had its turn, the client that put it waits for that token and finds the answer. |
| `SqlWorker.Sqlite3Worker.constructor` | src/qsp_protocol_node/utils/db/sql3liteworker.py:90-95 | A new worker has an empty queue, no results and no exit flag. |
| `SqlWorker.Sqlite3Worker.Execute` | src/qsp_protocol_node/utils/db/sql3liteworker.py:199-223 | Refused after the exit flag, raising on a full queue, otherwise the command is appended under a fresh token; database and results are unchanged. |
| `SqlWorker.Sqlite3Worker.RunOne` | src/qsp_protocol_node/utils/db/sql3liteworker.py:124-161 | Takes the head of the queue; a select leaves the selected rows under its token, a write is applied, or leaves the database and a failure under its token. |
| `SqlWorker.Sqlite3Worker.TestExit` | src/qsp_protocol_node/utils/db/sql3liteworker.py:117-122 | Stops exactly when the flag is set and the queue is empty; database, queue and results are unchanged. |
| `SqlWorker.Sqlite3Worker.LookForResult` | src/qsp_protocol_node/utils/db/sql3liteworker.py:186-190 | One look for the caller's result; a result found is handed over and removed, nothing else is. |
| `SqlWorker.Sqlite3Worker.RaiseExitFlag` | src/qsp_protocol_node/utils/db/sql3liteworker.py:165 | The first half of closing: the flag is set, and database, queue and results stay. |
| `SqlWorker.Sqlite3Worker.PutExitToken` | src/qsp_protocol_node/utils/db/sql3liteworker.py:166 | The second half of closing: the token is appended to the queue, and database and results stay. |
| `NodeOnWorker.TurnSimulates` | src/qsp_protocol_node/utils/db/sql3liteworker.py:109-161 | A turn of the worker in the system of threads and worker is a worker turn of the state machine: the rows left under the token are the snapshot. |
| `NodeOnWorker.CollectSimulates` | src/qsp_protocol_node/utils/db/sql3liteworker.py:186-190 | Collecting an answer later changes nothing the state machine sees. |
| `NodeOnWorker.ActSimulates` | src/qsp_protocol_node/evt/evt_pool_manager.py:174-253 | A thread's own step, with its put on the worker, is the same step of the state machine, restarts included. |
| `NodeOnWorker.RunSimulates` | src/qsp_protocol_node/utils/db/sql3liteworker.py:97-223 | Every run of the system, in which threads put, wait and collect, is a run of the state machine. |
| `NodeOnWorker.SystemRefinesNode` | src/qsp_protocol_node/utils/db/sql3liteworker.py:97-223 | Every database the system reaches is one the state machine reaches. |
| `NodeOnWorker.ServingSimulates` | src/qsp_protocol_node/utils/db/sql3liteworker.py:109-190 | A turn, its exit test and the collection of the answer, if it is a select, together are the worker turn of the state machine and leave nothing uncollected. |
| `NodeOnWorker.MovesRealise` | src/qsp_protocol_node/utils/db/sql3liteworker.py:97-223 | Every run of the state machine is realised by a run of the system. |
| `NodeOnWorker.SystemReachesExactly` | src/qsp_protocol_node/utils/db/sql3liteworker.py:97-223 | The databases the system reaches are exactly those the state machine reaches: waiting, collecting and exit tests neither add nor prevent an outcome. |
| `NodeOnWorker.SystemTerminalForever` | src/qsp_protocol_node/evt/set_evt_status_to_error.sql:1-4 | In the system of threads and worker, done and error are final. |
| `Analyzers.StepKeeps` | src/qsp_protocol_node/audit/threads/perform_audit_thread.py:183-270 | Every publish, exit, copy and flag read keeps the cell invariant that fixes what is collected. |
| `Analyzers.SuccessIff` | src/qsp_protocol_node/audit/threads/perform_audit_thread.py:231-270 | A report counts as success exactly when success was published and the thread had finished at the copy. |
| `Analyzers.AliveAtJoin` | src/qsp_protocol_node/audit/threads/perform_audit_thread.py:236-266 | An analyzer alive at its join is a timeout unless it publishes, without a timeout of its own, before its flag is read: then it is an error. |
| `Analyzers.FinishedAtJoin` | src/qsp_protocol_node/audit/threads/perform_audit_thread.py:187-266 | An analyzer finished at its join keeps its status, own timeouts and missing statuses accounted for. |
| `Analyzers.VerdictOfRun` | src/qsp_protocol_node/audit/threads/perform_audit_thread.py:76-116 | In every interleaving the verdict is success exactly when some analyzer succeeded in time and none ends in error. |
| `Analyzers.LateWorkerBecomesError` | src/qsp_protocol_node/audit/threads/perform_audit_thread.py:208-212 | The concrete interleaving in which a late worker turns a timeout into an error. |
| `Analyzers.CollectorFinishes` | src/qsp_protocol_node/audit/threads/perform_audit_thread.py:231-270 | Whatever the workers have done so far, the collector's own steps take it through all analyzers. |
| `Analyzers.ComputeAuditResult` | src/qsp_protocol_node/audit/threads/perform_audit_thread.py:76-116 | The loop returns (4, "success") exactly when some collected status is "success" and none is "error" or missing, else (5, "error"). |
| `Analyzers.SharedBoard.PublishReport` | src/qsp_protocol_node/audit/threads/perform_audit_thread.py:183-212 | A worker's publication under its lock. |
| `Analyzers.SharedBoard.CopyReport` | src/qsp_protocol_node/audit/threads/perform_audit_thread.py:234-243 | The collector's copy under the same lock. |
| `Analyzers.SharedBoard.FinishReport` | src/qsp_protocol_node/audit/threads/perform_audit_thread.py:256-266 | The flag read after the lock is released. |
| `Transactions.SendSignedTransaction` | src/qsp_protocol_node/utils/eth/tx.py:165-217 | The retry loop computes the search the next three rows are about. |
| `Transactions.NoHashIff` | src/qsp_protocol_node/utils/eth/tx.py:172-217 | The loop ends with neither a hash nor an exception exactly when it has no attempts. |
| `Transactions.OneAttemptDecides` | src/qsp_protocol_node/utils/eth/tx.py:187-217 | For every node behaviour the outcome is that of the first reply not retried, or of the last attempt, sent with the nonce that counts the earlier replies about it. |
| `Transactions.FindsLeastFreeNonce` | src/qsp_protocol_node/utils/eth/tx.py:170-206 | Against a pool that turns down used and pending nonces the least free nonce within reach is used; with none in reach the error is raised. |
| `Transactions.WaitForConfirmation` | src/qsp_protocol_node/utils/eth/tx.py:120-148 | A normal return means an observed head at least n above an observed receipt; the exception means a head more than 3n past the start and no deep pair; with growing heads 3n + 2 looks suffice. |
| `BlockFeed.CallsIncrease` | src/qsp_protocol_node/audit/threads/qsp_thread.py:113-122 | In every interleaving the handler is called with strictly increasing positive block numbers. |
| `BlockFeed.CatchesUp` | src/qsp_protocol_node/audit/threads/qsp_thread.py:134-140 | After two turns of its own the subscriber has been called for the current block. |
| `BlockFeed.CurrentIsLargestStored` | src/qsp_protocol_node/audit/threads/qsp_thread.py:113-122 | In every run the shared number is the largest of 0 and all remote numbers stored so far. |
| `BlockFeed.ReachesHandler` | src/qsp_protocol_node/audit/threads/qsp_thread.py:113-140 | From every reachable state with an idle poller: after a positive number is read and stored and the subscriber has had its turn, the last call was for that number or a later one. |
| `BlockFeed.BlockThreads.constructor` | src/qsp_protocol_node/audit/threads/qsp_thread.py:104-106 | Both threads start at block 0. |
| `BlockFeed.BlockThreads.ReadRemote` | src/qsp_protocol_node/audit/threads/qsp_thread.py:119 | The poller reads the remote block number. |
| `BlockFeed.BlockThreads.StoreRemote` | src/qsp_protocol_node/audit/threads/qsp_thread.py:120-121 | The shared number becomes the larger of itself and the number held. |
| `BlockFeed.BlockThreads.CompareBlocks` | src/qsp_protocol_node/audit/threads/qsp_thread.py:137 | The subscriber's first read of the shared number. |
| `BlockFeed.BlockThreads.CallHandler` | src/qsp_protocol_node/audit/threads/qsp_thread.py:138-139 | The second read, and the call. |

## Left out

Assumptions and simplifications of what is modelled:

- RoundTrip.CompressSucceedsIff: version parts are read as `int` reads ASCII text (spaces, a sign, underscores between digits); digits outside ASCII, which `int` and the hex conversion also take, are not modelled.
- PoliceCheck.SimilarIff: the quotient is over reals; rounding of the floating-point division is not modelled.
- PoliceCheck.TextAcceptedIff: asks for type names of at most 1000 characters, the schema's bound on them; of schema validation only what decoding does not guarantee already is modelled (hash of 64 hex digits, name length).
- Reports are typed values, as after schema validation; a missing list reads as the empty list, and analyzer metadata, messages and timestamps are not part of a report.
- The two exception classes of `compress_report` are one outcome, since its callers treat them alike.
- SqlWorker.Linearizable: any write may fail and be rolled back, selects do not fail, and logging does not raise; integers fit SQLite's columns. SQL text, transactions and constraint checks other than the primary key are not modelled, nor is the order of the rows of a select: snapshot entries are handled in any order.
- SqlWorker.ClosingLosesNothing: the endless loops of `run` and `query_results` are single steps taken any number of times, tokens are numbers in the order of the puts instead of uuids, and the limit of the queue appears as a flag saying whether a `put` found room in time.
- Opening the database file, creating the tables and restoring after a failed start: a run starts from an empty table; a restart keeps the table and loses the queue and all snapshots.
- A statement refused after the exit flag is, in the state machine of the node, one whose write fails; `NodeThreads` models the refusal itself.
- NodeProgress.CyclesComplete: rounds follow one another without new assignments in between; other interleavings of live threads are not claimed to finish within a bound.
- NodeOnWorker.RunSimulates: closing the worker is not part of the system; a restart starts a new worker on the same database.
- Analyzers.VerdictOfRun: an analyzer is a worker that publishes a report with or without a status, times out or fails; `join` returns at any moment.
- Transactions.OneAttemptDecides: `Unconfirmed` stands for every exception other than ValueError, the receipt timeout and the failed confirmation among them; the branch without a private key is one call and is left out.
- Transactions.WaitForConfirmation: observations are a finite list, and a pass that finds it used up reports that it is still waiting.
- Real time and sleeps are replaced by steps in any order.

Parts of the repository that are not modelled:

- The latest request id (`get_latest_request_id.sql`), which no thread uses.
- Bidding, stake checks, reward claiming, gas price and metrics threads: single-branch logic around contract calls.
- Contract calls, ABI, signing and transport: their answers are arbitrary inputs.
- Compilation, analyzer processes, containers, uploads, log streaming, configuration and key handling: input and output only.
- The smart contracts.
