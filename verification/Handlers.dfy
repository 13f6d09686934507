/** What each thread decides about one event, as functions of the event, the answers it gets from
    the chain and the analyzers, and whether putting a statement on the queue succeeds. */
module Handlers {
  import opened Wrappers
  import opened Decimal
  import opened EventTable

  /** The outcome of a call into the chain: a value, a KeyError, or any other exception. */
  datatype Call<+T> = Returns(value: T) | KeyFails | Fails

  /** Whether the first and the second `put` of a handler find room in the queue in time. */
  datatype Puts = Puts(first: bool, second: bool)

  /** `Dies`: an exception leaves the handler and ends the thread. */
  datatype Outcome = Nothing | Writes(statement: Statement) | Dies

  const MAX_SUBMISSION_ATTEMPTS := 3

  // ---------------------------------------------------- pool manager setters

  function ToBeSubmittedOf(evt: Event): Statement {
    SetToBeSubmitted(evt.statusInfo, evt.txHash, evt.report, BlockText(evt.submissionBlock),
                     evt.key.requestId)
  }

  function SubmittedOf(evt: Event): Statement {
    SetSubmitted(evt.txHash, evt.statusInfo, evt.report.auditUri, evt.report.auditHash,
                 evt.report.auditState, evt.key.requestId)
  }

  function DoneOf(evt: Event): Statement {
    SetDone(evt.statusInfo, evt.key.requestId)
  }

  function ErrorOf(evt: Event): Statement {
    SetError(evt.statusInfo, evt.key.requestId)
  }

  /** The last chance to write: no room ends the thread. */
  function LastPut(room: bool, statement: Statement): Outcome {
    if room then Writes(statement) else Dies
  }

  // ----------------------------------------------------------------- startup

  /** `timeout_event` (audit.py:149-160); an exception is only logged. */
  function TimeoutStale(evt: Event, head: int, limit: int, discard: int, puts: Puts): Outcome {
    if head - limit + discard >= evt.assignedBlock && puts.first
    then Writes(ErrorOf(evt.(statusInfo := Some("Submission timeout"))))
    else Nothing
  }

  // ----------------------------------------------------------------- perform

  datatype AuditReply =
    | Produced(report: ReportFields, block: int)
    | NoResult
    | AuditKeyFails
    | AuditFails

  /** `__process_audit_request` (perform_audit_thread.py:371-414). Without a result the code calls
      a setter that does not exist, so it ends in the general handler too. */
  function ProcessAudit(evt: Event, reply: AuditReply, trace: string, puts: Puts): Outcome {
    var failed := LastPut(puts.second, ErrorOf(evt.(statusInfo := Some(trace))));
    match reply
    case AuditKeyFails => Nothing
    case NoResult => failed
    case AuditFails => failed
    case Produced(report, block) =>
      if puts.first then
        Writes(ToBeSubmittedOf(evt.(report := report, submissionBlock := Some(block),
                                    statusInfo := Some("Successfully generated report"))))
      else failed
  }

  // ------------------------------------------------------------------ submit

  datatype SubmitReply = Sent(txHash: string) | Duplicate | NotConfirmed | SubmitKeyFails | SubmitFails

  /** `__process_submission_request` (submit_report_thread.py:47-93). */
  function ProcessSubmission(evt: Event, reply: SubmitReply, trace: string, puts: Puts): Outcome {
    var failed := LastPut(puts.second, ErrorOf(evt.(statusInfo := Some(trace))));
    match reply
    case Sent(txHash) =>
      if puts.first then
        Writes(SubmittedOf(evt.(txHash := Some(txHash),
                                statusInfo := Some("Report submitted (waiting for confirmation)"))))
      else failed
    case SubmitFails => failed
    case _ => Nothing
  }

  // ----------------------------------------------------------------- monitor

  /** The general exception handler of the monitor: retry while attempts are left. */
  function MonitorFailed(evt: Event, message: string, room: bool): Outcome {
    var noted := evt.(statusInfo := Some(message));
    LastPut(room, if evt.attempts + 1 > MAX_SUBMISSION_ATTEMPTS then ErrorOf(noted)
                  else ToBeSubmittedOf(noted))
  }

  /** A write inside the monitor's `try`: no room is one more exception. */
  function MonitorPut(evt: Event, statement: Statement, message: string, puts: Puts): Outcome {
    if puts.first then Writes(statement) else MonitorFailed(evt, message, puts.second)
  }

  const REACHED_MAXIMUM := "Reached maximum number of submission attempts (3)"

  function RetryInfo(evt: Event): string {
    "Attempting to resubmit report " + IntText(evt.key.requestId) + " (retry = "
    + IntText(evt.attempts + 1) + ")"
  }

  function OutsideInfo(limit: int): string {
    "Submission of audit report outside completion window (" + IntText(limit) + " blocks)"
  }

  /** The request is reported finished. */
  function WhenFinished(evt: Event, current: int, confirmations: int, message: string, puts: Puts): Outcome {
    if evt.submissionBlock.None? then MonitorFailed(evt, message, puts.second)
    else if current - evt.submissionBlock.value < confirmations then Nothing
    else
      var noted := evt.(statusInfo := Some("Report successfully submitted"));
      MonitorPut(noted, DoneOf(noted), message, puts)
  }

  /** The request is not finished yet. */
  function WhenUnfinished(evt: Event, limit: int, current: int, message: string, puts: Puts): Outcome {
    if current < evt.assignedBlock + limit then
      if evt.attempts + 1 > MAX_SUBMISSION_ATTEMPTS then
        var noted := evt.(statusInfo := Some(REACHED_MAXIMUM));
        MonitorPut(noted, ErrorOf(noted), message, puts)
      else
        var noted := evt.(statusInfo := Some(RetryInfo(evt)), txHash := None);
        MonitorPut(noted, ToBeSubmittedOf(noted), message, puts)
    else
      var noted := evt.(statusInfo := Some(OutsideInfo(limit)));
      MonitorPut(noted, ErrorOf(noted), message, puts)
  }

  /** `__monitor_submission_timeout` (monitor_submission_thread.py:34-131). */
  function MonitorSubmission(evt: Event, limit: int, finished: Call<bool>, block: Call<int>,
                             confirmations: int, message: string, puts: Puts): Outcome
  {
    if finished.KeyFails? || (finished.Returns? && block.KeyFails?) then
      LastPut(puts.first, ErrorOf(evt.(statusInfo := Some(message))))
    else if finished.Fails? || block.Fails? then MonitorFailed(evt, message, puts.second)
    else if finished.value then WhenFinished(evt, block.value, confirmations, message, puts)
    else WhenUnfinished(evt, limit, block.value, message, puts)
  }

  // -------------------------------------------------------------------- poll

  /** What the contract reports about an assignment, and the block the poller works on. */
  datatype Offer = Offer(kind: Kind, requestId: int, requestor: string, contractUri: string,
                         price: int, assignedBlock: int, currentBlock: int, hasAssignment: bool)

  predicate Unconfirmed(offer: Offer, confirmations: int) {
    offer.assignedBlock + confirmations > offer.currentBlock
  }

  /** Audits are looked up only when confirmed (or block 0) and the id is not 0; police
      assignments always (poll_requests_thread.py:131-142, 215-222). */
  predicate LooksUp(offer: Offer, confirmations: int) {
    offer.kind.Audit? ==>
      (offer.assignedBlock == 0 || !Unconfirmed(offer, confirmations)) && offer.requestId != 0
  }

  /** The statement that records a new assignment. */
  function AssignedOf(offer: Offer): Statement {
    AddAssigned(offer.requestId, offer.requestor, offer.contractUri, "LogAuditAssigned",
                IntText(offer.assignedBlock), Some("Audit Assigned"), offer.kind, IntText(offer.price))
  }

  /** After the lookup: insert if unknown; a failed insert `put` turns into an error update. */
  function ProcessOffer(offer: Offer, known: bool, confirmations: int, puts: Puts): Outcome {
    if known then Nothing
    else if offer.kind.PoliceCheck? && (!offer.hasAssignment || Unconfirmed(offer, confirmations)) then
      Nothing
    else if puts.first then Writes(AssignedOf(offer))
    else if puts.second then Writes(SetError(Some("Audit Assigned"), offer.requestId))
    else Nothing
  }

  // ------------------------------------------------------ what is stored

  /** The event differs from the one read from the row only in what a setter may write. */
  predicate EditOf(evt: Event, row: Row) {
    var read := Decode(evt.key, row);
    read.Some? && evt == read.value.(report := evt.report, submissionBlock := evt.submissionBlock,
                                     statusInfo := evt.statusInfo, txHash := evt.txHash)
  }

  /** Each setter stores the event it is given: reading the updated row gives back its fields, with
      the new status. Resubmitting counts an attempt; the update to submitted leaves both report
      texts and the submission block alone, the last two all but the status line. */
  lemma SettersReadBack(evt: Event, row: Row)
    requires EditOf(evt, row)
    ensures Decode(evt.key, Updated(ToBeSubmittedOf(evt), row))
            == Some(evt.(status := ToBeSubmitted, attempts := evt.attempts + 1))
    ensures evt.submissionBlock == Decode(evt.key, row).value.submissionBlock
            && evt.report.fullReport == row.report.fullReport
            && evt.report.compressedReport == row.report.compressedReport ==>
            Decode(evt.key, Updated(SubmittedOf(evt), row)) == Some(evt.(status := Submitted))
    ensures var read := Decode(evt.key, row).value.(statusInfo := evt.statusInfo);
            && Decode(evt.key, Updated(DoneOf(evt), row))
               == Some(read.(status := Done, isPersisted := true))
            && Decode(evt.key, Updated(ErrorOf(evt), row)) == Some(read.(status := Error))
  {
    if evt.submissionBlock.Some? {
      ParseIntText(evt.submissionBlock.value);
    }
  }

  /** A new assignment reads back as the offer it was made from, in its first stage. */
  lemma AssignmentReadsBack(offer: Offer)
    ensures var key := Key(offer.requestId, offer.kind);
            Decode(key, NewRow(AssignedOf(offer)))
            == Some(Event(key, offer.requestor, offer.contractUri, "LogAuditAssigned",
                          offer.assignedBlock, offer.price, Assigned, Some("Audit Assigned"), None,
                          0, false, None, ReportFields(None, None, None, None, None)))
  {
    ParseIntText(offer.assignedBlock);
    ParseIntText(offer.price);
  }

  /** The audit thread moves the event on exactly when there is a report and room for the write. A
      KeyError leaves the event alone; all else ends in an error, or without room for it in the death
      of the thread. */
  lemma AuditOutcome(evt: Event, reply: AuditReply, trace: string, puts: Puts)
    ensures var o := ProcessAudit(evt, reply, trace, puts);
            && (o.Writes? && o.statement.SetToBeSubmitted? <==> reply.Produced? && puts.first)
            && (o.Nothing? <==> reply.AuditKeyFails?)
            && (o.Dies? <==> !reply.AuditKeyFails? && !(reply.Produced? && puts.first) && !puts.second)
            && (o.Writes? && !o.statement.SetToBeSubmitted? ==>
                  o.statement == SetError(Some(trace), evt.key.requestId))
  {
  }

  lemma AuditWrites(evt: Event, e: Event, report: ReportFields, block: int, trace: string, puts: Puts)
    requires puts.first
    requires e == evt.(report := report, submissionBlock := Some(block),
                       statusInfo := Some("Successfully generated report"))
    ensures ProcessAudit(evt, Produced(report, block), trace, puts) == Writes(ToBeSubmittedOf(e))
  {
  }

  lemma StoredAs(e: Event, w: Statement, row: Row)
    requires EditOf(e, row) && w == ToBeSubmittedOf(e)
    ensures Decode(e.key, Updated(w, row)) == Some(e.(status := ToBeSubmitted, attempts := e.attempts + 1))
  {
    SettersReadBack(e, row);
  }

  /** After a successful audit the row reads back with the report, its block, and one more attempt. */
  lemma AuditIsStored(evt: Event, row: Row, report: ReportFields, block: int, trace: string, puts: Puts)
    requires Decode(evt.key, row) == Some(evt) && puts.first
    ensures var o := ProcessAudit(evt, Produced(report, block), trace, puts);
            && o.Writes?
            && Decode(evt.key, Updated(o.statement, row))
               == Some(evt.(status := ToBeSubmitted, attempts := evt.attempts + 1,
                            report := report, submissionBlock := Some(block),
                            statusInfo := Some("Successfully generated report")))
  {
    var e := evt.(report := report, submissionBlock := Some(block),
                  statusInfo := Some("Successfully generated report"));
    AuditWrites(evt, e, report, block, trace, puts);
    assert EditOf(e, row);
    StoredAs(e, ProcessAudit(evt, Produced(report, block), trace, puts).statement, row);
  }

  /** The submission thread marks the event submitted exactly when a transaction was sent and there
      is room, and then only status, transaction hash and status line differ. */
  lemma SubmissionIsStored(evt: Event, row: Row, reply: SubmitReply, trace: string, puts: Puts)
    requires Decode(evt.key, row) == Some(evt)
    ensures var o := ProcessSubmission(evt, reply, trace, puts);
            && (o.Writes? && o.statement.SetSubmitted? <==> reply.Sent? && puts.first)
            && (o.Dies? <==>
                  (reply.SubmitFails? || (reply.Sent? && !puts.first)) && !puts.second)
            && (o.Writes? && !o.statement.SetSubmitted? ==>
                  o.statement == SetError(Some(trace), evt.key.requestId))
            && (reply.Sent? && puts.first ==>
                  Decode(evt.key, Updated(o.statement, row))
                  == Some(evt.(status := Submitted, txHash := Some(reply.txHash),
                               statusInfo := Some("Report submitted (waiting for confirmation)"))))
  {
  }
}
