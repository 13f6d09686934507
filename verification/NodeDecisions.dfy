/** When exactly each thread makes which decision. */
module NodeDecisions {
  import opened Wrappers
  import opened Decimal
  import opened EventTable
  import opened Handlers

  // ------------------------------------------------------------- submission

  /** The answers after which the submission thread writes nothing. */
  predicate NoProgress(reply: SubmitReply) {
    reply.Duplicate? || reply.NotConfirmed? || reply.SubmitKeyFails?
  }

  /** A submission handler leaves the row for another try exactly on these answers of the chain. */
  lemma SubmissionSilentIff(evt: Event, reply: SubmitReply, trace: string, puts: Puts)
    ensures ProcessSubmission(evt, reply, trace, puts).Nothing? <==>
            NoProgress(reply)
  {
  }

  // -------------------------------------------------- decisions of the monitor

  predicate InWindow(evt: Event, limit: int, block: int) {
    block < evt.assignedBlock + limit
  }

  /** The request is reported finished but its submission is not deep enough yet. */
  predicate StillWaiting(evt: Event, done: Call<bool>, block: Call<int>, n: int) {
    done == Returns(true) && block.Returns? && evt.submissionBlock.Some?
    && block.value - evt.submissionBlock.value < n
  }

  predicate Confirmed(evt: Event, done: Call<bool>, block: Call<int>, n: int) {
    done == Returns(true) && block.Returns? && evt.submissionBlock.Some?
    && block.value - evt.submissionBlock.value >= n
  }

  predicate KeyFailure(done: Call<bool>, block: Call<int>) {
    done.KeyFails? || (done.Returns? && block.KeyFails?)
  }

  /** An exception other than a KeyError ends the handler's main part; a first write that finds no
      room is one. */
  predicate Excepts(evt: Event, done: Call<bool>, block: Call<int>, n: int, puts: Puts) {
    && !KeyFailure(done, block) && !StillWaiting(evt, done, block, n)
    && (!done.Returns? || !block.Returns? || (done.value && evt.submissionBlock.None?) || !puts.first)
  }

  datatype Kind = Leaves | KillsThread | Inserts | Submits | Finishes | Resubmits | Errs

  function KindOf(o: Outcome): Kind {
    match o
    case Nothing => Leaves
    case Dies => KillsThread
    case Writes(w) =>
      match w
      case AddAssigned(_, _, _, _, _, _, _, _) => Inserts
      case SetToBeSubmitted(_, _, _, _, _) => Resubmits
      case SetSubmitted(_, _, _, _, _, _) => Submits
      case SetDone(_, _) => Finishes
      case SetError(_, _) => Errs
  }

  lemma KindMeans(o: Outcome)
    ensures o.Nothing? <==> KindOf(o) == Leaves
    ensures o.Dies? <==> KindOf(o) == KillsThread
    ensures o.Writes? && o.statement.SetToBeSubmitted? <==> KindOf(o) == Resubmits
    ensures o.Writes? && o.statement.SetDone? <==> KindOf(o) == Finishes
    ensures o.Writes? && o.statement.SetError? <==> KindOf(o) == Errs
  {
  }

  /** What the general exception branch does. */
  function FailedKind(attempts: int, room: bool): Kind {
    if !room then KillsThread else if attempts < MAX_SUBMISSION_ATTEMPTS then Resubmits else Errs
  }

  lemma FailedOutcome(evt: Event, message: string, room: bool)
    ensures KindOf(MonitorFailed(evt, message, room)) == FailedKind(evt.attempts, room)
  {
  }

  lemma PutOutcome(evt: Event, w: Statement, message: string, puts: Puts)
    ensures KindOf(MonitorPut(evt, w, message, puts))
            == if puts.first then KindOf(Writes(w)) else FailedKind(evt.attempts, puts.second)
  {
    FailedOutcome(evt, message, puts.second);
  }

  lemma FinishedOutcome(evt: Event, current: int, n: int, message: string, puts: Puts)
    ensures KindOf(WhenFinished(evt, current, n, message, puts))
            == if evt.submissionBlock.None? then FailedKind(evt.attempts, puts.second)
               else if current - evt.submissionBlock.value < n then Leaves
               else if puts.first then Finishes else FailedKind(evt.attempts, puts.second)
  {
    FailedOutcome(evt, message, puts.second);
    var noted := evt.(statusInfo := Some("Report successfully submitted"));
    PutOutcome(noted, DoneOf(noted), message, puts);
  }

  lemma NotFinishedOutcome(evt: Event, limit: int, current: int, message: string, puts: Puts)
    ensures KindOf(WhenUnfinished(evt, limit, current, message, puts))
            == if !puts.first then FailedKind(evt.attempts, puts.second)
               else if InWindow(evt, limit, current) && evt.attempts < MAX_SUBMISSION_ATTEMPTS then Resubmits
               else Errs
  {
    if !InWindow(evt, limit, current) {
      var noted := evt.(statusInfo := Some(OutsideInfo(limit)));
      PutOutcome(noted, ErrorOf(noted), message, puts);
    } else if evt.attempts + 1 > MAX_SUBMISSION_ATTEMPTS {
      var noted := evt.(statusInfo := Some(REACHED_MAXIMUM));
      PutOutcome(noted, ErrorOf(noted), message, puts);
    } else {
      var noted := evt.(statusInfo := Some(RetryInfo(evt)), txHash := None);
      PutOutcome(noted, ToBeSubmittedOf(noted), message, puts);
    }
  }

  /** The monitor's decision table. */
  lemma MonitorDecides(evt: Event, limit: int, done: Call<bool>, block: Call<int>, n: int,
                       message: string, puts: Puts)
    ensures KindOf(MonitorSubmission(evt, limit, done, block, n, message, puts))
            == if KeyFailure(done, block) then (if puts.first then Errs else KillsThread)
               else if StillWaiting(evt, done, block, n) then Leaves
               else if Excepts(evt, done, block, n, puts) then FailedKind(evt.attempts, puts.second)
               else if done.value then Finishes
               else if InWindow(evt, limit, block.value) && evt.attempts < MAX_SUBMISSION_ATTEMPTS
               then Resubmits
               else Errs
  {
    FailedOutcome(evt, message, puts.second);
    if done.Returns? && block.Returns? {
      FinishedOutcome(evt, block.value, n, message, puts);
      NotFinishedOutcome(evt, limit, block.value, message, puts);
    }
  }

  /** The monitor marks a request done exactly when it is finished and deep enough. */
  lemma MarksDoneIff(evt: Event, limit: int, done: Call<bool>, block: Call<int>, n: int,
                     message: string, puts: Puts)
    ensures var o := MonitorSubmission(evt, limit, done, block, n, message, puts);
            o.Writes? && o.statement.SetDone? <==> Confirmed(evt, done, block, n) && puts.first
  {
    KindMeans(MonitorSubmission(evt, limit, done, block, n, message, puts));
    MonitorDecides(evt, limit, done, block, n, message, puts);
  }

  /** The monitor leaves the event alone exactly while it waits for depth, and it dies exactly when
      the last write of an exception branch finds no room. */
  lemma MonitorStops(evt: Event, limit: int, done: Call<bool>, block: Call<int>, n: int,
                     message: string, puts: Puts)
    ensures var o := MonitorSubmission(evt, limit, done, block, n, message, puts);
            && (o.Nothing? <==> StillWaiting(evt, done, block, n))
            && (o.Dies? <==> (KeyFailure(done, block) && !puts.first)
                             || (Excepts(evt, done, block, n, puts) && !puts.second))
            && (o.Writes? ==> o.statement.SetDone? || o.statement.SetToBeSubmitted? || o.statement.SetError?)
  {
    KindMeans(MonitorSubmission(evt, limit, done, block, n, message, puts));
    MonitorDecides(evt, limit, done, block, n, message, puts);
  }

  /** It resubmits exactly with attempts left, after an exception or inside the audit window. What is
      neither this, nor done, nor waiting, ends in error. */
  lemma ResubmitsIff(evt: Event, limit: int, done: Call<bool>, block: Call<int>, n: int,
                     message: string, puts: Puts)
    ensures var o := MonitorSubmission(evt, limit, done, block, n, message, puts);
            o.Writes? && o.statement.SetToBeSubmitted? <==>
              && evt.attempts < 3
              && (|| (Excepts(evt, done, block, n, puts) && puts.second)
                  || (done == Returns(false) && block.Returns? && puts.first
                      && InWindow(evt, limit, block.value)))
  {
    KindMeans(MonitorSubmission(evt, limit, done, block, n, message, puts));
    MonitorDecides(evt, limit, done, block, n, message, puts);
  }

  /** A resubmission outside the audit window happens exactly when an exception other than a
      KeyError ends the handler, there are attempts left and the second write finds room. */
  lemma ResubmitsOutsideWindowIff(evt: Event, limit: int, done: Call<bool>, block: Call<int>, n: int,
                                  message: string, puts: Puts)
    requires block.Returns? ==> !InWindow(evt, limit, block.value)
    ensures var o := MonitorSubmission(evt, limit, done, block, n, message, puts);
            o.Writes? && o.statement.SetToBeSubmitted? <==>
            evt.attempts < 3 && Excepts(evt, done, block, n, puts) && puts.second
  {
    ResubmitsIff(evt, limit, done, block, n, message, puts);
  }

  /** Without an exception the audit window decides: inside it the report is resubmitted while
      attempts are left, otherwise the event ends in error. */
  lemma UnfinishedOutcome(evt: Event, limit: int, block: int, n: int, message: string, puts: Puts)
    requires puts.first
    ensures var o := MonitorSubmission(evt, limit, Returns(false), Returns(block), n, message, puts);
            && o.Writes? && (o.statement.SetToBeSubmitted? || o.statement.SetError?)
            && (o.statement.SetToBeSubmitted? <==>
                  InWindow(evt, limit, block) && evt.attempts < 3)
            && (o.statement.SetToBeSubmitted? ==> o.statement.txHash == None)
  {
    KindMeans(WhenUnfinished(evt, limit, block, message, puts));
    NotFinishedOutcome(evt, limit, block, message, puts);
  }

  /** The statement of each kind that carries this note and transaction hash. */
  predicate Carries(o: Outcome, evt: Event, note: string, txHash: Option<string>) {
    match o
    case Writes(SetDone(info, id)) => info == Some(note) && id == evt.key.requestId
    case Writes(SetError(info, id)) => info == Some(note) && id == evt.key.requestId
    case Writes(SetToBeSubmitted(info, hash, report, block, id)) =>
      && info == Some(note) && hash == txHash && report == evt.report
      && block == BlockText(evt.submissionBlock) && id == evt.key.requestId
    case _ => true
  }

  lemma FailedCarries(evt: Event, message: string, room: bool)
    ensures Carries(MonitorFailed(evt, message, room), evt, message, evt.txHash)
  {
  }

  /** The note in the window branches. */
  function WindowNote(evt: Event, limit: int, block: int): string {
    if block >= evt.assignedBlock + limit then
      "Submission of audit report outside completion window (" + IntText(limit) + " blocks)"
    else if evt.attempts >= 3 then "Reached maximum number of submission attempts (3)"
    else "Attempting to resubmit report " + IntText(evt.key.requestId) + " (retry = "
         + IntText(evt.attempts + 1) + ")"
  }

  lemma UnfinishedCarries(evt: Event, limit: int, current: int, message: string, puts: Puts)
    ensures Carries(WhenUnfinished(evt, limit, current, message, puts), evt,
                    if puts.first then WindowNote(evt, limit, current) else message,
                    if InWindow(evt, limit, current) && evt.attempts < 3 then None else evt.txHash)
  {
    if !InWindow(evt, limit, current) {
      FailedCarries(evt.(statusInfo := Some(OutsideInfo(limit))), message, puts.second);
    } else if evt.attempts + 1 > MAX_SUBMISSION_ATTEMPTS {
      FailedCarries(evt.(statusInfo := Some(REACHED_MAXIMUM)), message, puts.second);
    } else {
      FailedCarries(evt.(statusInfo := Some(RetryInfo(evt)), txHash := None), message, puts.second);
    }
  }

  lemma FinishedCarries(evt: Event, current: int, n: int, message: string, puts: Puts)
    ensures Carries(WhenFinished(evt, current, n, message, puts), evt,
                    if evt.submissionBlock.None? || !puts.first then message else "Report successfully submitted",
                    evt.txHash)
  {
    FailedCarries(evt, message, puts.second);
    FailedCarries(evt.(statusInfo := Some("Report successfully submitted")), message, puts.second);
  }

  /** The note and the transaction hash the monitor writes, if it writes. */
  function NoteOf(evt: Event, limit: int, done: Call<bool>, block: Call<int>, n: int, message: string,
                  puts: Puts): string
  {
    if KeyFailure(done, block) || Excepts(evt, done, block, n, puts) then message
    else if done.value then "Report successfully submitted"
    else WindowNote(evt, limit, block.value)
  }

  lemma CarriesUnread(evt: Event, limit: int, done: Call<bool>, block: Call<int>, n: int,
                      message: string, puts: Puts)
    requires !done.Returns? || !block.Returns?
    ensures Carries(MonitorSubmission(evt, limit, done, block, n, message, puts), evt,
                    NoteOf(evt, limit, done, block, n, message, puts), evt.txHash)
  {
    FailedCarries(evt, message, puts.second);
  }

  lemma CarriesFinished(evt: Event, limit: int, block: int, n: int, message: string, puts: Puts)
    ensures Carries(MonitorSubmission(evt, limit, Returns(true), Returns(block), n, message, puts), evt,
                    NoteOf(evt, limit, Returns(true), Returns(block), n, message, puts), evt.txHash)
  {
    FinishedCarries(evt, block, n, message, puts);
  }

  /** What the monitor writes: the stored report and submission block as they are; the exception
      message or the note of the branch; and no transaction hash exactly when it got as far as
      preparing a resubmission inside the window. */
  lemma MonitorCarries(evt: Event, limit: int, done: Call<bool>, block: Call<int>, n: int,
                       message: string, puts: Puts)
    ensures Carries(MonitorSubmission(evt, limit, done, block, n, message, puts), evt,
                    NoteOf(evt, limit, done, block, n, message, puts),
                    if done == Returns(false) && block.Returns? && InWindow(evt, limit, block.value)
                       && evt.attempts < 3
                    then None else evt.txHash)
  {
    if !done.Returns? || !block.Returns? {
      CarriesUnread(evt, limit, done, block, n, message, puts);
    } else if done.value {
      CarriesFinished(evt, limit, block.value, n, message, puts);
    } else {
      UnfinishedCarries(evt, limit, block.value, message, puts);
    }
  }

  /** An audit with block 0 or deep enough and a non-zero id; a police assignment that exists and is
      deep enough below the block the poller works on. */
  predicate Acceptable(offer: Offer, n: int) {
    if offer.kind.Audit? then
      offer.requestId != 0 && (offer.assignedBlock == 0 || offer.assignedBlock + n <= offer.currentBlock)
    else offer.hasAssignment && offer.assignedBlock + n <= offer.currentBlock
  }

  /** An assignment is inserted exactly when it is unknown, acceptable and its `put` finds room; an
      error update stands in for it only when the insert found no room. */
  lemma InsertsIff(offer: Offer, known: bool, n: int, puts: Puts)
    requires LooksUp(offer, n)
    ensures var o := ProcessOffer(offer, known, n, puts);
            && (o.Writes? && o.statement.AddAssigned? <==> !known && Acceptable(offer, n) && puts.first)
            && (o.Writes? && o.statement.SetError? <==>
                  !known && Acceptable(offer, n) && !puts.first && puts.second)
            && (o.Writes? && o.statement.SetError? ==>
                  o.statement == SetError(Some("Audit Assigned"), offer.requestId))
            && !o.Dies?
  {
  }

  /** The offers that are looked up at all: every police assignment, and an audit with a non-zero id
      that is deep enough or carries block 0. */
  lemma LooksUpIff(offer: Offer, n: int)
    ensures LooksUp(offer, n) <==>
            offer.kind == PoliceCheck
            || (offer.requestId != 0
                && (offer.assignedBlock == 0 || offer.assignedBlock + n <= offer.currentBlock))
  {
  }
}
