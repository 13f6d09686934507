/** The pool manager's setters and the handlers of the threads as code over the shared worker. */
module NodeThreads {
  import opened Wrappers
  import opened Decimal
  import opened EventTable
  import opened Handlers
  import W = SqlWorker

  /** What a handler's outcome does to the worker; after `close` nothing is queued any more. A client
      that is blocked on a select does nothing. */
  ghost function After(w: W.World, client: W.Client, o: Outcome): W.World {
    if o.Writes? && !w.store.exitSet then W.Step(w, W.Put(client, W.Update(o.statement))) else w
  }

  class EventPoolManager {
    const worker: W.Sqlite3Worker

    constructor (worker: W.Sqlite3Worker)
      ensures this.worker == worker
    {
      this.worker := worker;
    }

    /** Queues a statement. `raised`: the queue stayed full. */
    method ExecSql(client: W.Client, statement: Statement, room: bool) returns (raised: bool)
      requires worker.Valid() && client !in worker.waiting
      modifies worker
      ensures worker.Valid() && raised == (!old(worker.exitSet) && !room)
      ensures worker.View() == After(old(worker.View()), client, if room then Writes(statement) else Nothing)
      ensures worker.db == old(worker.db) && worker.results == old(worker.results)
      ensures worker.sqlQueue == old(worker.sqlQueue)
              + if room && !old(worker.exitSet)
                then [W.Job(old(worker.nextToken), client, W.Update(statement))] else []
    {
      var reply := worker.Execute(client, W.Update(statement), room);
      return reply.Full?;
    }

    method SetEvtStatusToBeSubmitted(client: W.Client, evt: Event, room: bool) returns (raised: bool)
      requires worker.Valid() && client !in worker.waiting
      modifies worker
      ensures worker.Valid() && raised == (!old(worker.exitSet) && !room)
      ensures worker.View() ==
              After(old(worker.View()), client, if room then Writes(ToBeSubmittedOf(evt)) else Nothing)
    {
      raised := ExecSql(client, SetToBeSubmitted(evt.statusInfo, evt.txHash, evt.report,
                                         BlockText(evt.submissionBlock), evt.key.requestId), room);
    }

    method SetEvtStatusToSubmitted(client: W.Client, evt: Event, room: bool) returns (raised: bool)
      requires worker.Valid() && client !in worker.waiting
      modifies worker
      ensures worker.Valid() && raised == (!old(worker.exitSet) && !room)
      ensures worker.View() ==
              After(old(worker.View()), client, if room then Writes(SubmittedOf(evt)) else Nothing)
    {
      raised := ExecSql(client, SetSubmitted(evt.txHash, evt.statusInfo, evt.report.auditUri,
                                     evt.report.auditHash, evt.report.auditState,
                                     evt.key.requestId), room);
    }

    method SetEvtStatusToDone(client: W.Client, evt: Event, room: bool) returns (raised: bool)
      requires worker.Valid() && client !in worker.waiting
      modifies worker
      ensures worker.Valid() && raised == (!old(worker.exitSet) && !room)
      ensures worker.View() ==
              After(old(worker.View()), client, if room then Writes(DoneOf(evt)) else Nothing)
    {
      raised := ExecSql(client, SetDone(evt.statusInfo, evt.key.requestId), room);
    }

    method SetEvtStatusToError(client: W.Client, evt: Event, room: bool) returns (raised: bool)
      requires worker.Valid() && client !in worker.waiting
      modifies worker
      ensures worker.Valid() && raised == (!old(worker.exitSet) && !room)
      ensures worker.View() ==
              After(old(worker.View()), client, if room then Writes(ErrorOf(evt)) else Nothing)
    {
      raised := ExecSql(client, SetError(evt.statusInfo, evt.key.requestId), room);
    }
  }

  datatype Exception = NoException | KeyError | OtherException

  /** `__process_audit_request` */
  method ProcessAuditRequest(pool: EventPoolManager, client: W.Client, evt: Event, reply: AuditReply,
                             trace: string, puts: Puts)
    returns (died: bool)
    requires pool.worker.Valid() && client !in pool.worker.waiting
    modifies pool.worker
    ensures pool.worker.Valid()
    ensures pool.worker.View() == After(old(pool.worker.View()), client,
                                          ProcessAudit(evt, reply, trace, puts))
    ensures died == (!old(pool.worker.exitSet) && ProcessAudit(evt, reply, trace, puts).Dies?)
  {
    var e, exception := evt, NoException;
    match reply {
      case AuditKeyFails => exception := KeyError;
      case AuditFails => exception := OtherException;
      case NoResult => exception := OtherException;
      case Produced(report, block) =>
        e := e.(report := report, submissionBlock := Some(block),
                statusInfo := Some("Successfully generated report"));
        var raised := pool.SetEvtStatusToBeSubmitted(client, e, puts.first);
        if raised {
          exception := OtherException;
        }
    }
    died := false;
    if exception == OtherException {
      e := e.(statusInfo := Some(trace));
      died := pool.SetEvtStatusToError(client, e, puts.second);
    }
  }

  /** `__process_submission_request` */
  method ProcessSubmissionRequest(pool: EventPoolManager, client: W.Client, evt: Event, reply: SubmitReply,
                                  trace: string, puts: Puts)
    returns (died: bool)
    requires pool.worker.Valid() && client !in pool.worker.waiting
    modifies pool.worker
    ensures pool.worker.Valid()
    ensures pool.worker.View() == After(old(pool.worker.View()), client,
                                          ProcessSubmission(evt, reply, trace, puts))
    ensures died == (!old(pool.worker.exitSet) && ProcessSubmission(evt, reply, trace, puts).Dies?)
  {
    var e, failed := evt, reply.SubmitFails?;
    if reply.Sent? {
      e := e.(txHash := Some(reply.txHash),
              statusInfo := Some("Report submitted (waiting for confirmation)"));
      failed := pool.SetEvtStatusToSubmitted(client, e, puts.first);
    }
    died := false;
    if failed {
      e := e.(statusInfo := Some(trace));
      died := pool.SetEvtStatusToError(client, e, puts.second);
    }
  }

  /** The second half of the `try` block of `__monitor_submission_timeout`: not finished yet. */
  method ResubmitOrFail(pool: EventPoolManager, client: W.Client, evt: Event, limit: int, block: int,
                        ghost message: string, puts: Puts)
    returns (e: Event, raised: bool)
    requires pool.worker.Valid() && client !in pool.worker.waiting
    modifies pool.worker
    ensures pool.worker.Valid() && raised == (!old(pool.worker.exitSet) && !puts.first)
    ensures e.attempts == evt.attempts
    ensures var o := WhenUnfinished(evt, limit, block, message, puts);
            if puts.first then o.Writes? && pool.worker.View() == After(old(pool.worker.View()), client, o)
            else o == MonitorFailed(e, message, puts.second)
                 && pool.worker.View() == old(pool.worker.View())
  {
    e := evt;
    if block < e.assignedBlock + limit {
      if evt.attempts + 1 > MAX_SUBMISSION_ATTEMPTS {
        e := e.(statusInfo := Some(REACHED_MAXIMUM));
        raised := pool.SetEvtStatusToError(client, e, puts.first);
      } else {
        e := e.(statusInfo := Some(RetryInfo(e)));
        e := e.(txHash := None);
        raised := pool.SetEvtStatusToBeSubmitted(client, e, puts.first);
      }
    } else {
      e := e.(statusInfo := Some(OutsideInfo(limit)));
      raised := pool.SetEvtStatusToError(client, e, puts.first);
    }
  }

  /** The `try` block of `__monitor_submission_timeout`: the event as it leaves the block, and the
      exception that ended it, if any. */
  method MonitorTry(pool: EventPoolManager, client: W.Client, evt: Event, limit: int, done: Call<bool>,
                    block: Call<int>, confirmations: int, ghost message: string, puts: Puts)
    returns (e: Event, exception: Exception)
    requires pool.worker.Valid() && client !in pool.worker.waiting
    modifies pool.worker
    ensures pool.worker.Valid() && pool.worker.exitSet == old(pool.worker.exitSet)
    ensures e.attempts == evt.attempts
    ensures var o := MonitorSubmission(evt, limit, done, block, confirmations, message, puts);
            match exception
            case NoException =>
              && pool.worker.View() == After(old(pool.worker.View()), client, o)
              && (!pool.worker.exitSet ==> !o.Dies?)
            case KeyError =>
              && pool.worker.View() == old(pool.worker.View())
              && o == LastPut(puts.first, ErrorOf(e.(statusInfo := Some(message))))
            case OtherException =>
              && pool.worker.View() == old(pool.worker.View())
              && o == MonitorFailed(e, message, puts.second)
  {
    e := evt;
    if done.KeyFails? || (done.Returns? && block.KeyFails?) {
      return e, KeyError;
    }
    if done.Fails? || block.Fails? {
      return e, OtherException;
    }
    var raised := false;
    if done.value {
      if e.submissionBlock.None? {
        return e, OtherException;
      }
      if block.value - e.submissionBlock.value < confirmations {
        return e, NoException;
      }
      e := e.(statusInfo := Some("Report successfully submitted"));
      raised := pool.SetEvtStatusToDone(client, e, puts.first);
    } else {
      e, raised := ResubmitOrFail(pool, client, evt, limit, block.value, message, puts);
    }
    exception := if raised then OtherException else NoException;
  }

  /** `__monitor_submission_timeout` */
  method MonitorSubmissionTimeout(pool: EventPoolManager, client: W.Client, evt: Event,
                                  limit: int, done: Call<bool>, block: Call<int>,
                                  confirmations: int, message: string, puts: Puts)
    returns (died: bool)
    requires pool.worker.Valid() && client !in pool.worker.waiting
    modifies pool.worker
    ensures pool.worker.Valid()
    ensures var o := MonitorSubmission(evt, limit, done, block, confirmations, message, puts);
            && pool.worker.View() == After(old(pool.worker.View()), client, o)
            && died == (!old(pool.worker.exitSet) && o.Dies?)
  {
    var e, exception := MonitorTry(pool, client, evt, limit, done, block, confirmations, message, puts);
    died := false;
    if exception == KeyError {
      e := e.(statusInfo := Some(message));
      died := pool.SetEvtStatusToError(client, e, puts.first);
    } else if exception == OtherException {
      e := e.(statusInfo := Some(message));
      if e.attempts + 1 > MAX_SUBMISSION_ATTEMPTS {
        died := pool.SetEvtStatusToError(client, e, puts.second);
      } else {
        died := pool.SetEvtStatusToBeSubmitted(client, e, puts.second);
      }
    }
  }

  /** `timeout_event` of the start-up pass */
  method TimeoutEvent(pool: EventPoolManager, client: W.Client, evt: Event, head: int, limit: int,
                      discard: int, puts: Puts)
    requires pool.worker.Valid() && client !in pool.worker.waiting
    modifies pool.worker
    ensures pool.worker.Valid()
    ensures pool.worker.View() ==
            After(old(pool.worker.View()), client, TimeoutStale(evt, head, limit, discard, puts))
  {
    var firstValidBlock := head - limit + discard;
    if firstValidBlock >= evt.assignedBlock {
      var e := evt.(statusInfo := Some("Submission timeout"));
      var _ := pool.SetEvtStatusToError(client, e, puts.first);
    }
  }

  /** The end of `__poll_audit_request` and `__poll_police_request`, with `__add_evt_to_db`. */
  method AddOffer(pool: EventPoolManager, client: W.Client, offer: Offer, known: bool,
                  confirmations: int, puts: Puts)
    requires pool.worker.Valid() && client !in pool.worker.waiting
    modifies pool.worker
    ensures pool.worker.Valid()
    ensures pool.worker.View() ==
            After(old(pool.worker.View()), client, ProcessOffer(offer, known, confirmations, puts))
  {
    if known {
      return;
    }
    if offer.kind.PoliceCheck? {
      if !offer.hasAssignment || Unconfirmed(offer, confirmations) {
        return;
      }
    }
    var raised := pool.ExecSql(client, AssignedOf(offer), puts.first);
    if raised {
      var _ := pool.ExecSql(client, SetError(Some("Audit Assigned"), offer.requestId), puts.second);
    }
  }
}
