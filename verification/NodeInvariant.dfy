/** The inductive invariant of the audit node: who may touch which row, and what each row holds. */
module NodeInvariant {
  import opened Wrappers
  import opened Decimal
  import opened EventTable
  import opened Handlers
  import opened AuditNode

  // ------------------------------------------------------------ single rows

  function IntOf(text: string): int
    requires IsIntText(text)
  {
    ParseInt(text).value
  }

  /** The request was reported finished at a block at least n above its submission block. */
  predicate Deep(n: int, id: int, row: Row, finished: Seen)
    requires TextOk(row)
  {
    row.submissionBlock.Some? && SeenAt(finished, id, IntOf(row.submissionBlock.value) + n)
  }

  /** An audit with block 0, or an assignment looked up at least n blocks above its own block. */
  predicate WasDeepEnough(n: int, id: int, kind: Kind, block: int, offered: Seen) {
    (kind.Audit? && block == 0) || SeenAt(offered, id, block + n)
  }

  /** What holds of every row: the stage of the life cycle fixes attempts and report, an inserted
      assignment was deep enough, and a done request was deep enough when it was finished. */
  predicate RowOk(n: int, key: Key, row: Row, offered: Seen, finished: Seen) {
    && TextOk(row)
    && WasDeepEnough(n, key.requestId, key.kind, IntOf(row.assignedBlock), offered)
    && (row.status.Assigned? ==> row.attempts == 0)
    && (row.status.ToBeSubmitted? || row.status.Submitted? || row.status.Done? ==>
          row.attempts >= 1 && row.submissionBlock.Some?)
    && 0 <= row.attempts <= MAX_SUBMISSION_ATTEMPTS
    && (row.status.Done? ==> Deep(n, key.requestId, row, finished))
    && (row.isPersisted <==> row.status.Done?)
  }

  /** A queued update of source `who` still fits the row it was decided on. */
  predicate Fits(n: int, who: Source, w: Statement, row: Row, finished: Seen)
    requires TextOk(row)
  {
    match who
    case Startup => w.SetError? && (row.status.Assigned? || row.status.ToBeSubmitted?)
    case Perform =>
      && row.status.Assigned?
      && (|| w.SetError?
          || (w.SetToBeSubmitted? && w.submissionBlock.Some?
              && IsIntText(w.submissionBlock.value)))
    case Submit =>
      && row.status.ToBeSubmitted?
      && (|| w.SetError?
          || (w.SetSubmitted? && w.auditUri == row.report.auditUri
              && w.auditHash == row.report.auditHash && w.auditState == row.report.auditState))
    case Monitor =>
      && row.status.Submitted?
      && (|| w.SetError?
          || (w.SetDone? && Deep(n, w.requestId, row, finished))
          || (w.SetToBeSubmitted? && w.report == row.report
              && w.submissionBlock == row.submissionBlock
              && row.attempts < MAX_SUBMISSION_ATTEMPTS))
    case Poll => false
  }

  /** A queued insert, or the error update that replaces it when its `put` failed. */
  predicate PollWriteOk(n: int, w: Statement, offered: Seen) {
    || w.SetError?
    || (w.AddAssigned? && IsIntText(w.assignedBlock) && IsIntText(w.price)
        && WasDeepEnough(n, w.requestId, w.kind, IntOf(w.assignedBlock), offered))
  }

  // ------------------------------------------------------------ whole states

  /** At most one row per request id. */
  predicate UniqueIds(db: Table) {
    forall k, k' :: k in db && k' in db && k.requestId == k'.requestId ==> k == k'
  }

  predicate RowsOk(n: int, s: Node) {
    forall k :: k in s.db ==> RowOk(n, k, s.db[k], s.offered, s.finished)
  }

  function KeyOf(db: Table, id: int): Key
    requires HasId(db, id)
  {
    if Key(id, Audit) in db then Key(id, Audit) else Key(id, PoliceCheck)
  }

  /** A queued write fits the database as it is now. */
  predicate WriteOk(n: int, s: Node, item: Item)
    requires item.Write? && RowsOk(n, s)
  {
    var id := item.statement.requestId;
    if item.who == Poll then !HasId(s.db, id) && PollWriteOk(n, item.statement, s.offered)
    else HasId(s.db, id)
         && Fits(n, item.who, item.statement, s.db[KeyOf(s.db, id)], s.finished)
  }

  predicate WritesOk(n: int, s: Node)
    requires RowsOk(n, s)
  {
    forall i :: 0 <= i < |s.queue| && s.queue[i].Write? ==> WriteOk(n, s, s.queue[i])
  }

  /** No two queued writes concern the same request. */
  predicate WritesApart(queue: seq<Item>) {
    forall i, j :: 0 <= i < j < |queue| && queue[i].Write? && queue[j].Write? ==>
      queue[i].statement.requestId != queue[j].statement.requestId
  }

  predicate Queued(queue: seq<Item>, id: int) {
    exists i :: 0 <= i < |queue| && queue[i].Write? && queue[i].statement.requestId == id
  }

  predicate Owns(who: Source, status: Status) {
    match who
    case Startup => status.Assigned? || status.ToBeSubmitted?
    case Perform => status.Assigned?
    case Submit => status.ToBeSubmitted?
    case Monitor => status.Submitted?
    case Poll => false
  }

  /** Every unprocessed snapshot entry still equals its row, belongs to the thread that holds it,
      and no queued write concerns it. */
  predicate SnapshotsOk(s: Node) {
    forall who, k :: k in Todo(s, who) ==>
      && k in s.db && s.db[k] == Todo(s, who)[k] && Owns(who, s.db[k].status)
      && !Queued(s.queue, k.requestId)
  }

  /** A thread that waits for a select has queued nothing after it. */
  predicate AsksOk(s: Node) {
    && (forall i :: 0 <= i < |s.queue| && s.queue[i].Ask? ==>
          if s.queue[i].who == Poll then s.poll.PollWaiting? else LocalOf(s, s.queue[i].who).Waiting?)
    && (forall i, j :: 0 <= i < j < |s.queue| && s.queue[i].Ask? ==> s.queue[j].who != s.queue[i].who)
    && (forall i :: 0 <= i < |s.queue| && s.queue[i].Ask? && s.queue[i].who == Poll ==>
          s.poll.PollWaiting? && s.queue[i].query == WithRequestId(s.poll.offer.requestId))
    && (forall i :: 0 <= i < |s.queue| && s.queue[i].Ask? && s.queue[i].who != Poll ==>
          s.queue[i].query == WithStatus(Watches(s.queue[i].who, s.phase)))
    && Todo(s, Poll) == map[]
  }

  predicate FromStartup(queue: seq<Item>, i: nat)
    requires i < |queue|
  {
    queue[i].who == Startup
  }

  /** Start-up writes stand in front of everything else, and until they are gone no other thread
      holds a snapshot. While starting, nothing else happens. */
  predicate StartupFirst(s: Node) {
    && (forall i, j :: 0 <= i < j < |s.queue| && FromStartup(s.queue, j) ==> FromStartup(s.queue, i))
    && (forall i :: 0 <= i < |s.queue| && FromStartup(s.queue, i) ==>
          forall who :: who != Startup ==> Todo(s, who) == map[])
    && (s.phase.Running? ==> LocalOf(s, Startup).Idle?)
    && (!s.phase.Running? ==>
          && s.poll.PollIdle?
          && (forall who :: who != Startup ==> LocalOf(s, who).Idle?)
          && forall i :: 0 <= i < |s.queue| ==> FromStartup(s.queue, i))
  }

  /** After its lookup the poller has nothing queued, and an unknown id is still absent. */
  predicate PollOk(n: int, s: Node) {
    match s.poll
    case PollIdle => true
    case PollWaiting(offer) => LooksUp(offer, n) && SeenAt(s.offered, offer.requestId, offer.currentBlock)
    case PollAnswered(offer, known) =>
      && LooksUp(offer, n) && SeenAt(s.offered, offer.requestId, offer.currentBlock)
      && (!known ==> !HasId(s.db, offer.requestId))
      && forall i :: 0 <= i < |s.queue| ==> s.queue[i].who != Poll
  }

  predicate Inv(n: int, s: Node) {
    && UniqueIds(s.db)
    && RowsOk(n, s)
    && WritesOk(n, s)
    && WritesApart(s.queue)
    && SnapshotsOk(s)
    && AsksOk(s)
    && StartupFirst(s)
    && PollOk(n, s)
  }
}
