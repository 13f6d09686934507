/** Every step of every thread and of the worker keeps the invariant. */
module NodeSteps {
  import opened Wrappers
  import opened Decimal
  import opened EventTable
  import opened Handlers
  import opened AuditNode
  import opened NodeInvariant

  // ---------------------------------------------------------- the statements

  /** With one row per request, an update changes at most that row. */
  lemma UpdateTouchesOneRow(db: Table, w: Statement)
    requires UniqueIds(db) && !w.AddAssigned?
    ensures !HasId(db, w.requestId) ==> Run(db, w) == db
    ensures HasId(db, w.requestId) ==>
      var k := KeyOf(db, w.requestId);
      Run(db, w) == db[k := if Guard(w, db[k].status) then Updated(w, db[k]) else db[k]]
  {
    forall k | k in db && k.requestId == w.requestId
      ensures HasId(db, w.requestId) && k == KeyOf(db, w.requestId)
    {
      UniqueKey(db, k);
    }
  }

  lemma UniqueKey(db: Table, k: Key)
    requires UniqueIds(db) && k in db
    ensures HasId(db, k.requestId) && KeyOf(db, k.requestId) == k
  {
    match k.kind
    case Audit => assert k == Key(k.requestId, Audit);
    case PoliceCheck => assert k == Key(k.requestId, PoliceCheck);
  }

  /** The updated row is again in order. */
  lemma UpdatedRowOk(n: int, k: Key, row: Row, who: Source, w: Statement, offered: Seen, finished: Seen)
    requires RowOk(n, k, row, offered, finished) && Fits(n, who, w, row, finished)
    requires w.requestId == k.requestId
    ensures Guard(w, row.status)
    ensures RowOk(n, k, Updated(w, row), offered, finished)
  {
  }

  // ------------------------------------------------------- simple changes

  lemma QueueTail(queue: seq<Item>, id: int)
    requires queue != []
    ensures Queued(queue[1..], id) ==> Queued(queue, id)
  {
  }

  /** Taking the head off the queue. */
  lemma DropHead(n: int, s: Node)
    requires Inv(n, s) && s.queue != []
    ensures Inv(n, s.(queue := s.queue[1..]))
  {
    var s' := s.(queue := s.queue[1..]);
    assert forall who :: LocalOf(s', who) == LocalOf(s, who) && Todo(s', who) == Todo(s, who);
    DropHeadWrites(n, s);
    DropHeadThreads(s);
    DropHeadStartup(s);
    DropHeadPoll(n, s);
  }

  lemma DropHeadWrites(n: int, s: Node)
    requires RowsOk(n, s) && WritesOk(n, s) && WritesApart(s.queue) && s.queue != []
    ensures var s' := s.(queue := s.queue[1..]);
            RowsOk(n, s') && WritesOk(n, s') && WritesApart(s'.queue)
  {
    var s' := s.(queue := s.queue[1..]);
    assert forall i :: 0 <= i < |s'.queue| ==> s'.queue[i] == s.queue[i + 1];
    forall i | 0 <= i < |s'.queue| && s'.queue[i].Write? ensures WriteOk(n, s', s'.queue[i]) {
      assert WriteOk(n, s, s.queue[i + 1]);
    }
  }

  lemma DropHeadThreads(s: Node)
    requires SnapshotsOk(s) && AsksOk(s) && s.queue != []
    ensures var s' := s.(queue := s.queue[1..]);
            SnapshotsOk(s') && AsksOk(s')
  {
    var s' := s.(queue := s.queue[1..]);
    assert forall i :: 0 <= i < |s'.queue| ==> s'.queue[i] == s.queue[i + 1];
    assert forall who :: LocalOf(s', who) == LocalOf(s, who) && Todo(s', who) == Todo(s, who);
    forall who, k | k in Todo(s', who)
      ensures k in s'.db && s'.db[k] == Todo(s', who)[k] && Owns(who, s'.db[k].status)
              && !Queued(s'.queue, k.requestId)
    {
      assert k in Todo(s, who);
      QueueTail(s.queue, k.requestId);
    }
  }

  lemma DropHeadStartup(s: Node)
    requires StartupFirst(s) && s.queue != []
    ensures StartupFirst(s.(queue := s.queue[1..]))
  {
    var s' := s.(queue := s.queue[1..]);
    assert forall who :: LocalOf(s', who) == LocalOf(s, who) && Todo(s', who) == Todo(s, who);
    assert forall i :: 0 <= i < |s'.queue| ==> FromStartup(s'.queue, i) == FromStartup(s.queue, i + 1);
  }

  lemma DropHeadPoll(n: int, s: Node)
    requires PollOk(n, s) && s.queue != []
    ensures PollOk(n, s.(queue := s.queue[1..]))
  {
  }

  predicate Grows(seen: Seen, seen': Seen) {
    forall id :: id in seen ==> id in seen' && seen[id] <= seen'[id]
  }

  lemma SeenMoreWrites(n: int, s: Node, offered: Seen, finished: Seen)
    requires RowsOk(n, s) && WritesOk(n, s) && Grows(s.offered, offered) && Grows(s.finished, finished)
    ensures RowsOk(n, s.(offered := offered, finished := finished))
    ensures WritesOk(n, s.(offered := offered, finished := finished))
  {
    var s' := s.(offered := offered, finished := finished);
    forall k | k in s.db ensures RowOk(n, k, s.db[k], offered, finished) {
      assert RowOk(n, k, s.db[k], s.offered, s.finished);
    }
    forall i | 0 <= i < |s'.queue| && s'.queue[i].Write? ensures WriteOk(n, s', s'.queue[i]) {
      assert WriteOk(n, s, s.queue[i]);
    }
  }

  lemma SeenMoreThreads(s: Node, offered: Seen, finished: Seen)
    requires SnapshotsOk(s) && AsksOk(s) && StartupFirst(s)
    ensures var s' := s.(offered := offered, finished := finished);
            SnapshotsOk(s') && AsksOk(s') && StartupFirst(s')
  {
    var s' := s.(offered := offered, finished := finished);
    assert forall who :: LocalOf(s', who) == LocalOf(s, who) && Todo(s', who) == Todo(s, who);
  }

  /** More observations. */
  lemma SeenMore(n: int, s: Node, offered: Seen, finished: Seen)
    requires Inv(n, s) && Grows(s.offered, offered) && Grows(s.finished, finished)
    ensures Inv(n, s.(offered := offered, finished := finished))
  {
    SeenMoreWrites(n, s, offered, finished);
    SeenMoreThreads(s, offered, finished);
  }

  lemma QueueAppend(queue: seq<Item>, item: Item, id: int)
    ensures Queued(queue + [item], id) <==>
            Queued(queue, id) || (item.Write? && item.statement.requestId == id)
  {
    var longer := queue + [item];
    if Queued(queue, id) {
      var i :| 0 <= i < |queue| && queue[i].Write? && queue[i].statement.requestId == id;
      assert longer[i] == queue[i];
    }
    if item.Write? && item.statement.requestId == id {
      assert longer[|queue|] == item;
    }
  }

  lemma AppendToWrites(n: int, s: Node, item: Item)
    requires RowsOk(n, s) && WritesOk(n, s) && WritesApart(s.queue)
    requires item.Write? ==> WriteOk(n, s, item) && !Queued(s.queue, item.statement.requestId)
    ensures var s' := s.(queue := s.queue + [item]);
            RowsOk(n, s') && WritesOk(n, s') && WritesApart(s'.queue)
  {
  }

  lemma AppendToSnapshots(s: Node, item: Item)
    requires SnapshotsOk(s)
    requires item.Write? ==>
      forall who, k :: k in Todo(s, who) ==> k.requestId != item.statement.requestId
    ensures SnapshotsOk(s.(queue := s.queue + [item]))
  {
    var s' := s.(queue := s.queue + [item]);
    assert forall who :: LocalOf(s', who) == LocalOf(s, who) && Todo(s', who) == Todo(s, who);
    forall who, k | k in Todo(s', who)
      ensures k in s'.db && s'.db[k] == Todo(s', who)[k] && Owns(who, s'.db[k].status)
              && !Queued(s'.queue, k.requestId)
    {
      assert k in Todo(s, who);
      QueueAppend(s.queue, item, k.requestId);
    }
  }

  predicate Blocked(s: Node, who: Source) {
    if who == Poll then s.poll.PollWaiting? else LocalOf(s, who).Waiting?
  }

  lemma AppendToAsks(s: Node, item: Item)
    requires AsksOk(s) && item.Write? && !Blocked(s, item.who)
    ensures AsksOk(s.(queue := s.queue + [item]))
  {
  }

  /** A thread that is not waiting queues a write for a request nobody else is working on. */
  lemma AppendWrite(n: int, s: Node, item: Item)
    requires Inv(n, s) && item.Write? && WriteOk(n, s, item)
    requires !Queued(s.queue, item.statement.requestId)
    requires forall who, k :: k in Todo(s, who) ==> k.requestId != item.statement.requestId
    requires item.who == Startup <==> !s.phase.Running?
    requires !Blocked(s, item.who) && (item.who == Poll ==> s.poll.PollIdle?)
    ensures Inv(n, s.(queue := s.queue + [item]))
  {
    AppendToWrites(n, s, item);
    AppendToSnapshots(s, item);
    AppendToAsks(s, item);
    StartupFirstAppend(s, item);
  }

  lemma StartupFirstAppend(s: Node, item: Item)
    requires StartupFirst(s) && (item.who == Startup <==> !s.phase.Running?)
    ensures StartupFirst(s.(queue := s.queue + [item]))
  {
    var s' := s.(queue := s.queue + [item]);
    assert forall who :: LocalOf(s', who) == LocalOf(s, who) && Todo(s', who) == Todo(s, who);
    assert forall i :: 0 <= i < |s.queue| ==> FromStartup(s'.queue, i) == FromStartup(s.queue, i);
    assert FromStartup(s'.queue, |s.queue|) == (item.who == Startup);
  }

  /** A thread drops entries from its snapshot. */
  lemma ShrinkTodo(n: int, s: Node, who: Source, todo: Table)
    requires Inv(n, s) && LocalOf(s, who).Working?
    requires forall k :: k in todo ==> k in Todo(s, who) && todo[k] == Todo(s, who)[k]
    ensures Inv(n, WithLocal(s, who, Working(todo)))
  {
    ShrinkSnapshots(s, who, todo);
    ShrinkAsks(s, who, todo);
    ShrinkStartupFirst(s, who, todo);
    WritesUnaffected(n, s, WithLocal(s, who, Working(todo)));
  }

  lemma ShrinkStartupFirst(s: Node, who: Source, todo: Table)
    requires StartupFirst(s) && LocalOf(s, who).Working?
    requires forall k :: k in todo ==> k in Todo(s, who)
    ensures StartupFirst(WithLocal(s, who, Working(todo)))
  {
    var s' := WithLocal(s, who, Working(todo));
    LocalsAfter(s, who, Working(todo));
    assert Todo(s, who) == map[] ==> todo == map[];
    assert forall x :: Todo(s, x) == map[] ==> Todo(s', x) == map[];
    assert forall i :: 0 <= i < |s'.queue| ==> FromStartup(s'.queue, i) == FromStartup(s.queue, i);
  }

  lemma ShrinkSnapshots(s: Node, who: Source, todo: Table)
    requires SnapshotsOk(s)
    requires forall k :: k in todo ==> k in Todo(s, who) && todo[k] == Todo(s, who)[k]
    ensures SnapshotsOk(WithLocal(s, who, Working(todo)))
  {
    var s' := WithLocal(s, who, Working(todo));
    LocalsAfter(s, who, Working(todo));
    forall x, k | k in Todo(s', x)
      ensures k in s'.db && s'.db[k] == Todo(s', x)[k] && Owns(x, s'.db[k].status)
              && !Queued(s'.queue, k.requestId)
    {
      assert k in Todo(s, x);
    }
  }

  lemma ShrinkAsks(s: Node, who: Source, todo: Table)
    requires AsksOk(s) && LocalOf(s, who).Working?
    requires forall k :: k in todo ==> k in Todo(s, who)
    ensures AsksOk(WithLocal(s, who, Working(todo)))
  {
  }

  lemma LocalsAfter(s: Node, who: Source, local: Local)
    ensures var s' := WithLocal(s, who, local);
            && LocalOf(s', who) == local
            && forall x :: x != who ==> LocalOf(s', x) == LocalOf(s, x) && Todo(s', x) == Todo(s, x)
  {
  }

  /** Queued writes only look at the database, and what was observed. */
  lemma WritesUnaffected(n: int, s: Node, s': Node)
    requires RowsOk(n, s) && WritesOk(n, s)
    requires s'.db == s.db && s'.queue == s.queue && s'.offered == s.offered && s'.finished == s.finished
    ensures RowsOk(n, s') && WritesOk(n, s')
  {
  }

  // --------------------------------------------------------- the worker

  lemma OtherIdsUnchanged(db: Table, key: Key, row: Row, id: int)
    requires id != key.requestId
    ensures var db' := db[key := row];
            && HasId(db', id) == HasId(db, id)
            && (HasId(db, id) ==> KeyOf(db', id) == KeyOf(db, id)
                                  && db'[KeyOf(db, id)] == db[KeyOf(db, id)])
  {
  }

  lemma ChangeRowWrites(n: int, s: Node, key: Key, row: Row)
    requires RowsOk(n, s) && WritesOk(n, s) && RowOk(n, key, row, s.offered, s.finished)
    requires !Queued(s.queue, key.requestId)
    ensures var s' := s.(db := s.db[key := row]); RowsOk(n, s') && WritesOk(n, s')
  {
    var s' := s.(db := s.db[key := row]);
    forall i | 0 <= i < |s'.queue| && s'.queue[i].Write? ensures WriteOk(n, s', s'.queue[i]) {
      assert WriteOk(n, s, s.queue[i]);
      OtherIdsUnchanged(s.db, key, row, s.queue[i].statement.requestId);
    }
  }

  lemma ChangeRowSnapshots(s: Node, key: Key, row: Row)
    requires SnapshotsOk(s)
    requires forall who, k :: k in Todo(s, who) ==> k.requestId != key.requestId
    ensures SnapshotsOk(s.(db := s.db[key := row]))
  {
    var s' := s.(db := s.db[key := row]);
    assert forall who :: LocalOf(s', who) == LocalOf(s, who) && Todo(s', who) == Todo(s, who);
    forall who, k | k in Todo(s', who)
      ensures k in s'.db && s'.db[k] == Todo(s', who)[k] && Owns(who, s'.db[k].status)
              && !Queued(s'.queue, k.requestId)
    {
      assert k in Todo(s, who);
    }
  }

  /** A row that no queued write and no snapshot concerns may change, or be added under a new id. */
  lemma ChangeRow(n: int, s: Node, key: Key, row: Row)
    requires Inv(n, s) && RowOk(n, key, row, s.offered, s.finished)
    requires !Queued(s.queue, key.requestId)
    requires forall who, k :: k in Todo(s, who) ==> k.requestId != key.requestId
    requires key in s.db || (!HasId(s.db, key.requestId) && !s.poll.PollAnswered?)
    ensures Inv(n, s.(db := s.db[key := row]))
  {
    ChangeRowWrites(n, s, key, row);
    ChangeRowSnapshots(s, key, row);
    ChangeRowIds(s.db, key, row);
    DatabaseOnly(s, s.db[key := row]);
    ChangeRowPoll(n, s, key, row);
  }

  lemma ChangeRowPoll(n: int, s: Node, key: Key, row: Row)
    requires PollOk(n, s) && (key in s.db || !s.poll.PollAnswered?)
    ensures PollOk(n, s.(db := s.db[key := row]))
  {
    assert key in s.db ==> forall id :: HasId(s.db[key := row], id) == HasId(s.db, id);
  }

  lemma ChangeRowIds(db: Table, key: Key, row: Row)
    requires UniqueIds(db) && (key in db || !HasId(db, key.requestId))
    ensures UniqueIds(db[key := row])
  {
    forall k | k in db && k.requestId == key.requestId ensures k == key {
      UniqueKey(db, k);
      if key in db {
        UniqueKey(db, key);
      }
    }
  }

  lemma DatabaseOnly(s: Node, db: Table)
    requires AsksOk(s) && StartupFirst(s)
    ensures AsksOk(s.(db := db)) && StartupFirst(s.(db := db))
  {
    var s' := s.(db := db);
    assert forall who :: LocalOf(s', who) == LocalOf(s, who) && Todo(s', who) == Todo(s, who);
  }

  lemma AppliedRow(n: int, s: Node, who: Source, w: Statement, k: Key)
    requires UniqueIds(s.db) && RowsOk(n, s) && k in s.db && k.requestId == w.requestId
    requires Fits(n, who, w, s.db[k], s.finished)
    ensures !w.AddAssigned?
    ensures Run(s.db, w) == s.db[k := Updated(w, s.db[k])]
    ensures RowOk(n, k, Updated(w, s.db[k]), s.offered, s.finished)
  {
    UniqueKey(s.db, k);
    UpdateTouchesOneRow(s.db, w);
    UpdatedRowOk(n, k, s.db[k], who, w, s.offered, s.finished);
  }

  lemma ApplyUpdate(n: int, s: Node, item: Item)
    requires Inv(n, s) && item.Write? && item.who != Poll && WriteOk(n, s, item)
    requires !Queued(s.queue, item.statement.requestId)
    requires forall who, k :: k in Todo(s, who) ==> k.requestId != item.statement.requestId
    ensures !Violates(s.db, item.statement)
    ensures Inv(n, s.(db := Run(s.db, item.statement)))
  {
    var w := item.statement;
    var k := KeyOf(s.db, w.requestId);
    AppliedRow(n, s, item.who, w, k);
    ChangeRow(n, s, k, Updated(w, s.db[k]));
  }

  lemma AbsentKey(db: Table, k: Key)
    requires !HasId(db, k.requestId)
    ensures k !in db
  {
    match k.kind
    case Audit => assert k == Key(k.requestId, Audit);
    case PoliceCheck => assert k == Key(k.requestId, PoliceCheck);
  }

  lemma ApplyInsert(n: int, s: Node, w: Statement)
    requires Inv(n, s) && w.AddAssigned? && PollWriteOk(n, w, s.offered)
    requires !HasId(s.db, w.requestId) && !Queued(s.queue, w.requestId) && !s.poll.PollAnswered?
    requires forall who, k :: k in Todo(s, who) ==> k.requestId != w.requestId
    ensures !Violates(s.db, w)
    ensures Inv(n, s.(db := Run(s.db, w)))
  {
    var k, row := Key(w.requestId, w.kind), NewRow(w);
    NewRowOk(n, s, w);
    AbsentKey(s.db, k);
    assert Run(s.db, w) == s.db[k := row];
    ChangeRow(n, s, k, row);
  }

  lemma MissingRowIgnored(s: Node, w: Statement)
    requires UniqueIds(s.db) && w.SetError? && !HasId(s.db, w.requestId)
    ensures s.(db := Run(s.db, w)) == s
  {
    UpdateTouchesOneRow(s.db, w);
  }

  lemma NewRowOk(n: int, s: Node, w: Statement)
    requires w.AddAssigned? && PollWriteOk(n, w, s.offered)
    ensures RowOk(n, Key(w.requestId, w.kind), NewRow(w), s.offered, s.finished)
  {
  }

  lemma HeadIsApart(queue: seq<Item>)
    requires WritesApart(queue) && queue != [] && queue[0].Write?
    ensures !Queued(queue[1..], queue[0].statement.requestId)
    ensures Queued(queue, queue[0].statement.requestId)
  {
  }

  lemma HeadDropped(s: Node, who: Source)
    requires s.queue != []
    ensures Todo(s.(queue := s.queue[1..]), who) == Todo(s, who)
  {
  }

  /** What holds of the write at the head once it is off the queue. */
  lemma HeadApplies(n: int, s: Node)
    requires Inv(n, s) && s.queue != [] && s.queue[0].Write?
    ensures var item, rest := s.queue[0], s.(queue := s.queue[1..]);
            && RowsOk(n, rest) && WriteOk(n, rest, item) && !Queued(rest.queue, item.statement.requestId)
            && (forall who, k :: k in Todo(rest, who) ==> k.requestId != item.statement.requestId)
            && (item.who == Poll ==> !rest.poll.PollAnswered?)
  {
    var item, rest := s.queue[0], s.(queue := s.queue[1..]);
    assert WriteOk(n, s, item);
    HeadIsApart(s.queue);
    forall who ensures Todo(rest, who) == Todo(s, who) {
      HeadDropped(s, who);
    }
  }

  lemma WorkerWrites(n: int, s: Node, ok: bool)
    requires Inv(n, s) && s.queue != [] && s.queue[0].Write?
    ensures Inv(n, WorkerStep(s, ok))
  {
    var item, rest := s.queue[0], s.(queue := s.queue[1..]);
    DropHead(n, s);
    HeadApplies(n, s);
    if item.who == Poll && item.statement.AddAssigned? {
      ApplyInsert(n, rest, item.statement);
    } else if item.who == Poll {
      MissingRowIgnored(rest, item.statement);
    } else {
      ApplyUpdate(n, rest, item);
    }
  }

  /** A thread's select is answered: its snapshot holds rows that nobody else is working on. */
  lemma WorkerAnswersThread(n: int, s: Node, ok: bool)
    requires Inv(n, s) && s.queue != [] && s.queue[0].Ask? && s.queue[0].who != Poll
    ensures Inv(n, WorkerStep(s, ok))
  {
    var who, rest := s.queue[0].who, s.(queue := s.queue[1..]);
    var todo := Select(s.db, WithStatus(Watches(who, s.phase)));
    DropHead(n, s);
    assert LocalOf(s, who).Waiting?;
    assert WorkerStep(s, ok) == WithLocal(rest, who, Working(todo));
    WritesUnaffected(n, rest, WithLocal(rest, who, Working(todo)));
    AnswerIsFree(n, s);
    AnsweredSnapshots(rest, who, todo);
    AnsweredAsks(s, who, todo);
    AnsweredStartupFirst(s, who, todo);
  }

  lemma AnswerIsFree(n: int, s: Node)
    requires Inv(n, s) && s.queue != [] && s.queue[0].Ask? && s.queue[0].who != Poll
    ensures var todo := Select(s.db, WithStatus(Watches(s.queue[0].who, s.phase)));
            forall k :: k in todo ==>
              k in s.db && todo[k] == s.db[k] && Owns(s.queue[0].who, s.db[k].status)
              && !Queued(s.queue[1..], k.requestId)
  {
    var todo := Select(s.db, WithStatus(Watches(s.queue[0].who, s.phase)));
    forall k | k in todo ensures !Queued(s.queue[1..], k.requestId) && Owns(s.queue[0].who, s.db[k].status) {
      NothingQueuedFor(n, s, k);
    }
  }

  lemma AnsweredSnapshots(s: Node, who: Source, todo: Table)
    requires SnapshotsOk(s)
    requires forall k :: k in todo ==>
      k in s.db && s.db[k] == todo[k] && Owns(who, todo[k].status) && !Queued(s.queue, k.requestId)
    ensures SnapshotsOk(WithLocal(s, who, Working(todo)))
  {
    var s' := WithLocal(s, who, Working(todo));
    LocalsAfter(s, who, Working(todo));
    forall x, k | k in Todo(s', x)
      ensures k in s'.db && s'.db[k] == Todo(s', x)[k] && Owns(x, s'.db[k].status)
              && !Queued(s'.queue, k.requestId)
    {
      if x != who {
        assert k in Todo(s, x);
      }
    }
  }

  /** When the select of the thread watching a status is answered, no queued write concerns a row
      with that status. */
  lemma NothingQueuedFor(n: int, s: Node, k: Key)
    requires Inv(n, s) && s.queue != [] && s.queue[0].Ask? && s.queue[0].who != Poll
    requires k in s.db && s.db[k].status == Watches(s.queue[0].who, s.phase)
    ensures !Queued(s.queue[1..], k.requestId)
  {
    var who := s.queue[0].who;
    UniqueKey(s.db, k);
    forall i | 0 <= i < |s.queue[1..]| && s.queue[1..][i].Write?
      ensures s.queue[1..][i].statement.requestId != k.requestId
    {
      var item := s.queue[i + 1];
      assert item == s.queue[1..][i] && WriteOk(n, s, item);
      assert item.who != who;
      assert FromStartup(s.queue, i + 1) ==> FromStartup(s.queue, 0);
    }
  }

  lemma AnsweredAsks(s: Node, who: Source, todo: Table)
    requires AsksOk(s) && s.queue != [] && s.queue[0].Ask? && s.queue[0].who == who && who != Poll
    ensures AsksOk(WithLocal(s.(queue := s.queue[1..]), who, Working(todo)))
  {
  }

  lemma AnsweredStartupFirst(s: Node, who: Source, todo: Table)
    requires StartupFirst(s) && s.queue != [] && s.queue[0].Ask? && s.queue[0].who == who
    requires LocalOf(s, who).Waiting?
    requires StartupFirst(s.(queue := s.queue[1..]))
    ensures StartupFirst(WithLocal(s.(queue := s.queue[1..]), who, Working(todo)))
  {
    var rest := s.(queue := s.queue[1..]);
    var s' := WithLocal(rest, who, Working(todo));
    LocalsAfter(rest, who, Working(todo));
    assert FromStartup(s.queue, 0) == (who == Startup);
    assert forall x :: LocalOf(rest, x) == LocalOf(s, x) && Todo(rest, x) == Todo(s, x);
    assert forall i :: 0 <= i < |s'.queue| ==>
      FromStartup(s'.queue, i) == FromStartup(s.queue, i + 1)
      && FromStartup(s'.queue, i) == FromStartup(rest.queue, i);
  }

  /** The poller's lookup is answered from a database that holds all its earlier inserts. */
  lemma WorkerAnswersPoll(n: int, s: Node, ok: bool)
    requires Inv(n, s) && s.queue != [] && s.queue[0].Ask? && s.queue[0].who == Poll
    ensures Inv(n, WorkerStep(s, ok))
    ensures WorkerStep(s, ok).poll == PollAnswered(s.poll.offer, HasId(s.db, s.poll.offer.requestId))
  {
    var rest, s', offer := s.(queue := s.queue[1..]), WorkerStep(s, ok), s.poll.offer;
    DropHead(n, s);
    LookupFinds(s.db, offer.requestId);
    assert forall i :: 0 <= i < |s'.queue| ==> s'.queue[i] == s.queue[i + 1] && s'.queue[i].who != Poll;
    assert FromStartup(s.queue, 0) == false;
    assert s' == rest.(poll := PollAnswered(offer, s'.poll.known));
    WritesUnaffected(n, rest, s');
    PollStateOnly(rest, s'.poll);
    PollAnsweredAsks(rest, s'.poll);
  }

  lemma LookupFinds(db: Table, id: int)
    ensures HasId(db, id) <==> Select(db, WithRequestId(id)) != map[]
  {
    if HasId(db, id) {
      assert KeyOf(db, id) in Select(db, WithRequestId(id));
    }
    forall key | key in Select(db, WithRequestId(id)) ensures HasId(db, id) {
      SelectIff(db, key);
      match key.kind
      case Audit => assert key == Key(id, Audit);
      case PoliceCheck => assert key == Key(id, PoliceCheck);
    }
  }

  lemma PollAnsweredAsks(s: Node, poll: PollState)
    requires AsksOk(s) && forall i :: 0 <= i < |s.queue| ==> s.queue[i].who != Poll
    ensures AsksOk(s.(poll := poll))
  {
  }

  // -------------------------------------------------------- the handlers

  lemma IntTextIsText(v: int)
    ensures IsIntText(IntText(v)) && IntOf(IntText(v)) == v
  {
    ParseIntText(v);
  }

  /** The outcome of a handler fits the row it was called on. */
  predicate OutcomeFits(n: int, who: Source, o: Outcome, k: Key, row: Row, finished: Seen)
    requires TextOk(row)
  {
    o.Writes? ==>
      o.statement.requestId == k.requestId && Fits(n, who, o.statement, row, finished)
  }

  lemma TimeoutFits(n: int, k: Key, row: Row, finished: Seen,
                    h: int, limit: int, discard: int, puts: Puts)
    requires TextOk(row) && Owns(Startup, row.status)
    ensures Decode(k, row).Some?
    ensures OutcomeFits(n, Startup, TimeoutStale(Decode(k, row).value, h, limit, discard, puts),
                        k, row, finished)
  {
  }

  lemma AuditFits(n: int, k: Key, row: Row, finished: Seen,
                  reply: AuditReply, trace: string, puts: Puts)
    requires TextOk(row) && Owns(Perform, row.status)
    ensures Decode(k, row).Some?
    ensures OutcomeFits(n, Perform, ProcessAudit(Decode(k, row).value, reply, trace, puts),
                        k, row, finished)
  {
    DecodeThenEncode(k, row);
    if reply.Produced? {
      IntTextIsText(reply.block);
    }
  }

  lemma SubmissionFits(n: int, k: Key, row: Row, finished: Seen,
                       reply: SubmitReply, trace: string, puts: Puts)
    requires TextOk(row) && Owns(Submit, row.status)
    ensures Decode(k, row).Some?
    ensures OutcomeFits(n, Submit, ProcessSubmission(Decode(k, row).value, reply, trace, puts),
                        k, row, finished)
  {
  }

  /** The event carries what its submitted row holds. */
  predicate Mirrors(evt: Event, k: Key, row: Row) {
    && evt.key == k && evt.attempts == row.attempts && evt.report == row.report
    && BlockText(evt.submissionBlock) == row.submissionBlock
    && row.status.Submitted? && TextOk(row)
  }

  lemma MonitorPutFits(n: int, k: Key, row: Row, finished: Seen,
                       evt: Event, w: Statement, message: string, puts: Puts)
    requires Mirrors(evt, k, row)
    requires w.requestId == k.requestId && Fits(n, Monitor, w, row, finished)
    ensures OutcomeFits(n, Monitor, MonitorFailed(evt, message, puts.second), k, row, finished)
    ensures OutcomeFits(n, Monitor, MonitorPut(evt, w, message, puts), k, row, finished)
  {
  }

  lemma FinishedFits(n: int, k: Key, row: Row, finished: Seen, evt: Event, current: int,
                     message: string, puts: Puts)
    requires Mirrors(evt, k, row) && SeenAt(finished, k.requestId, current)
    requires evt.submissionBlock.Some? ==>
      row.submissionBlock.Some? && IntOf(row.submissionBlock.value) == evt.submissionBlock.value
    ensures OutcomeFits(n, Monitor, WhenFinished(evt, current, n, message, puts), k, row, finished)
  {
    MonitorPutFits(n, k, row, finished, evt, ErrorOf(evt), message, puts);
    if evt.submissionBlock.Some? && current - evt.submissionBlock.value >= n {
      var noted := evt.(statusInfo := Some("Report successfully submitted"));
      MonitorPutFits(n, k, row, finished, noted, DoneOf(noted), message, puts);
    }
  }

  lemma UnfinishedFits(n: int, k: Key, row: Row, finished: Seen, evt: Event, limit: int, current: int,
                       message: string, puts: Puts)
    requires Mirrors(evt, k, row)
    ensures OutcomeFits(n, Monitor, WhenUnfinished(evt, limit, current, message, puts), k, row, finished)
  {
    if current >= evt.assignedBlock + limit {
      var noted := evt.(statusInfo := Some(OutsideInfo(limit)));
      MonitorPutFits(n, k, row, finished, noted, ErrorOf(noted), message, puts);
    } else if evt.attempts + 1 > MAX_SUBMISSION_ATTEMPTS {
      var noted := evt.(statusInfo := Some(REACHED_MAXIMUM));
      MonitorPutFits(n, k, row, finished, noted, ErrorOf(noted), message, puts);
    } else {
      var noted := evt.(statusInfo := Some(RetryInfo(evt)), txHash := None);
      MonitorPutFits(n, k, row, finished, noted, ToBeSubmittedOf(noted), message, puts);
    }
  }

  lemma DecodedMirrors(k: Key, row: Row)
    requires TextOk(row) && row.status.Submitted?
    ensures Decode(k, row).Some? && Mirrors(Decode(k, row).value, k, row)
    ensures var evt := Decode(k, row).value;
            evt.submissionBlock.Some? ==>
              row.submissionBlock.Some? && IntOf(row.submissionBlock.value) == evt.submissionBlock.value
  {
    DecodeThenEncode(k, row);
  }

  lemma MirrorFits(n: int, k: Key, row: Row, finished: Seen, evt: Event, limit: int,
                   done: Call<bool>, block: Call<int>, message: string, puts: Puts)
    requires Mirrors(evt, k, row)
    requires evt.submissionBlock.Some? ==>
      row.submissionBlock.Some? && IntOf(row.submissionBlock.value) == evt.submissionBlock.value
    requires done == Returns(true) && block.Returns? ==> SeenAt(finished, k.requestId, block.value)
    ensures OutcomeFits(n, Monitor, MonitorSubmission(evt, limit, done, block, n, message, puts),
                        k, row, finished)
  {
    if !done.Returns? || !block.Returns? {
      MonitorPutFits(n, k, row, finished, evt, ErrorOf(evt), message, puts);
    } else if done.value {
      FinishedFits(n, k, row, finished, evt, block.value, message, puts);
    } else {
      UnfinishedFits(n, k, row, finished, evt, limit, block.value, message, puts);
    }
  }

  lemma MonitorFits(n: int, k: Key, row: Row, finished: Seen, limit: int,
                    done: Call<bool>, block: Call<int>, message: string, puts: Puts)
    requires TextOk(row) && Owns(Monitor, row.status) && 0 <= row.attempts
    requires done == Returns(true) && block.Returns? ==> SeenAt(finished, k.requestId, block.value)
    ensures Decode(k, row).Some?
    ensures OutcomeFits(n, Monitor,
                        MonitorSubmission(Decode(k, row).value, limit, done, block, n, message, puts),
                        k, row, finished)
  {
    DecodedMirrors(k, row);
    MirrorFits(n, k, row, finished, Decode(k, row).value, limit, done, block, message, puts);
  }

  /** Whatever a handler decides about a row of its thread fits that row. */
  lemma VerdictFits(n: int, who: Source, k: Key, row: Row, input: Input, offered: Seen, finished: Seen)
    requires RowOk(n, k, row, offered, finished) && Owns(who, row.status) && InputFor(who, input)
    ensures Grows(finished, SeenFinished(finished, k.requestId, input))
    ensures OutcomeFits(n, who, Verdict(n, k, row, input), k, row,
                        SeenFinished(finished, k.requestId, input))
  {
    var finished' := SeenFinished(finished, k.requestId, input);
    match input
    case StaleInput(h, limit, discard, puts) =>
      TimeoutFits(n, k, row, finished', h, limit, discard, puts);
    case AuditInput(reply, trace, puts) =>
      AuditFits(n, k, row, finished', reply, trace, puts);
    case SubmitInput(sent, trace, puts) =>
      SubmissionFits(n, k, row, finished', sent, trace, puts);
    case MonitorInput(limit, done, block, message, puts) =>
      MonitorFits(n, k, row, finished', limit, done, block, message, puts);
  }

  lemma HandleKeeps(n: int, s: Node, who: Source, key: Key, input: Input)
    requires Inv(n, s) && Enabled(n, s, Handle(who, key, input))
    ensures Inv(n, HandleStep(n, s, who, key, input))
  {
    var row, todo := Todo(s, who)[key], Todo(s, who);
    assert row == s.db[key] && Owns(who, row.status) && RowOk(n, key, row, s.offered, s.finished);
    VerdictFits(n, who, key, row, input, s.offered, s.finished);
    var seen := s.(finished := SeenFinished(s.finished, key.requestId, input));
    SeenMore(n, s, s.offered, seen.finished);
    assert seen == s.(offered := s.offered, finished := seen.finished);
    HandledIsFree(n, s, who, key);
    AfterVerdict(n, seen, who, key, Verdict(n, key, row, input));
  }

  lemma AfterVerdict(n: int, s: Node, who: Source, key: Key, o: Outcome)
    requires Inv(n, s) && key in Todo(s, who) && TextOk(s.db[key])
    requires OutcomeFits(n, who, o, key, s.db[key], s.finished)
    ensures var shrunk := WithLocal(s, who, Working(Todo(s, who) - {key}));
            match o
            case Dies => Inv(n, WithLocal(s, who, Working(map[])))
            case Nothing => Inv(n, shrunk)
            case Writes(w) => Inv(n, shrunk.(queue := s.queue + [Write(who, w)]))
  {
    match o
    case Dies => ShrinkTodo(n, s, who, map[]);
    case Nothing => ShrinkTodo(n, s, who, Todo(s, who) - {key});
    case Writes(w) => AfterWrite(n, s, who, key, w);
  }

  lemma AfterWrite(n: int, s: Node, who: Source, key: Key, w: Statement)
    requires Inv(n, s) && key in Todo(s, who) && TextOk(s.db[key])
    requires w.requestId == key.requestId && Fits(n, who, w, s.db[key], s.finished)
    ensures Inv(n, WithLocal(s, who, Working(Todo(s, who) - {key})).(queue := s.queue + [Write(who, w)]))
  {
    ShrinkTodo(n, s, who, Todo(s, who) - {key});
    OthersApart(n, s, who, key);
    QueueVerdict(n, WithLocal(s, who, Working(Todo(s, who) - {key})), who, key, w);
  }

  /** Without its entry nothing else concerns the event. */
  lemma OthersApart(n: int, s: Node, who: Source, key: Key)
    requires Inv(n, s) && key in Todo(s, who)
    ensures who != Poll && !Queued(s.queue, key.requestId) && (who == Startup <==> !s.phase.Running?)
    ensures var shrunk := WithLocal(s, who, Working(Todo(s, who) - {key}));
            forall x, k :: k in Todo(shrunk, x) ==> k.requestId != key.requestId
  {
    var shrunk := WithLocal(s, who, Working(Todo(s, who) - {key}));
    HandledIsFree(n, s, who, key);
    LocalsAfter(s, who, Working(Todo(s, who) - {key}));
    forall x, k | k in Todo(shrunk, x) ensures k.requestId != key.requestId {
      assert k in Todo(s, x);
    }
  }

  /** No queued write and no other snapshot entry concerns the entry a thread is working on. */
  lemma HandledIsFree(n: int, s: Node, who: Source, key: Key)
    requires Inv(n, s) && key in Todo(s, who)
    ensures !Queued(s.queue, key.requestId)
    ensures forall x, k :: k in Todo(s, x) && k.requestId == key.requestId ==> x == who && k == key
    ensures who == Startup <==> !s.phase.Running?
  {
  }

  lemma QueueVerdict(n: int, s: Node, who: Source, key: Key, w: Statement)
    requires Inv(n, s) && who != Poll && key in s.db && w.requestId == key.requestId
    requires LocalOf(s, who).Working? && (who == Startup <==> !s.phase.Running?)
    requires Fits(n, who, w, s.db[key], s.finished)
    requires !Queued(s.queue, key.requestId)
    requires forall x, k :: k in Todo(s, x) ==> k.requestId != key.requestId
    ensures Inv(n, s.(queue := s.queue + [Write(who, w)]))
  {
    UniqueKey(s.db, key);
    AppendWrite(n, s, Write(who, w));
  }

  lemma DecideKeeps(n: int, s: Node, puts: Puts)
    requires Inv(n, s) && s.poll.PollAnswered?
    ensures Inv(n, DecideStep(n, s, puts))
  {
    var idle, offer := s.(poll := PollIdle), s.poll.offer;
    PollGoesIdle(n, s);
    match ProcessOffer(offer, s.poll.known, n, puts)
    case Writes(w) =>
      IntTextIsText(offer.assignedBlock);
      IntTextIsText(offer.price);
      AbsentIsFree(n, s, offer.requestId);
      assert forall x :: Todo(idle, x) == Todo(s, x);
      AppendWrite(n, idle, Write(Poll, w));
    case _ =>
  }

  lemma PollGoesIdle(n: int, s: Node)
    requires Inv(n, s) && s.poll.PollAnswered?
    ensures Inv(n, s.(poll := PollIdle))
  {
    var s' := s.(poll := PollIdle);
    assert forall who :: LocalOf(s', who) == LocalOf(s, who) && Todo(s', who) == Todo(s, who);
    WritesUnaffected(n, s, s');
  }

  /** Once the lookup says an id is absent, nothing anywhere concerns that id. */
  lemma AbsentIsFree(n: int, s: Node, id: int)
    requires Inv(n, s) && s.poll.PollAnswered? && !HasId(s.db, id)
    ensures !Queued(s.queue, id)
    ensures forall who, k :: k in Todo(s, who) ==> k.requestId != id
    ensures s.phase.Running?
  {
    forall i | 0 <= i < |s.queue| && s.queue[i].Write? ensures s.queue[i].statement.requestId != id {
      assert WriteOk(n, s, s.queue[i]);
    }
    forall who, k | k in Todo(s, who) ensures k.requestId != id {
      UniqueKey(s.db, k);
    }
  }

  // ------------------------------------------------------ asking and phases

  lemma AppendAskRest(n: int, s: Node, item: Item)
    requires Inv(n, s) && item.Ask? && (item.who == Startup <==> !s.phase.Running?)
    ensures var s' := s.(queue := s.queue + [item]);
            && RowsOk(n, s') && WritesOk(n, s') && WritesApart(s'.queue) && SnapshotsOk(s')
            && StartupFirst(s')
  {
    AppendToWrites(n, s, item);
    AppendToSnapshots(s, item);
    StartupFirstAppend(s, item);
  }

  lemma FetchKeeps(n: int, s: Node, who: Source)
    requires Inv(n, s) && Enabled(n, s, Fetch(who))
    ensures Inv(n, Next(n, s, Fetch(who)))
  {
    var item := Ask(who, WithStatus(Watches(who, s.phase)));
    var mid, s' := s.(queue := s.queue + [item]), Next(n, s, Fetch(who));
    AppendAskRest(n, s, item);
    assert s' == WithLocal(mid, who, Waiting);
    FetchLocals(mid, who);
    WritesUnaffected(n, mid, s');
    FetchAsks(s, who, item, s');
  }

  lemma FetchLocals(s: Node, who: Source)
    requires SnapshotsOk(s) && StartupFirst(s) && Todo(s, who) == map[]
    requires who == Startup <==> !s.phase.Running?
    ensures SnapshotsOk(WithLocal(s, who, Waiting)) && StartupFirst(WithLocal(s, who, Waiting))
  {
    var s' := WithLocal(s, who, Waiting);
    LocalsAfter(s, who, Waiting);
    assert forall x :: Todo(s', x) == Todo(s, x);
    assert forall i :: 0 <= i < |s'.queue| ==> FromStartup(s'.queue, i) == FromStartup(s.queue, i);
  }

  lemma FetchAsks(s: Node, who: Source, item: Item, s': Node)
    requires AsksOk(s) && who != Poll && !LocalOf(s, who).Waiting?
    requires item == Ask(who, WithStatus(Watches(who, s.phase)))
    requires s' == WithLocal(s, who, Waiting).(queue := s.queue + [item])
    ensures AsksOk(s')
  {
  }

  lemma OfferKeeps(n: int, s: Node, offer: Offer)
    requires Inv(n, s) && Enabled(n, s, MakeOffer(offer))
    ensures Inv(n, Next(n, s, MakeOffer(offer)))
  {
    var item := Ask(Poll, WithRequestId(offer.requestId));
    var seen := s.(offered := Note(s.offered, offer.requestId, offer.currentBlock));
    SeenMore(n, s, seen.offered, s.finished);
    assert seen == s.(offered := seen.offered, finished := s.finished);
    AppendAskRest(n, seen, item);
    OfferAsks(seen, offer, item);
    var mid, s' := seen.(queue := s.queue + [item]), Next(n, s, MakeOffer(offer));
    WritesUnaffected(n, mid, s');
    PollStateOnly(mid, PollWaiting(offer));
    assert s' == mid.(poll := PollWaiting(offer));
  }

  lemma OfferAsks(s: Node, offer: Offer, item: Item)
    requires AsksOk(s) && s.poll.PollIdle? && item == Ask(Poll, WithRequestId(offer.requestId))
    ensures AsksOk(s.(queue := s.queue + [item], poll := PollWaiting(offer)))
  {
  }

  lemma PollStateOnly(s: Node, poll: PollState)
    requires SnapshotsOk(s) && StartupFirst(s) && s.phase.Running?
    ensures SnapshotsOk(s.(poll := poll)) && StartupFirst(s.(poll := poll))
  {
    var s' := s.(poll := poll);
    assert forall x :: LocalOf(s', x) == LocalOf(s, x) && Todo(s', x) == Todo(s, x);
  }

  lemma AdvanceLocals(n: int, s: Node)
    requires Enabled(n, s, StartupAdvances)
    ensures var s' := Next(n, s, StartupAdvances);
            && LocalOf(s', Startup) == Idle && (forall x :: Todo(s', x) == Todo(s, x))
            && forall x :: x != Startup ==> LocalOf(s', x) == LocalOf(s, x)
  {
  }

  lemma AdvanceThreads(n: int, s: Node)
    requires Enabled(n, s, StartupAdvances) && SnapshotsOk(s) && AsksOk(s) && StartupFirst(s)
    ensures var s' := Next(n, s, StartupAdvances);
            SnapshotsOk(s') && AsksOk(s') && StartupFirst(s')
  {
    var s' := Next(n, s, StartupAdvances);
    AdvanceLocals(n, s);
    assert forall i :: 0 <= i < |s'.queue| ==> FromStartup(s.queue, i) && FromStartup(s'.queue, i);
    assert forall i :: 0 <= i < |s'.queue| ==> s'.queue[i].Write?;
  }

  lemma AdvanceKeeps(n: int, s: Node)
    requires Inv(n, s) && Enabled(n, s, StartupAdvances)
    ensures Inv(n, Next(n, s, StartupAdvances))
  {
    AdvanceLocals(n, s);
    AdvanceThreads(n, s);
    WritesUnaffected(n, s, Next(n, s, StartupAdvances));
  }

  lemma RestartKeeps(n: int, s: Node)
    requires Inv(n, s)
    ensures Inv(n, Next(n, s, Restart))
  {
  }

  /** The invariant holds of a fresh database and every step keeps it. */
  lemma FreshInv(n: int)
    ensures Inv(n, FRESH)
  {
  }

  lemma StepKeeps(n: int, s: Node, a: Action)
    requires Inv(n, s)
    ensures Inv(n, Step(n, s, a))
  {
    if Enabled(n, s, a) {
      match a
      case WorkerTurn(ok) =>
        if s.queue[0].Write? {
          WorkerWrites(n, s, ok);
        } else if s.queue[0].who == Poll {
          WorkerAnswersPoll(n, s, ok);
        } else {
          WorkerAnswersThread(n, s, ok);
        }
      case Fetch(who) => FetchKeeps(n, s, who);
      case Handle(who, key, input) => HandleKeeps(n, s, who, key, input);
      case Abandon(who) => ShrinkTodo(n, s, who, map[]);
      case StartupAdvances => AdvanceKeeps(n, s);
      case MakeOffer(offer) => OfferKeeps(n, s, offer);
      case Decide(puts) => DecideKeeps(n, s, puts);
      case Restart => RestartKeeps(n, s);
    }
  }

  lemma {:induction false} ExecKeeps(n: int, s: Node, actions: seq<Action>)
    requires Inv(n, s)
    ensures Inv(n, Exec(n, s, actions))
    decreases |actions|
  {
    if actions != [] {
      StepKeeps(n, s, actions[0]);
      ExecKeeps(n, Step(n, s, actions[0]), actions[1..]);
    }
  }
}
