/** Full rounds of the threads: select, work on every selected event, let the worker catch up. */
module NodeRounds {
  import opened Wrappers
  import opened EventTable
  import opened Handlers
  import opened AuditNode
  import opened NodeInvariant
  import opened NodeSteps
  import opened NodeTheorems
  import opened NodeDecisions

  /** What the outside answers when a thread works on an event. */
  type Answers = (Source, Key, Row) -> Input

  // --------------------------------------------------------------- sequences

  lemma {:induction false} ExecConcat(n: int, s: Node, a: seq<Action>, b: seq<Action>)
    ensures Exec(n, s, a + b) == Exec(n, Exec(n, s, a), b)
    decreases |a|
  {
    if a == [] {
      assert a + b == b;
    } else {
      assert (a + b)[0] == a[0] && (a + b)[1..] == a[1..] + b;
      ExecConcat(n, Step(n, s, a[0]), a[1..], b);
    }
  }

  lemma ExecOne(n: int, s: Node, a: Action)
    ensures Exec(n, s, [a]) == Step(n, s, a)
  {
    assert [a][1..] == [];
  }

  /** The keys of a table in some order. */
  predicate Lists(order: seq<Key>, table: Table) {
    && (forall k :: k in order ==> k in table) && (forall k :: k in table ==> k in order)
    && (forall i, j :: 0 <= i < j < |order| ==> order[i] != order[j])
  }

  ghost function Listing(table: Table): (order: seq<Key>)
    ensures Lists(order, table)
    decreases |table|
  {
    if table == map[] then []
    else
      var k :| k in table;
      [k] + Listing(table - {k})
  }

  // ------------------------------------------------------------------ a round

  function HandleAll(who: Source, order: seq<Key>, rows: Table, answers: Answers): seq<Action>
    requires forall k :: k in order ==> k in rows
  {
    if order == [] then []
    else [Handle(who, order[0], answers(who, order[0], rows[order[0]]))]
         + HandleAll(who, order[1..], rows, answers)
  }

  function Turns(count: nat): seq<Action> {
    if count == 0 then [] else [WorkerTurn(true)] + Turns(count - 1)
  }

  /** The events a thread selects. */
  function Watched(s: Node, who: Source): Table {
    Select(s.db, WithStatus(Watches(who, s.phase)))
  }

  /** One round of a thread over all its events, in this order, and the worker's turns after it. */
  function Round(s: Node, who: Source, order: seq<Key>, answers: Answers): seq<Action>
    requires Lists(order, Watched(s, who))
  {
    [Fetch(who)] + ([WorkerTurn(true)] + (HandleAll(who, order, s.db, answers) + Turns(|order|)))
  }

  /** Nothing is queued, and no thread has begun anything. */
  predicate Resting(s: Node) {
    && s.queue == [] && s.poll.PollIdle?
    && forall who :: LocalOf(s, who).Idle? || LocalOf(s, who) == Working(map[])
  }

  /** The answers let the thread finish its work on the event. */
  predicate Survives(n: int, who: Source, k: Key, row: Row, answers: Answers) {
    InputFor(who, answers(who, k, row)) && !Verdict(n, k, row, answers(who, k, row)).Dies?
  }

  /** The write a verdict asks for. */
  function WriteOf(who: Source, o: Outcome): seq<Item> {
    match o
    case Writes(w) => [Write(who, w)]
    case _ => []
  }

  /** The writes a thread queues while it works through its events. */
  function WritesOf(n: int, who: Source, order: seq<Key>, rows: Table, answers: Answers): seq<Item>
    requires forall k :: k in order ==> k in rows
  {
    if order == [] then []
    else
      var k := order[0];
      WriteOf(who, Verdict(n, k, rows[k], answers(who, k, rows[k])))
      + WritesOf(n, who, order[1..], rows, answers)
  }

  /** Same database and same threads but for one. */
  predicate OnlyThread(s: Node, s': Node, who: Source) {
    && s'.db == s.db && s'.poll == s.poll && s'.phase == s.phase
    && forall x :: x != who ==> LocalOf(s', x) == LocalOf(s, x)
  }

  lemma HandleIsLocal(n: int, s: Node, who: Source, k: Key, input: Input)
    requires k in Todo(s, who) && InputFor(who, input) && !Verdict(n, k, Todo(s, who)[k], input).Dies?
    ensures var s' := Step(n, s, Handle(who, k, input));
            && s'.locals == WithLocal(s, who, Working(Todo(s, who) - {k})).locals
            && s'.db == s.db && s'.poll == s.poll && s'.phase == s.phase
            && s'.queue == s.queue + WriteOf(who, Verdict(n, k, Todo(s, who)[k], input))
  {
  }

  lemma HandleFirst(n: int, s: Node, who: Source, k: Key, input: Input)
    requires k in Todo(s, who) && InputFor(who, input) && !Verdict(n, k, Todo(s, who)[k], input).Dies?
    ensures var s' := Step(n, s, Handle(who, k, input));
            && OnlyThread(s, s', who) && LocalOf(s', who) == Working(Todo(s, who) - {k})
            && s'.queue == s.queue + WriteOf(who, Verdict(n, k, Todo(s, who)[k], input))
  {
    LocalsAfter(s, who, Working(Todo(s, who) - {k}));
    HandleIsLocal(n, s, who, k, input);
  }

  lemma ListsRest(order: seq<Key>, table: Table)
    requires order != [] && Lists(order, table)
    ensures order[0] in table && Lists(order[1..], table - {order[0]})
  {
    assert order[0] in order;
    forall k ensures k in order[1..] <==> k in table - {order[0]} {
      assert k in order <==> k == order[0] || k in order[1..];
    }
  }

  /** The thread has nothing left to do and has queued these writes. */
  predicate AllHandled(s: Node, s': Node, who: Source, writes: seq<Item>) {
    OnlyThread(s, s', who) && LocalOf(s', who) == Working(map[]) && s'.queue == s.queue + writes
  }

  lemma FirstThenRest(s: Node, s1: Node, s': Node, who: Source, first: seq<Item>, rest: seq<Item>)
    requires OnlyThread(s, s1, who) && s1.queue == s.queue + first && AllHandled(s1, s', who, rest)
    ensures AllHandled(s, s', who, first + rest)
  {
    assert s.queue + (first + rest) == s.queue + first + rest;
  }

  /** Working through the whole snapshot. */
  lemma {:induction false} HandlesAll(n: int, s: Node, who: Source, order: seq<Key>, rows: Table, answers: Answers)
    requires LocalOf(s, who).Working? && Lists(order, Todo(s, who))
    requires forall k :: k in Todo(s, who) ==> k in rows && rows[k] == Todo(s, who)[k]
    requires forall k :: k in Todo(s, who) ==> Survives(n, who, k, rows[k], answers)
    ensures forall k :: k in order ==> k in rows
    ensures AllHandled(s, Exec(n, s, HandleAll(who, order, rows, answers)), who,
                       WritesOf(n, who, order, rows, answers))
    decreases |order|
  {
    if order == [] {
      assert Todo(s, who) == map[];
    } else {
      var k := order[0];
      ListsRest(order, Todo(s, who));
      var a := Handle(who, k, answers(who, k, rows[k]));
      HandleFirst(n, s, who, k, a.input);
      var s1 := Step(n, s, a);
      HandlesAll(n, s1, who, order[1..], rows, answers);
      var actions := HandleAll(who, order, rows, answers);
      assert actions[0] == a && actions[1..] == HandleAll(who, order[1..], rows, answers);
      FirstThenRest(s, s1, Exec(n, s1, actions[1..]), who,
                    WriteOf(who, Verdict(n, k, rows[k], a.input)),
                    WritesOf(n, who, order[1..], rows, answers));
    }
  }

  // ------------------------------------------------------------------- drain

  predicate AllWrites(queue: seq<Item>) {
    forall i :: 0 <= i < |queue| ==> queue[i].Write?
  }

  /** The row after the queued updates. */
  function AfterWrites(queue: seq<Item>, k: Key, row: Row): Row {
    if queue == [] then row
    else AfterWrites(queue[1..], k,
                     if queue[0].Write? && queue[0].statement.requestId == k.requestId
                     then Updated(queue[0].statement, row) else row)
  }

  lemma TurnTakes(n: int, s: Node)
    requires s.queue != [] && s.queue[0].Write?
    ensures var s' := Step(n, s, WorkerTurn(true));
            s'.queue == s.queue[1..] && s'.locals == s.locals && s'.poll == s.poll && s'.phase == s.phase
  {
  }

  lemma {:induction false} IdleTurns(n: int, s: Node, count: nat)
    requires s.queue == []
    ensures Exec(n, s, Turns(count)) == s
  {
    if count > 0 {
      assert Turns(count)[1..] == Turns(count - 1);
      IdleTurns(n, s, count - 1);
    }
  }

  /** Enough turns empty the queue and leave the threads alone. */
  lemma {:induction false} Drains(n: int, s: Node, count: nat)
    requires AllWrites(s.queue) && count >= |s.queue|
    ensures var s' := Exec(n, s, Turns(count));
            s'.queue == [] && s'.locals == s.locals && s'.poll == s.poll && s'.phase == s.phase
    decreases count
  {
    if s.queue == [] {
      IdleTurns(n, s, count);
    } else {
      TurnTakes(n, s);
      assert Turns(count)[1..] == Turns(count - 1);
      Drains(n, Step(n, s, WorkerTurn(true)), count - 1);
    }
  }

  predicate OnlyUpdates(queue: seq<Item>) {
    forall i :: 0 <= i < |queue| ==> queue[i].Write? && !queue[i].statement.AddAssigned?
  }

  /** Every queued write is an update whose guard lets it through, and each request has one at most. */
  predicate Ready(queue: seq<Item>, db: Table) {
    && OnlyUpdates(queue) && WritesApart(queue)
    && forall i, k :: 0 <= i < |queue| && k in db && k.requestId == queue[i].statement.requestId ==>
         Guard(queue[i].statement, db[k].status)
  }

  predicate RowAfter(s: Node, k: Key, row: Row) {
    k in s.db && s.db[k] == row
  }

  lemma TurnsFirst(n: int, s: Node, count: nat)
    requires count > 0
    ensures Exec(n, s, Turns(count)) == Exec(n, Step(n, s, WorkerTurn(true)), Turns(count - 1))
  {
    assert Turns(count)[1..] == Turns(count - 1);
  }

  lemma TurnReady(n: int, s: Node)
    requires s.queue != [] && Ready(s.queue, s.db)
    ensures var s1 := Step(n, s, WorkerTurn(true));
            && Ready(s1.queue, s1.db)
            && forall k :: k in s.db ==>
                 RowAfter(s1, k, if s.queue[0].statement.requestId == k.requestId
                                 then Updated(s.queue[0].statement, s.db[k]) else s.db[k])
  {
    var s1 := Step(n, s, WorkerTurn(true));
    assert s1.db == Run(s.db, s.queue[0].statement) && s1.queue == s.queue[1..];
    forall i, k | 0 <= i < |s1.queue| && k in s1.db && k.requestId == s1.queue[i].statement.requestId
      ensures Guard(s1.queue[i].statement, s1.db[k].status)
    {
      assert s1.queue[i] == s.queue[i + 1];
    }
  }

  /** Each row ends as the queued updates for it say. */
  lemma {:induction false} DrainsRow(n: int, s: Node, count: nat, k: Key)
    requires Ready(s.queue, s.db) && count >= |s.queue| && k in s.db
    ensures RowAfter(Exec(n, s, Turns(count)), k, AfterWrites(s.queue, k, s.db[k]))
    decreases count
  {
    if s.queue == [] {
      IdleTurns(n, s, count);
    } else {
      TurnTakes(n, s);
      TurnReady(n, s);
      TurnsFirst(n, s, count);
      var s1 := Step(n, s, WorkerTurn(true));
      DrainsRow(n, s1, count - 1, k);
      assert AfterWrites(s.queue, k, s.db[k]) == AfterWrites(s1.queue, k, s1.db[k]);
    }
  }

  lemma {:induction false} DrainsKeys(n: int, s: Node, count: nat)
    requires OnlyUpdates(s.queue) && count >= |s.queue|
    ensures Exec(n, s, Turns(count)).db.Keys == s.db.Keys
    decreases count
  {
    if s.queue == [] {
      IdleTurns(n, s, count);
    } else {
      var s1 := Step(n, s, WorkerTurn(true));
      TurnTakes(n, s);
      TurnsFirst(n, s, count);
      assert s1.db.Keys == s.db.Keys;
      DrainsKeys(n, s1, count - 1);
    }
  }

  // ------------------------------------------------- the writes of one round

  /** A write of this outcome is an update of this request. */
  predicate UpdatesOnly(id: int, o: Outcome) {
    o.Writes? ==> o.statement.requestId == id && !o.statement.AddAssigned?
  }

  lemma DecisionFits(n: int, s: Node, who: Source, k: Key, input: Input)
    requires Inv(n, s) && k in s.db && Owns(who, s.db[k].status) && InputFor(who, input)
    ensures UpdatesOnly(k.requestId, Verdict(n, k, s.db[k], input))
  {
    VerdictFits(n, who, k, s.db[k], input, s.offered, s.finished);
  }

  /** Whatever the thread decides on these events concerns the event. */
  predicate DecisionsFit(n: int, who: Source, order: seq<Key>, rows: Table, answers: Answers) {
    forall k :: k in order ==>
      k in rows && UpdatesOnly(k.requestId, Verdict(n, k, rows[k], answers(who, k, rows[k])))
  }

  lemma {:induction false} WritesAreUpdates(n: int, who: Source, order: seq<Key>, rows: Table, answers: Answers)
    requires DecisionsFit(n, who, order, rows, answers)
    ensures OnlyUpdates(WritesOf(n, who, order, rows, answers))
    ensures |WritesOf(n, who, order, rows, answers)| <= |order|
    ensures forall i :: 0 <= i < |WritesOf(n, who, order, rows, answers)| ==>
              WritesOf(n, who, order, rows, answers)[i].who == who
  {
    if order != [] {
      assert order[0] in order;
      WritesAreUpdates(n, who, order[1..], rows, answers);
    }
  }

  lemma AfterWriteOf(who: Source, o: Outcome, rest: seq<Item>, k: Key, row: Row)
    ensures AfterWrites(WriteOf(who, o) + rest, k, row)
            == AfterWrites(rest, k, if o.Writes? && o.statement.requestId == k.requestId
                                    then Updated(o.statement, row) else row)
  {
    if o.Writes? {
      assert ([Write(who, o.statement)] + rest)[1..] == rest;
    } else {
      assert WriteOf(who, o) + rest == rest;
    }
  }

  lemma {:induction false} OthersNotWritten(n: int, who: Source, order: seq<Key>, rows: Table, answers: Answers,
                                            k: Key, row: Row)
    requires UniqueIds(rows) && k in rows && k !in order && DecisionsFit(n, who, order, rows, answers)
    ensures AfterWrites(WritesOf(n, who, order, rows, answers), k, row) == row
  {
    if order != [] {
      var o := Verdict(n, order[0], rows[order[0]], answers(who, order[0], rows[order[0]]));
      assert order[0] in order;
      AfterWriteOf(who, o, WritesOf(n, who, order[1..], rows, answers), k, row);
      OthersNotWritten(n, who, order[1..], rows, answers, k, row);
    }
  }

  /** The row after the one write, if any, that the thread decides on. */
  function Decided(n: int, who: Source, k: Key, row: Row, answers: Answers): Row {
    match Verdict(n, k, row, answers(who, k, row))
    case Writes(w) => Updated(w, row)
    case _ => row
  }

  lemma {:induction false} WrittenOnce(n: int, who: Source, order: seq<Key>, rows: Table, answers: Answers, k: Key)
    requires UniqueIds(rows) && k in order && DecisionsFit(n, who, order, rows, answers)
    requires forall i, j :: 0 <= i < j < |order| ==> order[i] != order[j]
    ensures AfterWrites(WritesOf(n, who, order, rows, answers), k, rows[k]) == Decided(n, who, k, rows[k], answers)
  {
    var f, rest := order[0], order[1..];
    var o := Verdict(n, f, rows[f], answers(who, f, rows[f]));
    assert f in order;
    AfterWriteOf(who, o, WritesOf(n, who, rest, rows, answers), k, rows[k]);
    if f == k {
      OthersNotWritten(n, who, rest, rows, answers, k, Decided(n, who, k, rows[k], answers));
    } else {
      WrittenOnce(n, who, rest, rows, answers, k);
    }
  }

  // ------------------------------------------------------------- whole rounds

  /** Select and answer. */
  lemma RoundFetches(n: int, s: Node, who: Source)
    requires Resting(s) && Enabled(n, s, Fetch(who))
    ensures var s2 := Step(n, Step(n, s, Fetch(who)), WorkerTurn(true));
            OnlyThread(s, s2, who) && s2.queue == [] && LocalOf(s2, who) == Working(Watched(s, who))
  {
    var s1 := Step(n, s, Fetch(who));
    assert s1.queue == [Ask(who, WithStatus(Watches(who, s.phase)))];
    assert LocalOf(s1, who) == Waiting;
  }

  lemma RoundSplits(n: int, s: Node, who: Source, order: seq<Key>, answers: Answers)
    requires Lists(order, Watched(s, who))
    ensures var s2 := Step(n, Step(n, s, Fetch(who)), WorkerTurn(true));
            Exec(n, s, Round(s, who, order, answers))
            == Exec(n, Exec(n, s2, HandleAll(who, order, s.db, answers)), Turns(|order|))
  {
    var work, turns := HandleAll(who, order, s.db, answers), Turns(|order|);
    var s1 := Step(n, s, Fetch(who));
    var s2 := Step(n, s1, WorkerTurn(true));
    ExecConcat(n, s, [Fetch(who)], [WorkerTurn(true)] + (work + turns));
    ExecOne(n, s, Fetch(who));
    ExecConcat(n, s1, [WorkerTurn(true)], work + turns);
    ExecOne(n, s1, WorkerTurn(true));
    ExecConcat(n, s2, work, turns);
  }

  /** All threads but one are as before; that one is done. */
  predicate RoundDone(s: Node, s': Node, who: Source) {
    && Resting(s') && s'.phase == s.phase && LocalOf(s', who) == Working(map[])
    && forall x :: x != who ==> LocalOf(s', x) == LocalOf(s, x)
  }

  /** The answers let the thread finish its work on all its events. */
  predicate SurvivesAll(n: int, s: Node, who: Source, answers: Answers) {
    forall k :: k in Watched(s, who) ==> Survives(n, who, k, s.db[k], answers)
  }

  /** The state before the worker catches up. */
  function Handled(n: int, s: Node, who: Source, order: seq<Key>, answers: Answers): Node
    requires Lists(order, Watched(s, who))
  {
    Exec(n, Step(n, Step(n, s, Fetch(who)), WorkerTurn(true)), HandleAll(who, order, s.db, answers))
  }

  lemma RoundHandles(n: int, s: Node, who: Source, order: seq<Key>, answers: Answers)
    requires Resting(s) && Enabled(n, s, Fetch(who)) && Lists(order, Watched(s, who))
    requires SurvivesAll(n, s, who, answers)
    ensures var s3 := Handled(n, s, who, order, answers);
            && OnlyThread(s, s3, who) && LocalOf(s3, who) == Working(map[])
            && s3.queue == WritesOf(n, who, order, s.db, answers)
  {
    RoundFetches(n, s, who);
    var s2 := Step(n, Step(n, s, Fetch(who)), WorkerTurn(true));
    HandlesAll(n, s2, who, order, s.db, answers);
    assert s2.queue + WritesOf(n, who, order, s.db, answers) == WritesOf(n, who, order, s.db, answers);
  }

  lemma RoundFits(n: int, s: Node, who: Source, order: seq<Key>, answers: Answers)
    requires Inv(n, s) && Enabled(n, s, Fetch(who)) && Lists(order, Watched(s, who))
    requires SurvivesAll(n, s, who, answers)
    ensures DecisionsFit(n, who, order, s.db, answers)
  {
    forall k | k in order
      ensures k in s.db && UpdatesOnly(k.requestId, Verdict(n, k, s.db[k], answers(who, k, s.db[k])))
    {
      assert Survives(n, who, k, s.db[k], answers);
      DecisionFits(n, s, who, k, answers(who, k, s.db[k]));
    }
  }

  lemma DrainsRest(n: int, s: Node, s3: Node, who: Source, count: nat)
    requires Resting(s) && OnlyThread(s, s3, who) && LocalOf(s3, who) == Working(map[])
    requires OnlyUpdates(s3.queue) && count >= |s3.queue|
    ensures var s' := Exec(n, s3, Turns(count));
            RoundDone(s, s', who) && s'.db.Keys == s.db.Keys
  {
    Drains(n, s3, count);
    DrainsKeys(n, s3, count);
    var s' := Exec(n, s3, Turns(count));
    assert forall x :: LocalOf(s', x) == LocalOf(s3, x);
  }

  lemma RoundEnds(n: int, s: Node, who: Source, order: seq<Key>, answers: Answers)
    requires Inv(n, s) && Resting(s) && Enabled(n, s, Fetch(who)) && Lists(order, Watched(s, who))
    requires SurvivesAll(n, s, who, answers)
    ensures var s' := Exec(n, s, Round(s, who, order, answers));
            RoundDone(s, s', who) && s'.db.Keys == s.db.Keys
  {
    RoundSplits(n, s, who, order, answers);
    RoundHandles(n, s, who, order, answers);
    RoundFits(n, s, who, order, answers);
    WritesAreUpdates(n, who, order, s.db, answers);
    var s3 := Handled(n, s, who, order, answers);
    DrainsRest(n, s, s3, who, |order|);
  }

  lemma InvReady(n: int, s: Node)
    requires Inv(n, s) && OnlyUpdates(s.queue) && forall i :: 0 <= i < |s.queue| ==> s.queue[i].who != Poll
    ensures Ready(s.queue, s.db)
  {
    forall i, k | 0 <= i < |s.queue| && k in s.db && k.requestId == s.queue[i].statement.requestId
      ensures Guard(s.queue[i].statement, s.db[k].status)
    {
      assert WriteOk(n, s, s.queue[i]);
      UniqueKey(s.db, k);
      UpdatedRowOk(n, k, s.db[k], s.queue[i].who, s.queue[i].statement, s.offered, s.finished);
    }
  }

  lemma HandledReady(n: int, s: Node, who: Source, order: seq<Key>, answers: Answers)
    requires Inv(n, s) && Lists(order, Watched(s, who)) && who != Poll
    requires OnlyUpdates(Handled(n, s, who, order, answers).queue)
    requires forall i :: 0 <= i < |Handled(n, s, who, order, answers).queue| ==>
               Handled(n, s, who, order, answers).queue[i].who == who
    ensures Ready(Handled(n, s, who, order, answers).queue, Handled(n, s, who, order, answers).db)
  {
    var s1 := Step(n, s, Fetch(who));
    var s2 := Step(n, s1, WorkerTurn(true));
    StepKeeps(n, s, Fetch(who));
    StepKeeps(n, s1, WorkerTurn(true));
    ExecKeeps(n, s2, HandleAll(who, order, s.db, answers));
    InvReady(n, Handled(n, s, who, order, answers));
  }

  /** What a round makes of a row: if the thread watches it, its decision, else nothing. */
  function Served(n: int, s: Node, who: Source, k: Key, answers: Answers): Row
    requires k in s.db
  {
    if s.db[k].status == Watches(who, s.phase) then Decided(n, who, k, s.db[k], answers) else s.db[k]
  }

  lemma RoundRow(n: int, s: Node, who: Source, order: seq<Key>, answers: Answers, k: Key)
    requires Inv(n, s) && Resting(s) && Enabled(n, s, Fetch(who)) && Lists(order, Watched(s, who))
    requires SurvivesAll(n, s, who, answers) && k in s.db
    ensures RowAfter(Exec(n, s, Round(s, who, order, answers)), k, Served(n, s, who, k, answers))
  {
    RoundSplits(n, s, who, order, answers);
    RoundHandles(n, s, who, order, answers);
    RoundFits(n, s, who, order, answers);
    WritesAreUpdates(n, who, order, s.db, answers);
    HandledReady(n, s, who, order, answers);
    DrainsRow(n, Handled(n, s, who, order, answers), |order|, k);
    if k in order {
      WrittenOnce(n, who, order, s.db, answers, k);
    } else {
      OthersNotWritten(n, who, order, s.db, answers, k, s.db[k]);
    }
  }

  predicate AllServed(n: int, s: Node, s': Node, who: Source, answers: Answers) {
    s'.db.Keys == s.db.Keys && forall k :: k in s.db ==> s'.db[k] == Served(n, s, who, k, answers)
  }

  /** An undisturbed round of a thread, in any order over its events, applies exactly its decisions:
      each row it watches becomes what the decision says, all other rows stay, and at the end nothing
      is queued and nothing begun. */
  lemma RoundServes(n: int, s: Node, who: Source, order: seq<Key>, answers: Answers)
    requires Inv(n, s) && Resting(s) && Enabled(n, s, Fetch(who)) && Lists(order, Watched(s, who))
    requires SurvivesAll(n, s, who, answers)
    ensures var s' := Exec(n, s, Round(s, who, order, answers));
            RoundDone(s, s', who) && AllServed(n, s, s', who, answers)
  {
    RoundEnds(n, s, who, order, answers);
    forall k | k in s.db
      ensures RowAfter(Exec(n, s, Round(s, who, order, answers)), k, Served(n, s, who, k, answers))
    {
      RoundRow(n, s, who, order, answers, k);
    }
  }

  // -------------------------------------------------------- a round of the poller

  /** The poller looks an offer up, gets its answer, decides, and the worker catches up. */
  function OfferRound(offer: Offer): seq<Action> {
    [MakeOffer(offer), WorkerTurn(true), Decide(Puts(true, true)), WorkerTurn(true)]
  }

  lemma ExecFour(n: int, s: Node, a: Action, b: Action, c: Action, d: Action)
    ensures Exec(n, s, [a, b, c, d]) == Step(n, Step(n, Step(n, Step(n, s, a), b), c), d)
  {
    assert [a, b, c, d] == [a] + ([b] + ([c] + [d]));
    ExecConcat(n, s, [a], [b] + ([c] + [d]));
    ExecOne(n, s, a);
    var s1 := Step(n, s, a);
    ExecConcat(n, s1, [b], [c] + [d]);
    ExecOne(n, s1, b);
    var s2 := Step(n, s1, b);
    ExecConcat(n, s2, [c], [d]);
    ExecOne(n, s2, c);
    ExecOne(n, Step(n, s2, c), d);
  }

  /** An offer the poller does not even look up leads to nothing. */
  lemma NotLookedUp(n: int, s: Node, offer: Offer)
    requires Resting(s) && !LooksUp(offer, n)
    ensures Exec(n, s, OfferRound(offer)) == s
  {
    ExecFour(n, s, MakeOffer(offer), WorkerTurn(true), Decide(Puts(true, true)), WorkerTurn(true));
  }

  lemma OfferAnswered(n: int, s: Node, offer: Offer)
    requires Resting(s) && s.phase.Running? && LooksUp(offer, n)
    ensures var s2 := Step(n, Step(n, s, MakeOffer(offer)), WorkerTurn(true));
            && s2.db == s.db && s2.queue == [] && s2.locals == s.locals && s2.phase == s.phase
            && s2.poll == PollAnswered(offer, HasId(s.db, offer.requestId))
  {
    LookupFinds(s.db, offer.requestId);
    var s1 := Step(n, s, MakeOffer(offer));
    assert s1.queue == [Ask(Poll, WithRequestId(offer.requestId))];
    assert s1.queue[1..] == [];
  }

  lemma OfferDecided(n: int, s: Node, offer: Offer)
    requires s.queue == [] && s.poll == PollAnswered(offer, HasId(s.db, offer.requestId))
    requires LooksUp(offer, n)
    ensures var s' := Step(n, Step(n, s, Decide(Puts(true, true))), WorkerTurn(true));
            && s'.queue == [] && s'.poll == PollIdle && s'.locals == s.locals && s'.phase == s.phase
            && s'.db == if Acceptable(offer, n) && !HasId(s.db, offer.requestId)
                        then s.db[Key(offer.requestId, offer.kind) := NewRow(AssignedOf(offer))] else s.db
  {
    var s3 := Step(n, s, Decide(Puts(true, true)));
    if Acceptable(offer, n) && !HasId(s.db, offer.requestId) {
      assert s3.queue == [Write(Poll, AssignedOf(offer))];
      assert s3.queue[1..] == [];
      assert Key(offer.requestId, offer.kind) !in s.db;
    } else {
      assert s3.queue == [];
    }
  }

  lemma HasIdMeans(db: Table, id: int)
    ensures HasId(db, id) <==> exists k :: k in db && k.requestId == id
  {
    forall k | k in db && k.requestId == id ensures HasId(db, id) {
      match k.kind
      case Audit => assert k == Key(id, Audit);
      case PoliceCheck => assert k == Key(id, PoliceCheck);
    }
  }

  /** From any state at rest a round of the poller inserts exactly the acceptable offers whose request id
      is in no row yet, and changes no other row. */
  lemma OfferRoundInsertsIff(n: int, s: Node, offer: Offer)
    requires Resting(s) && s.phase.Running?
    ensures var s' := Exec(n, s, OfferRound(offer));
            && Resting(s') && s'.phase.Running? && s'.locals == s.locals
            && s'.db == if Acceptable(offer, n) && forall k :: k in s.db ==> k.requestId != offer.requestId
                        then s.db[Key(offer.requestId, offer.kind) := NewRow(AssignedOf(offer))] else s.db
  {
    HasIdMeans(s.db, offer.requestId);
    if LooksUp(offer, n) {
      ExecFour(n, s, MakeOffer(offer), WorkerTurn(true), Decide(Puts(true, true)), WorkerTurn(true));
      OfferAnswered(n, s, offer);
      var s2 := Step(n, Step(n, s, MakeOffer(offer)), WorkerTurn(true));
      OfferDecided(n, s2, offer);
      var s' := Exec(n, s, OfferRound(offer));
      assert forall who :: LocalOf(s', who) == LocalOf(s, who);
    } else {
      NotLookedUp(n, s, offer);
    }
  }
}
