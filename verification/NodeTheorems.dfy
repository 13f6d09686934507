/** What holds over every run of the audit node, restarts and failed writes included. */
module NodeTheorems {
  import opened Wrappers
  import opened Decimal
  import opened EventTable
  import opened Handlers
  import opened AuditNode
  import opened NodeInvariant
  import opened NodeSteps

  // ------------------------------------------------------ changes of one row

  predicate Terminal(row: Row) {
    row.status.Done? || row.status.Error?
  }

  predicate SameOrigin(row: Row, row': Row) {
    && row'.requestor == row.requestor && row'.contractUri == row.contractUri
    && row'.evtName == row.evtName && row'.assignedBlock == row.assignedBlock
    && row'.price == row.price
  }

  predicate SameReport(row: Row, row': Row) {
    row'.report == row.report && row'.submissionBlock == row.submissionBlock
  }

  /** The moves of the life cycle. */
  predicate Move(row: Row, row': Row) {
    && SameOrigin(row, row')
    && match (row.status, row'.status)
       case (Assigned, ToBeSubmitted) => row.attempts == 0 && row'.attempts == 1
       case (Assigned, Error) => row'.attempts == row.attempts && SameReport(row, row')
       case (ToBeSubmitted, Submitted) => row'.attempts == row.attempts && SameReport(row, row')
       case (ToBeSubmitted, Error) => row'.attempts == row.attempts && SameReport(row, row')
       case (Submitted, ToBeSubmitted) =>
         row'.attempts == row.attempts + 1 && row'.attempts <= MAX_SUBMISSION_ATTEMPTS
         && SameReport(row, row')
       case (Submitted, Done) => row'.attempts == row.attempts && SameReport(row, row')
       case (Submitted, Error) => row'.attempts == row.attempts && SameReport(row, row')
       case _ => false
  }

  /** The step applies a queued update of `who` to the row with key k. */
  predicate Applies(s: Node, a: Action, k: Key) {
    && a == WorkerTurn(true) && s.queue != [] && s.queue[0].Write?
    && s.queue[0].statement.requestId == k.requestId
  }

  /** A row only changes when a queued update of the thread that owns its status is applied, and
      then it makes one move of the life cycle. Rows are never removed. */
  lemma StepChangesRow(n: int, s: Node, a: Action, k: Key)
    requires Inv(n, s) && k in s.db
    ensures k in Step(n, s, a).db
    ensures var row, row' := s.db[k], Step(n, s, a).db[k];
            if Applies(s, a, k) then
              && Owns(s.queue[0].who, row.status)
              && row' == Updated(s.queue[0].statement, row) && Move(row, row')
            else row' == row
  {
    if Enabled(n, s, a) && a.WorkerTurn? && a.ok && s.queue[0].Write? {
      WriteChangesRow(n, s, s.queue[0], k);
      assert Step(n, s, a).db == if Violates(s.db, s.queue[0].statement) then s.db
                                 else Run(s.db, s.queue[0].statement);
    } else if Enabled(n, s, a) {
      OthersKeepDatabase(n, s, a);
    }
  }

  lemma WriteChangesRow(n: int, s: Node, item: Item, k: Key)
    requires UniqueIds(s.db) && RowsOk(n, s) && item.Write? && WriteOk(n, s, item) && k in s.db
    ensures item.statement.requestId == k.requestId ==>
      && !Violates(s.db, item.statement) && k in Run(s.db, item.statement)
      && Owns(item.who, s.db[k].status)
      && Run(s.db, item.statement)[k] == Updated(item.statement, s.db[k])
      && Move(s.db[k], Updated(item.statement, s.db[k]))
    ensures item.statement.requestId != k.requestId && !Violates(s.db, item.statement) ==>
      k in Run(s.db, item.statement) && Run(s.db, item.statement)[k] == s.db[k]
  {
    var w := item.statement;
    UniqueKey(s.db, k);
    if w.requestId == k.requestId {
      AppliedRow(n, s, item.who, w, k);
      UpdateMoves(n, s, item.who, w, k);
    } else if !w.AddAssigned? {
      UpdateTouchesOneRow(s.db, w);
    }
  }

  lemma OthersKeepDatabase(n: int, s: Node, a: Action)
    requires Enabled(n, s, a)
    requires a.WorkerTurn? ==> !a.ok || s.queue[0].Ask?
    ensures Next(n, s, a).db == s.db
  {
    match a
    case WorkerTurn(ok) => WorkerRemembers(s, ok);
    case Handle(who, key, input) => HandleKeepsDatabase(n, s, who, key, input);
    case Decide(puts) => DecideRemembers(n, s, puts);
    case _ =>
  }

  lemma UpdateMoves(n: int, s: Node, who: Source, w: Statement, k: Key)
    requires RowsOk(n, s) && k in s.db && Fits(n, who, w, s.db[k], s.finished)
    ensures Owns(who, s.db[k].status) && Move(s.db[k], Updated(w, s.db[k]))
  {
  }

  /** Although updates filter on the request id alone, one step changes at most one row. */
  lemma StepChangesOneRow(n: int, s: Node, a: Action, k: Key, k': Key)
    requires Inv(n, s) && k in s.db && k' in s.db
    ensures k in Step(n, s, a).db && k' in Step(n, s, a).db
    ensures Step(n, s, a).db[k] != s.db[k] && Step(n, s, a).db[k'] != s.db[k'] ==> k == k'
  {
    StepChangesRow(n, s, a, k);
    StepChangesRow(n, s, a, k');
  }

  // --------------------------------------------------------- rank and measure

  /** The ranking the node's documentation gives, with errors on top. */
  function Rank(status: Status): nat {
    match status
    case Assigned => 1
    case ToBeSubmitted => 2
    case Submitted => 3
    case Done => 4
    case Error => 4
  }

  /** A status falls in rank in exactly one situation: a queued resubmission by the monitor is
      applied. Compared on attempts first and rank second it never falls. */
  lemma RankFallsIff(n: int, s: Node, a: Action, k: Key)
    requires Inv(n, s) && k in s.db
    ensures k in Step(n, s, a).db
    ensures var row, row' := s.db[k], Step(n, s, a).db[k];
            && (Rank(row'.status) < Rank(row.status) <==>
                  Applies(s, a, k) && s.queue[0].who == Monitor
                  && s.queue[0].statement.SetToBeSubmitted?)
            && (row'.attempts > row.attempts
                || (row'.attempts == row.attempts && Rank(row'.status) >= Rank(row.status)))
  {
    StepChangesRow(n, s, a, k);
    if Applies(s, a, k) {
      assert WriteOk(n, s, s.queue[0]);
      UniqueKey(s.db, k);
    }
  }

  /** How many more status changes a row can make. */
  function Measure(row: Row): int {
    match row.status
    case Assigned => 7
    case ToBeSubmitted => 2 * (MAX_SUBMISSION_ATTEMPTS - row.attempts) + 2
    case Submitted => 2 * (MAX_SUBMISSION_ATTEMPTS - row.attempts) + 1
    case Done => 0
    case Error => 0
  }

  lemma MeasureFalls(n: int, s: Node, a: Action, k: Key)
    requires Inv(n, s) && k in s.db
    ensures k in Step(n, s, a).db
    ensures var row, row' := s.db[k], Step(n, s, a).db[k];
            && 0 <= Measure(row) <= 7
            && (if row'.status == row.status then Measure(row') == Measure(row)
                else 0 <= Measure(row') < Measure(row))
            && (Measure(row) == 0 <==> Terminal(row))
  {
    StepChangesRow(n, s, a, k);
    StepKeeps(n, s, a);
    assert RowOk(n, k, s.db[k], s.offered, s.finished);
    var s' := Step(n, s, a);
    assert RowOk(n, k, s'.db[k], s'.offered, s'.finished);
  }

  // -------------------------------------------------------------------- runs

  /** The number of status changes the row with key k makes along a run. */
  function Changes(n: int, s: Node, actions: seq<Action>, k: Key): nat
    decreases |actions|
  {
    if actions == [] then 0
    else
      var s' := Step(n, s, actions[0]);
      (if k in s.db && k in s'.db && s'.db[k].status != s.db[k].status then 1 else 0)
      + Changes(n, s', actions[1..], k)
  }

  function Budget(s: Node, k: Key): int {
    if k in s.db then Measure(s.db[k]) else 7
  }

  lemma {:induction false} ChangesWithinBudget(n: int, s: Node, actions: seq<Action>, k: Key)
    requires Inv(n, s)
    ensures Changes(n, s, actions, k) <= Budget(s, k) - Budget(Exec(n, s, actions), k)
    ensures Inv(n, Exec(n, s, actions)) && Budget(Exec(n, s, actions), k) >= 0
    decreases |actions|
  {
    if actions == [] {
      if k in s.db {
        MeasureFalls(n, s, Restart, k);
      }
    } else {
      var s' := Step(n, s, actions[0]);
      StepKeeps(n, s, actions[0]);
      if k in s.db {
        MeasureFalls(n, s, actions[0], k);
      } else if k in s'.db {
        MeasureFalls(n, s', Restart, k);
      }
      ChangesWithinBudget(n, s', actions[1..], k);
    }
  }

  /** In every run from a fresh database a request changes status at most seven times, and its
      submission attempts stay between 0 and 3. */
  lemma AtMostSevenChanges(n: int, actions: seq<Action>, k: Key)
    ensures Changes(n, FRESH, actions, k) <= 7
    ensures var s := Exec(n, FRESH, actions);
            k in s.db ==> 0 <= s.db[k].attempts <= 3
  {
    FreshInv(n);
    ChangesWithinBudget(n, FRESH, actions, k);
  }

  /** What a later version of a row keeps of an earlier one. */
  predicate Later(row: Row, row': Row) {
    && SameOrigin(row, row')
    && row.attempts <= row'.attempts
    && (!row.status.Assigned? ==> !row'.status.Assigned? && SameReport(row, row'))
    && (Terminal(row) ==> row' == row)
  }

  lemma LaterAfterMove(row: Row, row': Row, row'': Row)
    requires (row' == row || Move(row, row')) && Later(row', row'')
    ensures Later(row, row'')
  {
  }

  lemma {:induction false} RunsKeepRows(n: int, s: Node, actions: seq<Action>, k: Key)
    requires Inv(n, s) && k in s.db
    ensures k in Exec(n, s, actions).db && Later(s.db[k], Exec(n, s, actions).db[k])
    decreases |actions|
  {
    if actions != [] {
      var s' := Step(n, s, actions[0]);
      StepChangesRow(n, s, actions[0], k);
      StepKeeps(n, s, actions[0]);
      RunsKeepRows(n, s', actions[1..], k);
      LaterAfterMove(s.db[k], s'.db[k], Exec(n, s', actions[1..]).db[k]);
    }
  }

  /** Done and error are final: in no continuation of any run does anything in the row change. */
  lemma TerminalForever(n: int, before: seq<Action>, after: seq<Action>, k: Key)
    requires var s := Exec(n, FRESH, before); k in s.db && Terminal(s.db[k])
    ensures var s := Exec(n, FRESH, before);
            k in Exec(n, s, after).db && Exec(n, s, after).db[k] == s.db[k]
  {
    FreshInv(n);
    ExecKeeps(n, FRESH, before);
    RunsKeepRows(n, Exec(n, FRESH, before), after, k);
  }

  /** Once a report is stored it stays: uri, hash, state, both report texts and the submission
      block are the same in every later state, through all resubmissions and restarts. */
  lemma ReportIsStable(n: int, before: seq<Action>, after: seq<Action>, k: Key)
    requires var s := Exec(n, FRESH, before); k in s.db && !s.db[k].status.Assigned?
    ensures var s := Exec(n, FRESH, before);
            k in Exec(n, s, after).db && SameReport(s.db[k], Exec(n, s, after).db[k])
  {
    FreshInv(n);
    ExecKeeps(n, FRESH, before);
    RunsKeepRows(n, Exec(n, FRESH, before), after, k);
  }

  /** Every reachable database has at most one row per request, and its rows satisfy the depth
      rules: an assignment is an audit with block 0 or lies at least n below a block on which the
      poller looked that very request up, and for every done request the monitor read, in a call that
      reported it finished, a block at least n above the stored submission block. */
  lemma ReachableRows(n: int, actions: seq<Action>)
    ensures var s := Exec(n, FRESH, actions);
            && UniqueIds(s.db)
            && forall k :: k in s.db ==>
                 var row := s.db[k];
                 && TextOk(row)
                 && ((k.kind.Audit? && IntOf(row.assignedBlock) == 0)
                     || SeenAt(s.offered, k.requestId, IntOf(row.assignedBlock) + n))
                 && (row.status.Done? ==>
                       row.submissionBlock.Some?
                       && SeenAt(s.finished, k.requestId, IntOf(row.submissionBlock.value) + n))
  {
    FreshInv(n);
    ExecKeeps(n, FRESH, actions);
    var s := Exec(n, FRESH, actions);
    forall k | k in s.db ensures RowOk(n, k, s.db[k], s.offered, s.finished) {
    }
  }

  datatype Observation = LookUp | FinishedReport

  /** The action is such an observation of the request at this block: the poller looks it up while
      working on the block, or the monitor reads the block in a call that reports it finished. */
  predicate Observes(what: Observation, a: Action, id: int, block: int) {
    match what
    case LookUp => a.MakeOffer? && a.offer.requestId == id && a.offer.currentBlock == block
    case FinishedReport =>
      && a.Handle? && a.who == Monitor && a.key.requestId == id && a.input.MonitorInput?
      && a.input.done == Returns(true) && a.input.block == Returns(block)
  }

  function Remembered(what: Observation, s: Node): Seen {
    if what.LookUp? then s.offered else s.finished
  }

  lemma WorkerRemembers(s: Node, ok: bool)
    requires s.queue != []
    ensures WorkerStep(s, ok).offered == s.offered && WorkerStep(s, ok).finished == s.finished
    ensures !ok || s.queue[0].Ask? ==> WorkerStep(s, ok).db == s.db
  {
    match s.queue[0]
    case Write(_, statement) =>
    case Ask(who, query) =>
  }

  lemma HandleRemembers(n: int, s: Node, who: Source, key: Key, input: Input)
    requires key in Todo(s, who)
    ensures var s' := HandleStep(n, s, who, key, input);
            s'.offered == s.offered && s'.finished == SeenFinished(s.finished, key.requestId, input)
  {
  }

  lemma HandleKeepsDatabase(n: int, s: Node, who: Source, key: Key, input: Input)
    requires key in Todo(s, who)
    ensures HandleStep(n, s, who, key, input).db == s.db
  {
  }

  lemma DecideRemembers(n: int, s: Node, puts: Puts)
    requires s.poll.PollAnswered?
    ensures var s' := DecideStep(n, s, puts);
            s'.offered == s.offered && s'.finished == s.finished && s'.db == s.db
  {
  }

  /** Only a lookup of the poller and a finished report of the monitor are remembered. */
  lemma StepRemembers(n: int, s: Node, a: Action)
    requires Enabled(n, s, a)
    ensures Next(n, s, a).offered == if a.MakeOffer?
                                     then Note(s.offered, a.offer.requestId, a.offer.currentBlock)
                                     else s.offered
    ensures Next(n, s, a).finished == if a.Handle?
                                      then SeenFinished(s.finished, a.key.requestId, a.input)
                                      else s.finished
  {
    match a
    case WorkerTurn(ok) => WorkerRemembers(s, ok);
    case Handle(who, key, input) => HandleRemembers(n, s, who, key, input);
    case Decide(puts) => DecideRemembers(n, s, puts);
    case _ =>
  }

  lemma StepObserves(n: int, s: Node, a: Action, what: Observation, id: int)
    ensures var seen, seen' := Remembered(what, s), Remembered(what, Step(n, s, a));
            id in seen' ==>
              || (id in seen && seen[id] == seen'[id])
              || (Enabled(n, s, a) && Observes(what, a, id, seen'[id]))
  {
    if Enabled(n, s, a) {
      StepRemembers(n, s, a);
    }
  }

  /** Action i of the run is taken and is such an observation. */
  predicate HappensAt(n: int, s: Node, actions: seq<Action>, i: nat, what: Observation, id: int, block: int)
    requires i < |actions|
  {
    Enabled(n, Exec(n, s, actions[..i]), actions[i]) && Observes(what, actions[i], id, block)
  }

  ghost predicate Happens(n: int, s: Node, actions: seq<Action>, what: Observation, id: int, block: int) {
    exists i :: 0 <= i < |actions| && HappensAt(n, s, actions, i, what, id, block)
  }

  lemma HappensLater(n: int, s: Node, actions: seq<Action>, what: Observation, id: int, block: int)
    requires actions != [] && Happens(n, Step(n, s, actions[0]), actions[1..], what, id, block)
    ensures Happens(n, s, actions, what, id, block)
  {
    var s1, rest := Step(n, s, actions[0]), actions[1..];
    var i :| 0 <= i < |rest| && HappensAt(n, s1, rest, i, what, id, block);
    assert actions[..i + 1][1..] == rest[..i];
    assert HappensAt(n, s, actions, i + 1, what, id, block);
  }

  /** What the state remembers as observed was observed by an action of the run. */
  lemma {:induction false} RunObserves(n: int, s: Node, actions: seq<Action>, what: Observation, id: int)
    ensures var seen, seen' := Remembered(what, s), Remembered(what, Exec(n, s, actions));
            id in seen' ==>
              (id in seen && seen[id] == seen'[id]) || Happens(n, s, actions, what, id, seen'[id])
    decreases |actions|
  {
    if actions != [] {
      var s1, rest := Step(n, s, actions[0]), actions[1..];
      var seen' := Remembered(what, Exec(n, s, actions));
      RunObserves(n, s1, rest, what, id);
      StepObserves(n, s, actions[0], what, id);
      if id in seen' && Happens(n, s1, rest, what, id, seen'[id]) {
        HappensLater(n, s, actions, what, id, seen'[id]);
      } else if id in seen' && Observes(what, actions[0], id, seen'[id]) && Enabled(n, s, actions[0]) {
        assert HappensAt(n, s, actions, 0, what, id, seen'[id]);
      }
    }
  }

  /** In the run such an observation is made at this block or a later one. */
  ghost predicate HappensFrom(n: int, s: Node, actions: seq<Action>, what: Observation, id: int, block: int) {
    exists seen :: Happens(n, s, actions, what, id, seen) && block <= seen
  }

  lemma SeenThenHappens(n: int, s: Node, actions: seq<Action>, what: Observation, id: int, block: int)
    requires SeenAt(Remembered(what, Exec(n, s, actions)), id, block) && id !in Remembered(what, s)
    ensures HappensFrom(n, s, actions, what, id, block)
  {
    RunObserves(n, s, actions, what, id);
    var seen := Remembered(what, Exec(n, s, actions))[id];
    assert Happens(n, s, actions, what, id, seen) && block <= seen;
  }

  /** The depth rules for one row, in terms of the run that led to it. */
  ghost predicate DepthInRun(n: int, s: Node, actions: seq<Action>, k: Key, row: Row)
    requires TextOk(row)
  {
    && ((k.kind.Audit? && IntOf(row.assignedBlock) == 0)
        || HappensFrom(n, s, actions, LookUp, k.requestId, IntOf(row.assignedBlock) + n))
    && (row.status.Done? ==>
          row.submissionBlock.Some?
          && HappensFrom(n, s, actions, FinishedReport, k.requestId, IntOf(row.submissionBlock.value) + n))
  }

  lemma RowDepth(n: int, s: Node, actions: seq<Action>, k: Key, row: Row)
    requires s.offered == map[] && s.finished == map[]
    requires RowOk(n, k, row, Exec(n, s, actions).offered, Exec(n, s, actions).finished)
    ensures DepthInRun(n, s, actions, k, row)
  {
    var id := k.requestId;
    if !(k.kind.Audit? && IntOf(row.assignedBlock) == 0) {
      SeenThenHappens(n, s, actions, LookUp, id, IntOf(row.assignedBlock) + n);
    }
    if row.status.Done? {
      SeenThenHappens(n, s, actions, FinishedReport, id, IntOf(row.submissionBlock.value) + n);
    }
  }

  /** The depth rules in terms of the run alone: every row is an audit with block 0 or was looked up
      by the poller on a block at least n above the assignment, and every done row was reported
      finished to the monitor together with a block at least n above the stored submission block. */
  lemma DepthOfRuns(n: int, actions: seq<Action>, k: Key)
    requires k in Exec(n, FRESH, actions).db
    ensures var row := Exec(n, FRESH, actions).db[k];
            TextOk(row) && DepthInRun(n, FRESH, actions, k, row)
  {
    FreshInv(n);
    ExecKeeps(n, FRESH, actions);
    RowDepth(n, FRESH, actions, k, Exec(n, FRESH, actions).db[k]);
  }

  // ------------------------------------------------------------ faults

  /** A failed write is rolled back, a dying thread only forgets what it had left, and a restart only
      loses the queue and what the threads had begun. All of these can happen at any time. */
  lemma FaultsKeepRows(n: int, s: Node, who: Source)
    ensures s.queue != [] && s.queue[0].Write? ==>
              Step(n, s, WorkerTurn(false)) == s.(queue := s.queue[1..])
    ensures who != Startup && LocalOf(s, who).Working? ==>
              var s' := Step(n, s, Abandon(who));
              Todo(s', who) == map[] && s'.db == s.db && s'.queue == s.queue && s'.phase == s.phase
    ensures var s' := Step(n, s, Restart);
            && s'.db == s.db && s'.queue == [] && s'.phase == StartAssigned && s'.poll == PollIdle
            && forall x :: LocalOf(s', x) == Idle
  {
  }

  /** In every reachable state each unprocessed snapshot entry equals its row, no two threads hold
      the same request, and every queued update concerns a row its thread owns. */
  lemma ReachableOwnership(n: int, actions: seq<Action>)
    ensures var s := Exec(n, FRESH, actions);
            && (forall who, k :: k in Todo(s, who) ==>
                  k in s.db && s.db[k] == Todo(s, who)[k] && Owns(who, s.db[k].status))
            && (forall who, who', k, k' ::
                  k in Todo(s, who) && k' in Todo(s, who') && k.requestId == k'.requestId ==>
                  who == who' && k == k')
            && (forall i :: 0 <= i < |s.queue| && s.queue[i].Write? && s.queue[i].who != Poll ==>
                  HasId(s.db, s.queue[i].statement.requestId)
                  && Owns(s.queue[i].who,
                          s.db[KeyOf(s.db, s.queue[i].statement.requestId)].status))
  {
    FreshInv(n);
    ExecKeeps(n, FRESH, actions);
    var s := Exec(n, FRESH, actions);
    forall who, who', k, k' |
      k in Todo(s, who) && k' in Todo(s, who') && k.requestId == k'.requestId
      ensures who == who' && k == k'
    {
      HandledIsFree(n, s, who, k);
    }
    forall i | 0 <= i < |s.queue| && s.queue[i].Write? && s.queue[i].who != Poll
      ensures HasId(s.db, s.queue[i].statement.requestId)
      ensures Owns(s.queue[i].who, s.db[KeyOf(s.db, s.queue[i].statement.requestId)].status)
    {
      assert WriteOk(n, s, s.queue[i]);
    }
  }
}
