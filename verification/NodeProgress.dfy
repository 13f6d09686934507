/** Progress: what takes every request to its end. */
module NodeProgress {
  import opened Wrappers
  import opened EventTable
  import opened Handlers
  import opened AuditNode
  import opened NodeInvariant
  import opened NodeSteps
  import opened NodeTheorems
  import opened NodeRounds
  import opened NodeDecisions

  predicate Works(who: Source) {
    who == Perform || who == Submit || who == Monitor
  }

  const ROOM := Puts(true, true)

  /** The answer does not leave the event where it is: no KeyError for an audit, neither a duplicate
      nor an unconfirmed transaction nor a KeyError for a submission, no finished request that waits
      for depth; and every write finds room. */
  predicate LiveAnswer(n: int, k: Key, row: Row, input: Input) {
    match input
    case StaleInput(_, _, _, _) => true
    case AuditInput(reply, _, puts) => !reply.AuditKeyFails? && puts == ROOM
    case SubmitInput(sent, _, puts) => !NoProgress(sent) && puts == ROOM
    case MonitorInput(_, done, block, _, puts) =>
      && puts == ROOM
      && (Decode(k, row).Some? ==> !StillWaiting(Decode(k, row).value, done, block, n))
  }

  /** The outside gives each thread live answers of its own kind, whatever the event. */
  ghost predicate Live(n: int, answers: Answers) {
    forall who, k, row :: who != Poll ==>
      InputFor(who, answers(who, k, row)) && LiveAnswer(n, k, row, answers(who, k, row))
  }

  /** Such answers: every audit and submission succeeds, and no request is finished yet. */
  const FRIENDLY: Answers := (who: Source, k: Key, row: Row) =>
    match who
    case Startup => StaleInput(0, 0, 0, ROOM)
    case Perform => AuditInput(Produced(row.report, 0), "", ROOM)
    case Submit => SubmitInput(Sent("tx"), "", ROOM)
    case _ => MonitorInput(0, Returns(false), Returns(0), "", ROOM)

  lemma FriendlyIsLive(n: int)
    ensures Live(n, FRIENDLY)
  {
  }

  /** A thread that gets a live answer writes; with room in the queue, only then. */
  lemma LiveMeansWrite(n: int, who: Source, k: Key, row: Row, input: Input)
    requires Works(who) && InputFor(who, input) && TextOk(row) && input.puts == ROOM
    ensures Verdict(n, k, row, input).Writes? <==> LiveAnswer(n, k, row, input)
    ensures !Verdict(n, k, row, input).Dies?
  {
    DecodeThenEncode(k, row);
    var evt := Decode(k, row).value;
    match input
    case AuditInput(reply, trace, puts) => AuditOutcome(evt, reply, trace, puts);
    case SubmitInput(sent, trace, puts) => SubmissionSilentIff(evt, sent, trace, puts);
    case MonitorInput(limit, done, block, message, puts) =>
      MonitorStops(evt, limit, done, block, n, message, puts);
  }

  // ------------------------------------------------------------ live rounds

  /** Some run from a fresh database leads to the state. */
  ghost predicate Reachable(n: int, s: Node) {
    exists actions :: Exec(n, FRESH, actions) == s
  }

  lemma ReachableInv(n: int, s: Node)
    requires Reachable(n, s)
    ensures Inv(n, s)
  {
    var actions :| Exec(n, FRESH, actions) == s;
    FreshInv(n);
    ExecKeeps(n, FRESH, actions);
  }

  lemma ReachableOn(n: int, s: Node, more: seq<Action>)
    requires Reachable(n, s)
    ensures Reachable(n, Exec(n, s, more))
  {
    var actions :| Exec(n, FRESH, actions) == s;
    ExecConcat(n, FRESH, actions, more);
    assert Exec(n, FRESH, actions + more) == Exec(n, s, more);
  }

  /** Reachable, past start-up, with nothing queued and nothing begun. */
  ghost predicate AtRest(n: int, s: Node) {
    Reachable(n, s) && Resting(s) && s.phase.Running?
  }

  ghost function LiveRound(s: Node, who: Source, answers: Answers): seq<Action> {
    Round(s, who, Listing(Watched(s, who)), answers)
  }

  lemma ReachableText(n: int, s: Node)
    requires Reachable(n, s)
    ensures forall k :: k in s.db ==> TextOk(s.db[k])
  {
    ReachableInv(n, s);
    forall k | k in s.db ensures RowOk(n, k, s.db[k], s.offered, s.finished) {
    }
  }

  lemma LiveSurvives(n: int, s: Node, who: Source, answers: Answers)
    requires Reachable(n, s) && Works(who) && Live(n, answers)
    ensures SurvivesAll(n, s, who, answers)
  {
    ReachableText(n, s);
    forall k | k in Watched(s, who) ensures Survives(n, who, k, s.db[k], answers) {
      LiveMeansWrite(n, who, k, s.db[k], answers(who, k, s.db[k]));
    }
  }

  /** A live decision is a move of the life cycle. */
  lemma LiveMove(n: int, s: Node, who: Source, answers: Answers, k: Key)
    requires Reachable(n, s) && Works(who) && Live(n, answers) && k in s.db && Owns(who, s.db[k].status)
    ensures Move(s.db[k], Decided(n, who, k, s.db[k], answers))
  {
    ReachableInv(n, s);
    var input := answers(who, k, s.db[k]);
    LiveMeansWrite(n, who, k, s.db[k], input);
    VerdictFits(n, who, k, s.db[k], input, s.offered, s.finished);
    FitsMoves(n, who, Verdict(n, k, s.db[k], input).statement, s.db[k],
              SeenFinished(s.finished, k.requestId, input));
  }

  lemma FitsMoves(n: int, who: Source, w: Statement, row: Row, finished: Seen)
    requires TextOk(row) && Fits(n, who, w, row, finished) && row.attempts <= MAX_SUBMISSION_ATTEMPTS
    requires row.status.Assigned? ==> row.attempts == 0
    ensures Move(row, Updated(w, row))
  {
  }

  predicate Moved(row: Row, row': Row, status: Status) {
    if row.status == status then Move(row, row') else row' == row
  }

  /** Each row the thread watches moves, and all others stay. */
  predicate AllMove(s: Node, s': Node, status: Status) {
    s'.db.Keys == s.db.Keys && forall k :: k in s.db ==> Moved(s.db[k], s'.db[k], status)
  }

  lemma ReachableRound(n: int, s: Node, who: Source, order: seq<Key>, answers: Answers)
    requires Reachable(n, s) && Resting(s) && Enabled(n, s, Fetch(who)) && SurvivesAll(n, s, who, answers)
    requires Lists(order, Watched(s, who))
    ensures var s' := Exec(n, s, Round(s, who, order, answers));
            && Reachable(n, s') && RoundDone(s, s', who)
            && AllServed(n, s, s', who, answers)
  {
    ReachableInv(n, s);
    ReachableOn(n, s, Round(s, who, order, answers));
    RoundServes(n, s, who, order, answers);
  }

  lemma ServedMoves(n: int, s: Node, who: Source, answers: Answers, k: Key)
    requires AtRest(n, s) && Works(who) && Live(n, answers) && k in s.db
    ensures Moved(s.db[k], Served(n, s, who, k, answers), Watches(who, Running))
  {
    if s.db[k].status == Watches(who, Running) {
      LiveMove(n, s, who, answers, k);
    }
  }

  /** The state after a live round. */
  ghost function After(n: int, s: Node, who: Source, answers: Answers): Node {
    Exec(n, s, LiveRound(s, who, answers))
  }

  lemma ServedMeansMoves(n: int, s: Node, s': Node, who: Source, status: Status, answers: Answers)
    requires AtRest(n, s) && Works(who) && Live(n, answers) && status == Watches(who, Running)
    requires AllServed(n, s, s', who, answers)
    ensures AllMove(s, s', status)
  {
    forall k | k in s.db ensures Moved(s.db[k], s'.db[k], status) {
      ServedMoves(n, s, who, answers, k);
    }
  }

  lemma LiveRoundMoves(n: int, s: Node, who: Source, status: Status, answers: Answers)
    requires AtRest(n, s) && Works(who) && Live(n, answers) && status == Watches(who, Running)
    ensures AtRest(n, After(n, s, who, answers))
    ensures AllMove(s, After(n, s, who, answers), status)
  {
    LiveSurvives(n, s, who, answers);
    ReachableRound(n, s, who, Listing(Watched(s, who)), answers);
    ServedMeansMoves(n, s, After(n, s, who, answers), who, status, answers);
  }

  // ---------------------------------------------------------------- cycles

  /** A round of each thread, one after the other. */
  ghost function Cycle(n: int, s: Node, answers: Answers): seq<Action> {
    var s1 := After(n, s, Perform, answers);
    var s2 := After(n, s1, Submit, answers);
    LiveRound(s, Perform, answers) + (LiveRound(s1, Submit, answers) + LiveRound(s2, Monitor, answers))
  }

  ghost function AfterCycle(n: int, s: Node, answers: Answers): Node {
    After(n, After(n, After(n, s, Perform, answers), Submit, answers), Monitor, answers)
  }

  lemma CycleSplits(n: int, s: Node, answers: Answers)
    ensures Exec(n, s, Cycle(n, s, answers)) == AfterCycle(n, s, answers)
  {
    var s1 := After(n, s, Perform, answers);
    var s2 := After(n, s1, Submit, answers);
    var first, second, third :=
      LiveRound(s, Perform, answers), LiveRound(s1, Submit, answers), LiveRound(s2, Monitor, answers);
    ExecConcat(n, s, first, second + third);
    ExecConcat(n, s1, second, third);
  }

  /** A cycle ends a request or costs it another attempt. */
  predicate Advanced(row: Row, row': Row) {
    if Terminal(row) then row' == row
    else Terminal(row')
         || (row'.status.ToBeSubmitted? && row'.attempts >= 2 && row'.attempts >= row.attempts + 1)
  }

  predicate AllAdvanced(s: Node, s': Node) {
    s'.db.Keys == s.db.Keys && forall k :: k in s.db ==> Advanced(s.db[k], s'.db[k])
  }

  /** Only assigned events have no attempt behind them. */
  predicate Started(s: Node) {
    forall k :: k in s.db && !s.db[k].status.Assigned? && !Terminal(s.db[k]) ==> s.db[k].attempts >= 1
  }

  lemma RowMoves(row: Row, row1: Row, row2: Row, row3: Row)
    requires Moved(row, row1, Assigned) && Moved(row1, row2, ToBeSubmitted) && Moved(row2, row3, Submitted)
    requires row.status.Assigned? || Terminal(row) || row.attempts >= 1
    ensures Advanced(row, row3)
  {
  }

  lemma ThreeMoves(s: Node, s1: Node, s2: Node, s3: Node)
    requires AllMove(s, s1, Assigned) && AllMove(s1, s2, ToBeSubmitted) && AllMove(s2, s3, Submitted)
    requires Started(s)
    ensures AllAdvanced(s, s3)
  {
    forall k | k in s.db ensures Advanced(s.db[k], s3.db[k]) {
      assert k in s1.db && k in s2.db;
      RowMoves(s.db[k], s1.db[k], s2.db[k], s3.db[k]);
    }
  }

  lemma ReachableStarted(n: int, s: Node)
    requires Reachable(n, s)
    ensures Started(s) && forall k :: k in s.db ==> s.db[k].attempts <= MAX_SUBMISSION_ATTEMPTS
  {
    ReachableInv(n, s);
    forall k | k in s.db ensures RowOk(n, k, s.db[k], s.offered, s.finished) {
    }
  }

  lemma CycleAdvances(n: int, s: Node, answers: Answers)
    requires AtRest(n, s) && Live(n, answers)
    ensures var s' := Exec(n, s, Cycle(n, s, answers));
            AtRest(n, s') && AllAdvanced(s, s')
  {
    var s1 := After(n, s, Perform, answers);
    var s2 := After(n, s1, Submit, answers);
    CycleSplits(n, s, answers);
    LiveRoundMoves(n, s, Perform, Assigned, answers);
    LiveRoundMoves(n, s1, Submit, ToBeSubmitted, answers);
    LiveRoundMoves(n, s2, Monitor, Submitted, answers);
    ReachableStarted(n, s);
    ThreeMoves(s, s1, s2, After(n, s2, Monitor, answers));
  }

  ghost function Cycles(n: int, s: Node, answers: Answers, count: nat): seq<Action>
    decreases count
  {
    if count == 0 then []
    else
      var cycle := Cycle(n, s, answers);
      cycle + Cycles(n, Exec(n, s, cycle), answers, count - 1)
  }

  /** Rows that have not ended have at least so many attempts behind them. */
  predicate EndedOrTried(s: Node, attempts: int) {
    forall k :: k in s.db ==> Terminal(s.db[k]) || s.db[k].attempts >= attempts
  }

  ghost predicate TriedAfter(n: int, s: Node, s': Node, attempts: int) {
    AtRest(n, s') && s'.db.Keys == s.db.Keys && EndedOrTried(s', attempts)
  }

  lemma CycleUsesAttempts(n: int, s: Node, answers: Answers, attempts: int)
    requires AtRest(n, s) && Live(n, answers) && EndedOrTried(s, attempts)
    ensures TriedAfter(n, s, Exec(n, s, Cycle(n, s, answers)), if attempts < 1 then 2 else attempts + 1)
  {
    CycleAdvances(n, s, answers);
  }

  lemma CyclesUnfold(n: int, s: Node, s1: Node, answers: Answers, count: nat)
    requires count > 0 && s1 == Exec(n, s, Cycle(n, s, answers))
    ensures Exec(n, s, Cycles(n, s, answers, count)) == Exec(n, s1, Cycles(n, s1, answers, count - 1))
  {
    ExecConcat(n, s, Cycle(n, s, answers), Cycles(n, s1, answers, count - 1));
  }

  predicate AllEnded(s: Node) {
    forall k :: k in s.db ==> Terminal(s.db[k])
  }

  lemma CyclesInTurn(n: int, s: Node, s1: Node, s2: Node, s3: Node, answers: Answers, count: nat)
    requires s1 == Exec(n, s, Cycle(n, s, answers)) && s2 == Exec(n, s1, Cycle(n, s1, answers))
    requires s3 == Exec(n, s2, Cycle(n, s2, answers)) && count == 3
    ensures Exec(n, s, Cycles(n, s, answers, count)) == s3
  {
    CyclesUnfold(n, s, s1, answers, count);
    CyclesUnfold(n, s1, s2, answers, count - 1);
    CyclesUnfold(n, s2, s3, answers, count - 2);
  }

  /** Each cycle costs a request that does not end one attempt. */
  lemma ThreeCycles(n: int, s: Node, answers: Answers, count: nat)
    requires AtRest(n, s) && Live(n, answers) && EndedOrTried(s, 0) && count == 3
    ensures TriedAfter(n, s, Exec(n, s, Cycles(n, s, answers, count)), 4)
  {
    var s1 := Exec(n, s, Cycle(n, s, answers));
    var s2 := Exec(n, s1, Cycle(n, s1, answers));
    var s3 := Exec(n, s2, Cycle(n, s2, answers));
    CycleUsesAttempts(n, s, answers, 0);
    CycleUsesAttempts(n, s1, answers, 2);
    CycleUsesAttempts(n, s2, answers, 3);
    CyclesInTurn(n, s, s1, s2, s3, answers, count);
  }

  lemma TriedOutEnded(n: int, s: Node)
    requires AtRest(n, s) && EndedOrTried(s, 4)
    ensures AllEnded(s)
  {
    ReachableStarted(n, s);
  }

  /** With live answers, and no write failing, three cycles bring
      every request in the table to done or error. */
  lemma CyclesComplete(n: int, s: Node, answers: Answers)
    requires AtRest(n, s) && Live(n, answers)
    ensures var s' := Exec(n, s, Cycles(n, s, answers, 3));
            AtRest(n, s') && s'.db.Keys == s.db.Keys && AllEnded(s')
  {
    ReachableInv(n, s);
    ThreeCycles(n, s, answers, 3);
    TriedOutEnded(n, Exec(n, s, Cycles(n, s, answers, 3)));
  }

  // -------------------------------------------------- from any reachable state

  /** One half of the start-up pass. */
  ghost function StartPhase(s: Node, answers: Answers): seq<Action> {
    LiveRound(s, Startup, answers) + [StartupAdvances]
  }

  /** Starting, with nothing begun. */
  ghost predicate Starting(n: int, s: Node, phase: Phase) {
    Reachable(n, s) && Resting(s) && s.phase == phase && forall who :: LocalOf(s, who).Idle?
  }

  lemma StaleSurvivesRow(n: int, k: Key, row: Row, input: Input)
    requires TextOk(row) && input.StaleInput?
    ensures !Verdict(n, k, row, input).Dies?
  {
    DecodeThenEncode(k, row);
  }

  lemma StaleSurvives(n: int, s: Node, answers: Answers)
    requires Reachable(n, s) && Live(n, answers)
    ensures SurvivesAll(n, s, Startup, answers)
  {
    ReachableText(n, s);
    forall k | k in Watched(s, Startup) ensures Survives(n, Startup, k, s.db[k], answers) {
      StaleSurvivesRow(n, k, s.db[k], answers(Startup, k, s.db[k]));
    }
  }

  lemma AdvanceEndsPhase(n: int, s: Node)
    requires Resting(s) && !s.phase.Running? && LocalOf(s, Startup) == Working(map[])
    requires forall who :: who != Startup ==> LocalOf(s, who).Idle?
    ensures var s' := Step(n, s, StartupAdvances);
            && Resting(s') && (forall who :: LocalOf(s', who).Idle?) && s'.db == s.db
            && s'.phase == if s.phase.StartAssigned? then StartToBeSubmitted else Running
  {
    var s' := Step(n, s, StartupAdvances);
    assert forall who :: who != Startup ==> LocalOf(s', who) == LocalOf(s, who);
  }

  lemma StartPhaseServes(n: int, s: Node, answers: Answers)
    requires Starting(n, s, s.phase) && !s.phase.Running? && SurvivesAll(n, s, Startup, answers)
    ensures var s' := Exec(n, s, StartPhase(s, answers));
            && Starting(n, s', if s.phase.StartAssigned? then StartToBeSubmitted else Running)
            && AllServed(n, s, s', Startup, answers)
  {
    var round := LiveRound(s, Startup, answers);
    var s1 := Exec(n, s, round);
    ReachableRound(n, s, Startup, Listing(Watched(s, Startup)), answers);
    ExecConcat(n, s, round, [StartupAdvances]);
    ExecOne(n, s1, StartupAdvances);
    AdvanceEndsPhase(n, s1);
    ReachableOn(n, s1, [StartupAdvances]);
  }

  lemma StartPhaseEnds(n: int, s: Node, answers: Answers)
    requires Live(n, answers) && Starting(n, s, s.phase) && !s.phase.Running?
    ensures var s' := Exec(n, s, StartPhase(s, answers));
            && Starting(n, s', if s.phase.StartAssigned? then StartToBeSubmitted else Running)
            && s'.db.Keys == s.db.Keys
  {
    StaleSurvives(n, s, answers);
    StartPhaseServes(n, s, answers);
  }

  /** Restart, the start-up pass, and the cycles. */
  ghost function Completion(n: int, s: Node, answers: Answers): seq<Action> {
    var s0 := Exec(n, s, [Restart]);
    var first := StartPhase(s0, answers);
    var s1 := Exec(n, s0, first);
    var second := StartPhase(s1, answers);
    [Restart] + (first + (second + Cycles(n, Exec(n, s1, second), answers, 3)))
  }

  lemma RestartStarts(n: int, s: Node)
    requires Reachable(n, s)
    ensures var s0 := Exec(n, s, [Restart]);
            Starting(n, s0, StartAssigned) && s0.db == s.db
  {
    ExecOne(n, s, Restart);
    ReachableOn(n, s, [Restart]);
  }

  /** From every reachable state, whatever is queued or half done, a restart followed by the start-up
      pass and a bounded number of live cycles brings every request in the table to done or error. */
  lemma RestartCompletes(n: int, s: Node, answers: Answers)
    requires Reachable(n, s) && Live(n, answers)
    ensures var s' := Exec(n, s, Completion(n, s, answers));
            s'.db.Keys == s.db.Keys && AllEnded(s')
  {
    var s0 := Exec(n, s, [Restart]);
    var first := StartPhase(s0, answers);
    var s1 := Exec(n, s0, first);
    var second := StartPhase(s1, answers);
    var s2 := Exec(n, s1, second);
    var cycles := Cycles(n, s2, answers, 3);
    RestartStarts(n, s);
    StartPhaseEnds(n, s0, answers);
    StartPhaseEnds(n, s1, answers);
    CyclesComplete(n, s2, answers);
    ExecConcat(n, s, [Restart], first + (second + cycles));
    ExecConcat(n, s0, first, second + cycles);
    ExecConcat(n, s1, second, cycles);
  }

  // ---------------------------------------------------------- the start-up pass

  /** Every start-up answer carries the same head, limit and discard, and finds room. */
  ghost predicate SameHead(answers: Answers, head: int, limit: int, discard: int) {
    forall k, row :: answers(Startup, k, row) == StaleInput(head, limit, discard, ROOM)
  }

  /** What the start-up pass makes of a row of this status. */
  function Swept(row: Row, status: Status, lastStale: int): Row
    requires TextOk(row)
  {
    if row.status == status && IntOf(row.assignedBlock) <= lastStale
    then row.(status := Error, statusInfo := Some("Submission timeout")) else row
  }

  lemma DecodedBlock(k: Key, row: Row)
    requires TextOk(row)
    ensures Decode(k, row).Some? && Decode(k, row).value.key == k
    ensures Decode(k, row).value.assignedBlock == IntOf(row.assignedBlock)
  {
  }

  lemma StaleVerdict(n: int, k: Key, row: Row, head: int, limit: int, discard: int)
    requires TextOk(row)
    ensures Verdict(n, k, row, StaleInput(head, limit, discard, ROOM))
            == if IntOf(row.assignedBlock) <= head - limit + discard
               then Writes(SetError(Some("Submission timeout"), k.requestId)) else Nothing
  {
    DecodedBlock(k, row);
    var evt := Decode(k, row).value;
    assert Verdict(n, k, row, StaleInput(head, limit, discard, ROOM))
        == TimeoutStale(evt, head, limit, discard, ROOM);
  }

  lemma StaleDecision(n: int, k: Key, row: Row, answers: Answers, head: int, limit: int, discard: int)
    requires TextOk(row) && SameHead(answers, head, limit, discard)
    ensures Decided(n, Startup, k, row, answers) == Swept(row, row.status, head - limit + discard)
  {
    assert answers(Startup, k, row) == StaleInput(head, limit, discard, ROOM);
    StaleVerdict(n, k, row, head, limit, discard);
  }

  /** The text columns of all rows are in order. */
  predicate AllText(s: Node) {
    forall k :: k in s.db ==> TextOk(s.db[k])
  }

  lemma StartPhaseSweeps(n: int, s: Node, answers: Answers, head: int, limit: int, discard: int)
    requires Starting(n, s, s.phase) && !s.phase.Running? && SameHead(answers, head, limit, discard)
    ensures var s' := Exec(n, s, StartPhase(s, answers));
            && Starting(n, s', if s.phase.StartAssigned? then StartToBeSubmitted else Running)
            && AllText(s) && s'.db.Keys == s.db.Keys
            && forall k :: k in s.db ==>
                 s'.db[k] == Swept(s.db[k], if s.phase.StartAssigned? then Assigned else ToBeSubmitted,
                                   head - limit + discard)
  {
    ReachableText(n, s);
    forall k | k in Watched(s, Startup) ensures Survives(n, Startup, k, s.db[k], answers) {
      assert answers(Startup, k, s.db[k]) == StaleInput(head, limit, discard, ROOM);
      StaleSurvivesRow(n, k, s.db[k], answers(Startup, k, s.db[k]));
    }
    StartPhaseServes(n, s, answers);
    forall k | k in s.db
      ensures Served(n, s, Startup, k, answers)
              == Swept(s.db[k], if s.phase.StartAssigned? then Assigned else ToBeSubmitted,
                       head - limit + discard)
    {
      StaleDecision(n, k, s.db[k], answers, head, limit, discard);
    }
  }

  /** Restart and the start-up pass. */
  ghost function StartUp(n: int, s: Node, answers: Answers): seq<Action> {
    var s0 := Exec(n, s, [Restart]);
    var first := StartPhase(s0, answers);
    [Restart] + (first + StartPhase(Exec(n, s0, first), answers))
  }

  /** The start-up pass ends exactly the assigned and the to-be-submitted events whose assignment is
      not after the first valid block, and leaves every other row as it was. */
  lemma StartUpSweeps(n: int, s: Node, answers: Answers, head: int, limit: int, discard: int)
    requires Reachable(n, s) && SameHead(answers, head, limit, discard)
    ensures var s' := Exec(n, s, StartUp(n, s, answers));
            && AtRest(n, s') && s'.db.Keys == s.db.Keys
            && forall k :: k in s.db ==>
                 var row := s.db[k];
                 && TextOk(row)
                 && s'.db[k] ==
                    if (row.status == Assigned || row.status == ToBeSubmitted)
                       && IntOf(row.assignedBlock) <= head - limit + discard
                    then row.(status := Error, statusInfo := Some("Submission timeout")) else row
  {
    var s0 := Exec(n, s, [Restart]);
    var first := StartPhase(s0, answers);
    var s1 := Exec(n, s0, first);
    var second := StartPhase(s1, answers);
    RestartStarts(n, s);
    StartPhaseSweeps(n, s0, answers, head, limit, discard);
    StartPhaseSweeps(n, s1, answers, head, limit, discard);
    ExecConcat(n, s, [Restart], first + second);
    ExecConcat(n, s0, first, second);
    forall k | k in s.db ensures TextOk(s.db[k]) && TextOk(s1.db[k]) {
      assert k in s1.db;
    }
  }
}
