/** Concrete runs of the audit node that show where tempting claims about it fail. */
module NodeRuns {
  import opened Wrappers
  import opened Decimal
  import opened EventTable
  import opened Handlers
  import opened AuditNode
  import opened NodeInvariant
  import opened NodeSteps
  import opened NodeTheorems
  import opened NodeRounds
  import opened NodeDecisions
  import opened NodeProgress

  // -------------------------------------------------- start-up and assignment

  const START: seq<Action> :=
    [Fetch(Startup), WorkerTurn(true), StartupAdvances,
     Fetch(Startup), WorkerTurn(true), StartupAdvances]

  lemma Starts(n: int)
    ensures var s := Exec(n, FRESH, START);
            s.phase.Running? && s.queue == [] && s.db == map[] && s.poll == PollIdle
            && forall who :: LocalOf(s, who) == Idle
  {
  }

  const OFFER := Offer(Audit, 7, "requestor", "uri", 5, 0, 0, true)
  const KEY := Key(7, Audit)
  const REPORT := ReportFields(Some("uri"), Some("hash"), Some(4), Some("full"), Some("compressed"))

  const ASSIGN: seq<Action> := OfferRound(OFFER)

  lemma Assigns(n: int, s: Node)
    requires s.phase.Running? && s.queue == [] && s.db == map[] && s.poll == PollIdle
    requires forall who :: LocalOf(s, who) == Idle
    ensures var s' := Exec(n, s, ASSIGN);
            s'.phase.Running? && s'.queue == [] && s'.poll == PollIdle
            && s'.db == map[KEY := NewRow(AssignedOf(OFFER))]
            && forall who :: LocalOf(s', who) == Idle
  {
    OfferRoundInsertsIff(n, s, OFFER);
    assert forall who :: LocalOf(Exec(n, s, ASSIGN), who) == LocalOf(s, who);
  }

  // ------------------------------------------------------ rounds on one row

  /** One round of a thread on the one event. */
  function RoundOn(who: Source, input: Input): seq<Action> {
    [Fetch(who), WorkerTurn(true), Handle(who, KEY, input), WorkerTurn(true)]
  }

  /** At rest, with one row in the given stage. */
  ghost predicate OneRow(n: int, s: Node, status: Status, attempts: int) {
    && AtRest(n, s) && s.db.Keys == {KEY}
    && s.db[KEY].status == status && s.db[KEY].attempts == attempts
    && TextOk(s.db[KEY]) && s.db[KEY].assignedBlock == IntText(0)
  }

  lemma RoundIsRoundOn(s: Node, who: Source, answers: Answers)
    requires Lists([KEY], Watched(s, who)) && KEY in s.db
    ensures Round(s, who, [KEY], answers) == RoundOn(who, answers(who, KEY, s.db[KEY]))
  {
    var input := answers(who, KEY, s.db[KEY]);
    assert HandleAll(who, [], s.db, answers) == [] && [KEY][1..] == [];
    assert HandleAll(who, [KEY], s.db, answers) == [Handle(who, KEY, input)];
    assert Turns(1) == [WorkerTurn(true)] + Turns(0);
  }

  lemma OnlyKeyWatched(n: int, s: Node, who: Source, answers: Answers)
    requires s.db.Keys == {KEY} && s.db[KEY].status == Watches(who, s.phase)
    requires Survives(n, who, KEY, s.db[KEY], answers)
    ensures Lists([KEY], Watched(s, who)) && SurvivesAll(n, s, who, answers)
  {
    assert KEY in Watched(s, who);
  }

  lemma OnlyRowServed(n: int, s: Node, s': Node, who: Source, answers: Answers, w: Statement)
    requires s.db.Keys == {KEY} && AllServed(n, s, s', who, answers)
    requires s.db[KEY].status == Watches(who, s.phase)
    requires Verdict(n, KEY, s.db[KEY], answers(who, KEY, s.db[KEY])) == Writes(w)
    ensures s'.db == map[KEY := Updated(w, s.db[KEY])]
  {
  }

  /** A round whose verdict is this update turns the row into the updated row. */
  lemma RoundOnRow(n: int, s: Node, who: Source, input: Input, w: Statement)
    requires AtRest(n, s) && s.db.Keys == {KEY} && Works(who) && InputFor(who, input)
    requires s.db[KEY].status == Watches(who, Running) && Verdict(n, KEY, s.db[KEY], input) == Writes(w)
    ensures var s' := Exec(n, s, RoundOn(who, input));
            AtRest(n, s') && s'.db == map[KEY := Updated(w, s.db[KEY])]
  {
    var answers: Answers := (x, k, row) => input;
    OnlyKeyWatched(n, s, who, answers);
    RoundIsRoundOn(s, who, answers);
    ReachableRound(n, s, who, [KEY], answers);
    OnlyRowServed(n, s, Exec(n, s, RoundOn(who, input)), who, answers, w);
  }

  const AUDITED := AuditInput(Produced(REPORT, 0), "", ROOM)
  const SUBMITTED := SubmitInput(Sent("tx"), "", ROOM)
  const UNFINISHED := MonitorInput(1, Returns(false), Returns(0), "", ROOM)

  /** The first write of the monitor finds no room; the window is over. */
  const LATE := MonitorInput(1, Returns(false), Returns(5), "", Puts(false, true))

  /** The verdict is an update that brings the row to this stage and keeps its origin. */
  predicate Brings(o: Outcome, row: Row, status: Status, attempts: int) {
    && o.Writes?
    && var row' := Updated(o.statement, row);
       && row'.status == status && row'.attempts == attempts && TextOk(row')
       && row'.assignedBlock == row.assignedBlock
  }

  lemma AuditedRow(n: int, row: Row)
    requires TextOk(row) && row.attempts == 0
    ensures Brings(Verdict(n, KEY, row, AUDITED), row, ToBeSubmitted, 1)
  {
    DecodeThenEncode(KEY, row);
    IntTextIsText(0);
  }

  lemma SubmittedRow(n: int, row: Row)
    requires TextOk(row) && row.attempts == 1 && row.status.ToBeSubmitted?
    ensures Brings(Verdict(n, KEY, row, SUBMITTED), row, Submitted, 1)
  {
    DecodeThenEncode(KEY, row);
    SubmissionIsStored(Decode(KEY, row).value, row, SUBMITTED.sent, SUBMITTED.trace, SUBMITTED.puts);
  }

  lemma ResubmittedRow(n: int, row: Row, input: Input)
    requires TextOk(row) && row.attempts == 1 && row.status.Submitted? && row.assignedBlock == IntText(0)
    requires input == UNFINISHED || input == LATE
    ensures Brings(Verdict(n, KEY, row, input), row, ToBeSubmitted, 2)
  {
    MonitorFits(n, KEY, row, map[], input.limit, input.done, input.block, input.message, input.puts);
    ParseIntText(0);
    ResubmitsIff(Decode(KEY, row).value, input.limit, input.done, input.block, n, input.message, input.puts);
  }

  lemma AuditRound(n: int, s: Node)
    requires OneRow(n, s, Assigned, 0)
    ensures OneRow(n, Exec(n, s, RoundOn(Perform, AUDITED)), ToBeSubmitted, 1)
  {
    AuditedRow(n, s.db[KEY]);
    RoundOnRow(n, s, Perform, AUDITED, Verdict(n, KEY, s.db[KEY], AUDITED).statement);
  }

  lemma SubmitRound(n: int, s: Node)
    requires OneRow(n, s, ToBeSubmitted, 1)
    ensures OneRow(n, Exec(n, s, RoundOn(Submit, SUBMITTED)), Submitted, 1)
  {
    SubmittedRow(n, s.db[KEY]);
    RoundOnRow(n, s, Submit, SUBMITTED, Verdict(n, KEY, s.db[KEY], SUBMITTED).statement);
  }

  lemma MonitorRound(n: int, s: Node)
    requires OneRow(n, s, Submitted, 1)
    ensures OneRow(n, Exec(n, s, RoundOn(Monitor, UNFINISHED)), ToBeSubmitted, 2)
  {
    ResubmittedRow(n, s.db[KEY], UNFINISHED);
    RoundOnRow(n, s, Monitor, UNFINISHED, Verdict(n, KEY, s.db[KEY], UNFINISHED).statement);
  }

  lemma LateRound(n: int, s: Node)
    requires OneRow(n, s, Submitted, 1)
    ensures OneRow(n, Exec(n, s, RoundOn(Monitor, LATE)), ToBeSubmitted, 2)
  {
    ResubmittedRow(n, s.db[KEY], LATE);
    RoundOnRow(n, s, Monitor, LATE, Verdict(n, KEY, s.db[KEY], LATE).statement);
  }

  // ------------------------------------------------------------------- runs

  const UNTIL_ASSIGNED: seq<Action> := START + ASSIGN
  const UNTIL_AUDITED: seq<Action> := UNTIL_ASSIGNED + RoundOn(Perform, AUDITED)
  const UNTIL_SUBMITTED: seq<Action> := UNTIL_AUDITED + RoundOn(Submit, SUBMITTED)

  /** After start-up and one assignment the only row is assigned. */
  lemma ReachesAssigned(n: int)
    ensures OneRow(n, Exec(n, FRESH, UNTIL_ASSIGNED), Assigned, 0)
  {
    ExecConcat(n, FRESH, START, ASSIGN);
    Starts(n);
    Assigns(n, Exec(n, FRESH, START));
    IntTextIsText(0);
    IntTextIsText(5);
    assert Reachable(n, Exec(n, FRESH, UNTIL_ASSIGNED));
  }

  lemma ReachesAudited(n: int)
    ensures OneRow(n, Exec(n, FRESH, UNTIL_AUDITED), ToBeSubmitted, 1)
  {
    ReachesAssigned(n);
    ExecConcat(n, FRESH, UNTIL_ASSIGNED, RoundOn(Perform, AUDITED));
    AuditRound(n, Exec(n, FRESH, UNTIL_ASSIGNED));
  }

  /** Two rounds after the assignment the row is submitted. */
  lemma ReachesSubmitted(n: int)
    ensures OneRow(n, Exec(n, FRESH, UNTIL_SUBMITTED), Submitted, 1)
  {
    ReachesAudited(n);
    ExecConcat(n, FRESH, UNTIL_AUDITED, RoundOn(Submit, SUBMITTED));
    SubmitRound(n, Exec(n, FRESH, UNTIL_AUDITED));
  }

  /** The documented claim that a status never falls in rank fails: on this run an unfinished
      submission inside its window goes back from submitted to to-be-submitted. */
  lemma RankFalls(n: int)
    ensures var s := Exec(n, FRESH, UNTIL_SUBMITTED);
            var s' := Exec(n, s, RoundOn(Monitor, UNFINISHED));
            KEY in s.db && KEY in s'.db && Rank(s'.db[KEY].status) < Rank(s.db[KEY].status)
  {
    ReachesSubmitted(n);
    MonitorRound(n, Exec(n, FRESH, UNTIL_SUBMITTED));
  }

  /** The claim that a report is resubmitted only inside its audit window fails: on this run the
      window ends at block 1, the monitor reads block 5 and finds no room for its error update, and
      the general exception branch resubmits. */
  lemma ResubmitsLate(n: int)
    ensures var s := Exec(n, FRESH, UNTIL_SUBMITTED);
            var s' := Exec(n, s, RoundOn(Monitor, LATE));
            && KEY in s.db && s.db[KEY].status == Submitted && Decode(KEY, s.db[KEY]).Some?
            && !InWindow(Decode(KEY, s.db[KEY]).value, LATE.limit, LATE.block.value)
            && KEY in s'.db && s'.db[KEY].status == ToBeSubmitted
  {
    ReachesSubmitted(n);
    LateRound(n, Exec(n, FRESH, UNTIL_SUBMITTED));
    ParseIntText(0);
  }

  // --------------------------------------------------------------- resending

  /** Every submission is answered as a duplicate, as not confirmed or with a KeyError. */
  ghost predicate NeverAccepted(answers: Answers) {
    forall k, row :: answers(Submit, k, row).SubmitInput? && NoProgress(answers(Submit, k, row).sent)
  }

  lemma ResendVerdict(n: int, k: Key, row: Row, input: Input)
    requires TextOk(row) && input.SubmitInput? && NoProgress(input.sent)
    ensures Verdict(n, k, row, input) == Nothing
  {
    SubmissionSilentIff(Decode(k, row).value, input.sent, input.trace, input.puts);
  }

  lemma SubmitsNotThis(n: int, s: Node, answers: Answers, k: Key)
    requires NeverAccepted(answers) && k in s.db && TextOk(s.db[k])
    ensures Survives(n, Submit, k, s.db[k], answers) && Served(n, s, Submit, k, answers) == s.db[k]
  {
    assert answers(Submit, k, s.db[k]).SubmitInput?;
    ResendVerdict(n, k, s.db[k], answers(Submit, k, s.db[k]));
  }

  lemma SubmitsNothing(n: int, s: Node, answers: Answers)
    requires Reachable(n, s) && NeverAccepted(answers)
    ensures SurvivesAll(n, s, Submit, answers)
    ensures forall k :: k in s.db ==> Served(n, s, Submit, k, answers) == s.db[k]
  {
    ReachableText(n, s);
    forall k | k in s.db
      ensures Survives(n, Submit, k, s.db[k], answers) && Served(n, s, Submit, k, answers) == s.db[k]
    {
      SubmitsNotThis(n, s, answers, k);
    }
  }

  lemma SameTable(n: int, s: Node, s': Node, answers: Answers)
    requires AllServed(n, s, s', Submit, answers)
    requires forall k :: k in s.db ==> Served(n, s, Submit, k, answers) == s.db[k]
    ensures s'.db == s.db
  {
  }

  lemma ResendRound(n: int, s: Node, answers: Answers)
    requires AtRest(n, s) && NeverAccepted(answers)
    ensures AtRest(n, After(n, s, Submit, answers)) && After(n, s, Submit, answers).db == s.db
  {
    SubmitsNothing(n, s, answers);
    ReachableRound(n, s, Submit, Listing(Watched(s, Submit)), answers);
    SameTable(n, s, After(n, s, Submit, answers), answers);
  }

  ghost function SubmitRounds(n: int, s: Node, answers: Answers, times: nat): seq<Action>
    decreases times
  {
    if times == 0 then []
    else
      var round := LiveRound(s, Submit, answers);
      round + SubmitRounds(n, After(n, s, Submit, answers), answers, times - 1)
  }

  /** Attempts bound status changes, not transactions: as long as the chain accepts no submission, any
      number of rounds of the submission thread, each of which sends every waiting report again,
      leaves the database as it is. */
  lemma {:induction false} ResendsWithoutProgress(n: int, s: Node, answers: Answers, times: nat)
    requires AtRest(n, s) && NeverAccepted(answers)
    ensures var s' := Exec(n, s, SubmitRounds(n, s, answers, times));
            AtRest(n, s') && s'.db == s.db
    decreases times
  {
    if times > 0 {
      var round := LiveRound(s, Submit, answers);
      var s1 := After(n, s, Submit, answers);
      ResendRound(n, s, answers);
      ResendsWithoutProgress(n, s1, answers, times - 1);
      ExecConcat(n, s, round, SubmitRounds(n, s1, answers, times - 1));
    }
  }

  /** Such a state is reached: after the audit of this run the report waits, and stays waiting. */
  lemma ResendsForever(n: int, answers: Answers, times: nat)
    requires NeverAccepted(answers)
    ensures var s := Exec(n, FRESH, UNTIL_AUDITED);
            && KEY in s.db && s.db[KEY].status == ToBeSubmitted
            && Exec(n, s, SubmitRounds(n, s, answers, times)).db == s.db
  {
    ReachesAudited(n);
    ResendsWithoutProgress(n, Exec(n, FRESH, UNTIL_AUDITED), answers, times);
  }
}
