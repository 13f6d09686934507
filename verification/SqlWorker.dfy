/** The database worker (sql3liteworker.py): one thread applies what many threads put on a queue. */
module SqlWorker {
  import opened Wrappers
  import opened EventTable

  datatype Command = Update(statement: Statement) | Lookup(query: Query)

  /** A thread that uses the worker. */
  type Client = nat

  /** A queue entry: a command under a fresh token, or the token that `close` puts. The client is
      noted for the statements below; the worker never looks at it. */
  datatype Entry = Job(token: nat, client: Client, command: Command) | ExitJob

  /** What is left in `results` under a token: the rows of a select, or a failed write's error. */
  datatype Answer = Rows(rows: Table) | Failure

  /** The worker's fields. Tokens are numbered in the order of the puts. `checking` is true between
      running a query and the exit test. */
  datatype Store = Store(db: Table, queue: seq<Entry>, results: map<nat, Answer>, nextToken: nat,
                         exitSet: bool, running: bool, checking: bool)

  /** An answer handed over, and to whom. */
  datatype Delivery = Delivery(client: Client, answer: Answer)

  /** What has happened: every entry ever put, whether each taken entry committed, the answers
      handed over by token, and how many entries there were when the exit flag was set. */
  datatype History = History(initial: Table, log: seq<Entry>, oks: seq<bool>,
                             delivered: map<nat, Delivery>, sealed: Option<nat>)

  /** `waiting`: the token each blocked client looks for in the results. */
  datatype World = World(store: Store, waiting: map<Client, nat>, history: History)

  datatype Action =
    | Put(client: Client, command: Command)
    | Take(ok: bool)
    | CheckExit
    | Collect(client: Client)
    | SetExit
    | PutExit

  predicate Enabled(w: World, a: Action) {
    match a
    case Put(client, _) => client !in w.waiting
    case Take(_) => w.store.running && !w.store.checking && w.store.queue != []
    case CheckExit => w.store.running && w.store.checking
    case Collect(client) => client in w.waiting && w.waiting[client] in w.store.results
    case _ => true
  }

  /** The effect of one entry on the database; a write that fails is rolled back. */
  function Apply(db: Table, entry: Entry, ok: bool): Table {
    if entry.Job? && entry.command.Update? && ok && !Violates(db, entry.command.statement)
    then Run(db, entry.command.statement) else db
  }

  /** The database after the first |oks| entries of the log, in order. */
  function Replay(initial: Table, log: seq<Entry>, oks: seq<bool>): Table
    requires |oks| <= |log|
    decreases |oks|
  {
    if oks == [] then initial
    else
      var m := |oks| - 1;
      Apply(Replay(initial, log, oks[..m]), log[m], oks[m])
  }

  /** `run_query`: selects always leave their rows, writes leave something only when they fail. */
  function RunQuery(db: Table, results: map<nat, Answer>, entry: Entry, ok: bool): (Table, map<nat, Answer>) {
    match entry
    case ExitJob => (db, results)
    case Job(token, _, Lookup(query)) => (db, results[token := Rows(Select(db, query))])
    case Job(token, _, Update(statement)) =>
      if ok && !Violates(db, statement) then (Run(db, statement), results)
      else (db, results[token := Failure])
  }

  function Append(w: World, entry: Entry): World {
    w.(store := w.store.(queue := w.store.queue + [entry], nextToken := w.store.nextToken + 1),
       history := w.history.(log := w.history.log + [entry]))
  }

  function Next(w: World, a: Action): World
    requires Enabled(w, a)
  {
    var s, h := w.store, w.history;
    match a
    case Put(client, command) =>
      Append(w, Job(s.nextToken, client, command))
      .(waiting := if command.Lookup? then w.waiting[client := s.nextToken] else w.waiting)
    case Take(ok) =>
      var (db, results) := RunQuery(s.db, s.results, s.queue[0], ok);
      w.(store := s.(db := db, results := results, queue := s.queue[1..], checking := true),
         history := h.(oks := h.oks + [ok]))
    case CheckExit =>
      w.(store := if s.exitSet && s.queue == [] then s.(running := false, checking := false)
                  else s.(checking := false))
    case Collect(client) =>
      var token := w.waiting[client];
      World(s.(results := s.results - {token}), w.waiting - {client},
            h.(delivered := h.delivered[token := Delivery(client, s.results[token])]))
    case SetExit =>
      w.(store := s.(exitSet := true),
         history := if h.sealed.Some? then h else h.(sealed := Some(|h.log|)))
    case PutExit => Append(w, ExitJob)
  }

  function Step(w: World, a: Action): World {
    if Enabled(w, a) then Next(w, a) else w
  }

  function Exec(w: World, actions: seq<Action>): World
    decreases |actions|
  {
    if actions == [] then w else Exec(Step(w, actions[0]), actions[1..])
  }

  /** A worker just started on an existing database. */
  function Started(db: Table): World {
    World(Store(db, [], map[], 0, false, true, false), map[], History(db, [], [], map[], None))
  }

  // --------------------------------------------------------------- invariant

  /** The database right before entry i ran. */
  function Before(h: History, i: nat): Table
    requires i <= |h.oks| <= |h.log|
  {
    Replay(h.initial, h.log, h.oks[..i])
  }

  /** Entry i is a select of this client. */
  predicate SelectOf(h: History, i: nat, client: Client) {
    i < |h.log| && h.log[i].Job? && h.log[i].client == client && h.log[i].command.Lookup?
  }

  /** Entry i is a select that has run, and this is its correct answer. */
  predicate AnswerOf(h: History, i: nat, answer: Answer) {
    && i < |h.oks| <= |h.log|
    && h.log[i].Job? && h.log[i].command.Lookup?
    && answer == Rows(Select(Before(h, i), h.log[i].command.query))
  }

  predicate FailureOf(h: History, i: nat, answer: Answer) {
    i < |h.oks| <= |h.log| && h.log[i].Job? && h.log[i].command.Update? && answer == Failure
  }

  /** Entries carry their place in the log as token. */
  predicate TokensOk(w: World) {
    && w.store.nextToken == |w.history.log|
    && forall i :: 0 <= i < |w.history.log| && w.history.log[i].Job? ==> w.history.log[i].token == i
  }

  predicate AnswersOk(w: World) {
    && (forall t :: t in w.store.results ==>
          AnswerOf(w.history, t, w.store.results[t]) || FailureOf(w.history, t, w.store.results[t]))
    && (forall t :: t in w.history.delivered ==>
          AnswerOf(w.history, t, w.history.delivered[t].answer)
          && SelectOf(w.history, t, w.history.delivered[t].client))
    && (forall t :: t in w.store.results ==> t !in w.history.delivered)
  }

  /** Each select that has run is either waiting in `results` or was handed over. */
  predicate NothingLost(w: World) {
    && |w.history.oks| <= |w.history.log|
    && forall i :: 0 <= i < |w.history.oks| && w.history.log[i].Job?
                   && w.history.log[i].command.Lookup? ==>
         i in w.store.results || i in w.history.delivered
  }

  /** A blocked client waits for a select of its own that was not handed over yet, and each select
      that was not handed over is waited for by its client. */
  predicate WaitingOk(w: World) {
    && (forall c :: c in w.waiting ==>
          SelectOf(w.history, w.waiting[c], c) && w.waiting[c] !in w.history.delivered)
    && (forall i :: 0 <= i < |w.history.log| && w.history.log[i].Job?
                    && w.history.log[i].command.Lookup? && i !in w.history.delivered ==>
          var c := w.history.log[i].client;
          c in w.waiting && w.waiting[c] == i)
  }

  predicate ExitOk(w: World) {
    && (w.store.exitSet <==> w.history.sealed.Some?)
    && (w.history.sealed.Some? ==> w.history.sealed.value <= |w.history.log|)
    && (!w.store.running ==> w.history.sealed.Some? && w.history.sealed.value <= |w.history.oks|)
  }

  predicate Inv(w: World) {
    && |w.history.oks| <= |w.history.log|
    && w.store.queue == w.history.log[|w.history.oks|..]
    && w.store.db == Replay(w.history.initial, w.history.log, w.history.oks)
    && TokensOk(w) && AnswersOk(w) && NothingLost(w) && WaitingOk(w) && ExitOk(w)
  }

  // ------------------------------------------------------------ preservation

  lemma {:induction false} ReplayIgnoresRest(initial: Table, log: seq<Entry>, more: seq<Entry>, oks: seq<bool>)
    requires |oks| <= |log|
    ensures Replay(initial, log + more, oks) == Replay(initial, log, oks)
    decreases |oks|
  {
    if oks != [] {
      ReplayIgnoresRest(initial, log, more, oks[..|oks| - 1]);
    }
  }

  /** Answers stay right as the log and the list of outcomes grow. */
  lemma HistoryGrows(h: History, h': History, i: nat, answer: Answer)
    requires h'.initial == h.initial && h.log <= h'.log && h.oks <= h'.oks
    requires |h.oks| <= |h.log| && |h'.oks| <= |h'.log|
    ensures AnswerOf(h, i, answer) ==> AnswerOf(h', i, answer)
    ensures FailureOf(h, i, answer) ==> FailureOf(h', i, answer)
  {
    if i < |h.oks| {
      assert h'.oks[..i] == h.oks[..i];
      assert h'.log == h.log + h'.log[|h.log|..];
      ReplayIgnoresRest(h.initial, h.log, h'.log[|h.log|..], h.oks[..i]);
    }
  }

  lemma AnswersGrow(w: World, w': World)
    requires AnswersOk(w)
    requires w'.store.results == w.store.results && w'.history.delivered == w.history.delivered
    requires w'.history.initial == w.history.initial
    requires w.history.log <= w'.history.log && w.history.oks <= w'.history.oks
    requires |w.history.oks| <= |w.history.log| && |w'.history.oks| <= |w'.history.log|
    ensures AnswersOk(w')
  {
    forall t, x | AnswerOf(w.history, t, x) ensures AnswerOf(w'.history, t, x) {
      HistoryGrows(w.history, w'.history, t, x);
    }
    forall t, x | FailureOf(w.history, t, x) ensures FailureOf(w'.history, t, x) {
      HistoryGrows(w.history, w'.history, t, x);
    }
  }

  lemma AppendKeeps(w: World, entry: Entry)
    requires Inv(w)
    requires entry.Job? ==> entry.token == w.store.nextToken
    ensures var w' := Append(w, entry);
            && w'.store.queue == w'.history.log[|w'.history.oks|..]
            && w'.store.db == Replay(w'.history.initial, w'.history.log, w'.history.oks)
            && TokensOk(w') && AnswersOk(w') && NothingLost(w') && ExitOk(w')
  {
    ReplayIgnoresRest(w.history.initial, w.history.log, [entry], w.history.oks);
    AnswersGrow(w, Append(w, entry));
  }

  lemma PutKeeps(w: World, client: Client, command: Command)
    requires Inv(w) && Enabled(w, Put(client, command))
    ensures Inv(Next(w, Put(client, command)))
  {
    AppendKeeps(w, Job(w.store.nextToken, client, command));
  }

  /** A turn leaves at most one new result, the right one, under the token of its entry. */
  lemma NewResult(w: World, ok: bool)
    requires w.store.queue != [] && |w.history.oks| < |w.history.log|
    requires w.store.db == Replay(w.history.initial, w.history.log, w.history.oks)
    requires w.store.queue[0] == w.history.log[|w.history.oks|]
    requires w.store.queue[0].Job? ==> w.store.queue[0].token == |w.history.oks|
    ensures var m, results := |w.history.oks|, RunQuery(w.store.db, w.store.results, w.store.queue[0], ok).1;
            var h' := w.history.(oks := w.history.oks + [ok]);
            && (forall t :: t in results && t != m ==> t in w.store.results && results[t] == w.store.results[t])
            && (m in results && m !in w.store.results ==> AnswerOf(h', m, results[m]) || FailureOf(h', m, results[m]))
  {
    var h := w.history;
    assert h.oks[..|h.oks|] == h.oks && (h.oks + [ok])[..|h.oks|] == h.oks;
  }

  lemma TakeAnswers(w: World, ok: bool)
    requires Inv(w) && Enabled(w, Take(ok))
    ensures AnswersOk(Next(w, Take(ok)))
  {
    var h, w' := w.history, Next(w, Take(ok));
    assert w.store.queue[0] == h.log[|h.oks|];
    AnswersGrow(w, w.(history := w'.history));
    NewResult(w, ok);
  }

  lemma TakeKeeps(w: World, ok: bool)
    requires Inv(w) && Enabled(w, Take(ok))
    ensures Inv(Next(w, Take(ok)))
  {
    var h, w' := w.history, Next(w, Take(ok));
    assert w'.history.oks[..|h.oks|] == h.oks;
    assert w.store.queue[0] == h.log[|h.oks|];
    TakeAnswers(w, ok);
  }

  lemma CollectKeeps(w: World, client: Client)
    requires Inv(w) && Enabled(w, Collect(client))
    ensures Inv(Next(w, Collect(client)))
  {
    var h, w' := w.history, Next(w, Collect(client));
    assert forall t, x :: AnswerOf(w'.history, t, x) == AnswerOf(h, t, x);
    assert forall t, x :: FailureOf(w'.history, t, x) == FailureOf(h, t, x);
    assert forall t, c :: SelectOf(w'.history, t, c) == SelectOf(h, t, c);
  }

  lemma StepKeeps(w: World, a: Action)
    requires Inv(w)
    ensures Inv(Step(w, a))
  {
    if Enabled(w, a) {
      match a
      case Put(client, command) => PutKeeps(w, client, command);
      case Take(ok) => TakeKeeps(w, ok);
      case Collect(client) => CollectKeeps(w, client);
      case PutExit => AppendKeeps(w, ExitJob);
      case _ => AnswersGrow(w, Next(w, a));
    }
  }

  lemma {:induction false} ExecKeeps(w: World, actions: seq<Action>)
    requires Inv(w)
    ensures Inv(Exec(w, actions))
    decreases |actions|
  {
    if actions != [] {
      StepKeeps(w, actions[0]);
      ExecKeeps(Step(w, actions[0]), actions[1..]);
    }
  }

  lemma StartedInv(db: Table)
    ensures Inv(Started(db))
  {
  }

  // ---------------------------------------------------------------- theorems

  /** Every answer handed over goes to the client that put the select, and it is that query on the
      database after exactly the entries put before it by any client, in queue order, with failed
      writes rolled back. */
  lemma Linearizable(db: Table, actions: seq<Action>, token: nat)
    ensures var h := Exec(Started(db), actions).history;
            token in h.delivered ==>
              && token < |h.oks| <= |h.log|
              && h.log[token].Job? && h.log[token].command.Lookup?
              && h.delivered[token].client == h.log[token].client
              && h.delivered[token].answer
                 == Rows(Select(Replay(db, h.log, h.oks[..token]), h.log[token].command.query))
  {
    StartedInv(db);
    ExecKeeps(Started(db), actions);
    InitialStays(Started(db), actions);
  }

  /** A blocked client waits for the last entry it has put, which is a select: between its select and
      the answer a client does nothing else. */
  lemma WaitsForItsLast(db: Table, actions: seq<Action>, client: Client)
    ensures var w := Exec(Started(db), actions);
            client in w.waiting ==>
              && SelectOf(w.history, w.waiting[client], client)
              && forall i :: w.waiting[client] < i < |w.history.log| && w.history.log[i].Job? ==>
                   w.history.log[i].client != client
  {
    LastInv(Started(db), actions);
    StartedInv(db);
    ExecKeeps(Started(db), actions);
  }

  predicate WaitsLast(w: World) {
    forall c, i :: c in w.waiting && w.waiting[c] < i < |w.history.log| && w.history.log[i].Job? ==>
      w.history.log[i].client != c
  }

  lemma LastStep(w: World, a: Action)
    requires Inv(w) && WaitsLast(w)
    ensures WaitsLast(Step(w, a))
  {
  }

  lemma {:induction false} LastInv(w: World, actions: seq<Action>)
    requires Inv(w) && WaitsLast(w)
    ensures WaitsLast(Exec(w, actions))
    decreases |actions|
  {
    if actions != [] {
      LastStep(w, actions[0]);
      StepKeeps(w, actions[0]);
      LastInv(Step(w, actions[0]), actions[1..]);
    }
  }

  lemma DeliveredStays(w: World, a: Action, token: nat)
    requires Inv(w) && token in w.history.delivered
    ensures var w' := Step(w, a);
            token in w'.history.delivered && w'.history.delivered[token] == w.history.delivered[token]
  {
  }

  /** A result is handed out once: afterwards it is gone from `results`, the answer the caller got
      stays what it was, and no client can collect that token again. */
  lemma {:induction false} DeliveredOnce(w: World, actions: seq<Action>, token: nat)
    requires Inv(w) && token in w.history.delivered
    ensures var w' := Exec(w, actions);
            && token in w'.history.delivered
            && w'.history.delivered[token] == w.history.delivered[token]
            && token !in w'.store.results
            && forall c :: Enabled(w', Collect(c)) ==> w'.waiting[c] != token
    decreases |actions|
  {
    if actions != [] {
      StepKeeps(w, actions[0]);
      DeliveredStays(w, actions[0], token);
      DeliveredOnce(Step(w, actions[0]), actions[1..], token);
    }
  }

  /** When the connection has been closed, everything that was on the queue when the exit flag was
      set has been applied, in order, and nothing else than what was queued was applied. */
  lemma ClosingLosesNothing(db: Table, actions: seq<Action>)
    ensures var w := Exec(Started(db), actions);
            !w.store.running ==>
              && w.history.sealed.Some?
              && w.history.sealed.value <= |w.history.oks| <= |w.history.log|
              && w.store.db == Replay(db, w.history.log, w.history.oks)
  {
    StartedInv(db);
    ExecKeeps(Started(db), actions);
    InitialStays(Started(db), actions);
  }

  lemma {:induction false} InitialStays(w: World, actions: seq<Action>)
    ensures Exec(w, actions).history.initial == w.history.initial
    decreases |actions|
  {
    if actions != [] {
      InitialStays(Step(w, actions[0]), actions[1..]);
    }
  }

  lemma ClosedStays(w: World, a: Action)
    requires !w.store.running
    ensures var w' := Step(w, a);
            && !w'.store.running && w'.store.db == w.store.db && w'.history.oks == w.history.oks
            && w.history.log <= w'.history.log
  {
  }

  lemma {:induction false} ClosedForever(w: World, actions: seq<Action>)
    requires !w.store.running
    ensures var w' := Exec(w, actions);
            && !w'.store.running && w'.store.db == w.store.db && w'.history.oks == w.history.oks
            && w.history.log <= w'.history.log
    decreases |actions|
  {
    if actions != [] {
      ClosedStays(w, actions[0]);
      ClosedForever(Step(w, actions[0]), actions[1..]);
    }
  }

  /** The flag is what counts, not the call to `close`: whatever is put after the connection was
      closed is never applied and, if it is a select, never answered. */
  lemma LatePutIsLost(w: World, actions: seq<Action>, i: nat)
    requires Inv(w) && !w.store.running
    requires |w.history.log| <= i < |Exec(w, actions).history.log|
    ensures var w' := Exec(w, actions);
            && w'.store.db == w.store.db && i >= |w'.history.oks|
            && i !in w'.history.delivered
  {
    ClosedForever(w, actions);
    ExecKeeps(w, actions);
  }

  // ----------------------------------------------------------------- progress

  /** A turn of the worker and its exit test, once for each outcome. */
  function Pairs(oks: seq<bool>): seq<Action>
    decreases |oks|
  {
    if oks == [] then [] else [Take(oks[0]), CheckExit] + Pairs(oks[1..])
  }

  lemma {:induction false} ExecConcat(w: World, a: seq<Action>, b: seq<Action>)
    ensures Exec(w, a + b) == Exec(Exec(w, a), b)
    decreases |a|
  {
    if a == [] {
      assert a + b == b;
    } else {
      assert (a + b)[0] == a[0] && (a + b)[1..] == a[1..] + b;
      ExecConcat(Step(w, a[0]), a[1..], b);
    }
  }

  lemma ExecTwo(w: World, a: Action, b: Action)
    ensures Exec(w, [a, b]) == Step(Step(w, a), b)
  {
    assert [a, b][1..] == [b] && [b][1..] == [];
    assert Exec(Step(w, a), [b]) == Exec(Step(Step(w, a), b), []);
  }

  lemma PairWorks(w: World, ok: bool)
    requires w.store.running && !w.store.checking && w.store.queue != []
    ensures var w' := Exec(w, [Take(ok), CheckExit]);
            && w'.store.queue == w.store.queue[1..] && !w'.store.checking
            && w'.store.exitSet == w.store.exitSet
            && w'.store.running == !(w.store.exitSet && |w.store.queue| == 1)
            && w'.history == w.history.(oks := w.history.oks + [ok])
  {
    ExecTwo(w, Take(ok), CheckExit);
  }

  /** As many turns as there are entries empty the queue; with the exit flag the worker then stops. */
  lemma {:induction false} PairsDrain(w: World, oks: seq<bool>)
    requires w.store.running && !w.store.checking && |oks| == |w.store.queue|
    ensures var w' := Exec(w, Pairs(oks));
            && w'.store.queue == [] && w'.history == w.history.(oks := w.history.oks + oks)
            && w'.store.running == !(w.store.exitSet && oks != [])
    decreases |oks|
  {
    if oks == [] {
      assert w.history.oks + oks == w.history.oks;
    } else {
      var first := [Take(oks[0]), CheckExit];
      var w1 := Exec(w, first);
      PairWorks(w, oks[0]);
      ExecConcat(w, first, Pairs(oks[1..]));
      assert w.history.oks + [oks[0]] + oks[1..] == w.history.oks + oks;
      if |oks| > 1 {
        PairsDrain(w1, oks[1..]);
      } else {
        assert oks[1..] == [] && Pairs(oks[1..]) == [];
      }
    }
  }

  /** `close`: the flag and the exit token, and then the worker's own turns. */
  function Closing(oks: seq<bool>): seq<Action> {
    [SetExit, PutExit] + ([CheckExit] + Pairs(oks))
  }

  lemma RaisesFlag(w: World)
    ensures var w' := Exec(w, [SetExit, PutExit]);
            && w'.store.exitSet && w'.store.queue == w.store.queue + [ExitJob]
            && w'.store.running == w.store.running && w'.store.checking == w.store.checking
            && w'.history.oks == w.history.oks && w'.history.log == w.history.log + [ExitJob]
            && w'.history.initial == w.history.initial
  {
    ExecTwo(w, SetExit, PutExit);
  }

  lemma PendingTest(w: World)
    requires w.store.running && w.store.queue != []
    ensures var w' := Exec(w, [CheckExit]);
            w'.history == w.history && w'.store == w.store.(checking := false)
  {
    assert [CheckExit][1..] == [];
  }

  /** Closing ends: from every state of a running worker, once the flag is raised and the exit token
      put, as many turns as there are entries stop the worker with every entry ever put applied in
      order, whatever writes fail. */
  lemma ClosingStops(w: World, oks: seq<bool>)
    requires Inv(w) && w.store.running && |oks| == |w.store.queue| + 1
    ensures var w' := Exec(w, Closing(oks));
            && !w'.store.running && w'.store.queue == []
            && w'.history.log == w.history.log + [ExitJob] && |w'.history.oks| == |w'.history.log|
            && w'.history.oks == w.history.oks + oks
            && w'.store.db == Replay(w.history.initial, w'.history.log, w'.history.oks)
  {
    var w1 := Exec(w, [SetExit, PutExit]);
    var w2 := Exec(w1, [CheckExit]);
    ExecConcat(w, [SetExit, PutExit], [CheckExit] + Pairs(oks));
    ExecConcat(w1, [CheckExit], Pairs(oks));
    RaisesFlag(w);
    PendingTest(w1);
    PairsDrain(w2, oks);
    ExecKeeps(w, Closing(oks));
  }

  /** The exit test stops the worker exactly with the flag set and nothing queued. */
  lemma StopsIff(w: World, a: Action)
    ensures w.store.running && !Step(w, a).store.running <==>
            a == CheckExit && w.store.running && w.store.checking && w.store.exitSet && w.store.queue == []
  {
  }

  /** Every select is answered: once its turn is over the client that put it can collect. */
  lemma AnswersArrive(w: World, i: nat)
    requires Inv(w) && i < |w.history.oks|
    requires w.history.log[i].Job? && w.history.log[i].command.Lookup? && i !in w.history.delivered
    ensures Enabled(w, Collect(w.history.log[i].client))
    ensures w.waiting[w.history.log[i].client] == i
  {
  }

  // ------------------------------------------------------------- the object

  datatype Reply = Refused | Full | Queued(token: nat)

  /** Some run of a started worker leads to the state. */
  ghost predicate Reachable(w: World) {
    exists db, actions :: Exec(Started(db), actions) == w
  }

  lemma {:induction false} ExecAppend(w: World, actions: seq<Action>, a: Action)
    ensures Exec(w, actions + [a]) == Step(Exec(w, actions), a)
    decreases |actions|
  {
    if actions == [] {
      assert [a][1..] == [];
    } else {
      assert (actions + [a])[0] == actions[0] && (actions + [a])[1..] == actions[1..] + [a];
      ExecAppend(Step(w, actions[0]), actions[1..], a);
    }
  }

  lemma ReachableOn(w: World, a: Action)
    requires Reachable(w)
    ensures Reachable(Step(w, a))
  {
    var db, actions :| Exec(Started(db), actions) == w;
    ExecAppend(Started(db), actions, a);
    assert Exec(Started(db), actions + [a]) == Step(w, a);
  }

  lemma ReachableInv(w: World)
    requires Reachable(w)
    ensures Inv(w)
  {
    var db, actions :| Exec(Started(db), actions) == w;
    StartedInv(db);
    ExecKeeps(Started(db), actions);
  }

  /** The worker object. Each method is one atomic step of one of the threads that share it. */
  class Sqlite3Worker {
    var db: Table
    var sqlQueue: seq<Entry>
    var results: map<nat, Answer>
    var nextToken: nat
    var exitSet: bool
    var threadRunning: bool
    var checking: bool
    ghost var waiting: map<Client, nat>
    ghost var history: History

    ghost function View(): World
      reads this
    {
      World(Store(db, sqlQueue, results, nextToken, exitSet, threadRunning, checking), waiting, history)
    }

    ghost predicate Valid()
      reads this
    {
      Reachable(View())
    }

    constructor (database: Table)
      ensures View() == Started(database) && Valid()
    {
      db, sqlQueue, results, nextToken := database, [], map[], 0;
      exitSet, threadRunning, checking := false, true, false;
      waiting, history := map[], History(database, [], [], map[], None);
      new;
      assert Exec(Started(database), []) == View();
    }

    /** `execute` up to the `put`. `room` says whether the bounded queue takes the entry in time. */
    method Execute(client: Client, command: Command, room: bool) returns (reply: Reply)
      requires Valid() && client !in waiting
      modifies this
      ensures Valid()
      ensures old(exitSet) ==> reply == Refused && View() == old(View())
      ensures !old(exitSet) && !room ==> reply == Full && View() == old(View())
      ensures !old(exitSet) && room ==>
        reply == Queued(old(nextToken)) && View() == Next(old(View()), Put(client, command))
      ensures db == old(db) && results == old(results)
      ensures sqlQueue == old(sqlQueue)
              + if reply.Queued? then [Job(old(nextToken), client, command)] else []
    {
      if exitSet {
        return Refused;
      }
      if !room {
        return Full;
      }
      ReachableOn(View(), Put(client, command));
      sqlQueue := sqlQueue + [Job(nextToken, client, command)];
      history := history.(log := history.log + [Job(nextToken, client, command)]);
      if command.Lookup? {
        waiting := waiting[client := nextToken];
      }
      reply := Queued(nextToken);
      nextToken := nextToken + 1;
    }

    /** One pass of the loop in `run` up to the exit test. `ok` is false when the write fails. */
    method RunOne(ok: bool)
      requires Valid() && Enabled(View(), Take(ok))
      modifies this
      ensures Valid() && View() == Next(old(View()), Take(ok))
      ensures sqlQueue == old(sqlQueue)[1..] && exitSet == old(exitSet)
      ensures match old(sqlQueue)[0]
              case ExitJob => db == old(db) && results == old(results)
              case Job(token, _, Lookup(query)) =>
                db == old(db) && results == old(results)[token := Rows(Select(old(db), query))]
              case Job(token, _, Update(statement)) =>
                if ok && !Violates(old(db), statement)
                then db == Run(old(db), statement) && results == old(results)
                else db == old(db) && results == old(results)[token := Failure]
    {
      ReachableOn(View(), Take(ok));
      var entry := sqlQueue[0];
      sqlQueue := sqlQueue[1..];
      match entry {
        case ExitJob =>
        case Job(token, _, Lookup(query)) =>
          results := results[token := Rows(Select(db, query))];
        case Job(token, _, Update(statement)) =>
          if ok && !Violates(db, statement) {
            db := Run(db, statement);
          } else {
            results := results[token := Failure];
          }
      }
      history := history.(oks := history.oks + [ok]);
      checking := true;
    }

    method TestExit()
      requires Valid() && Enabled(View(), CheckExit)
      modifies this
      ensures Valid() && View() == Next(old(View()), CheckExit)
      ensures threadRunning == !(old(exitSet) && old(sqlQueue) == [])
      ensures db == old(db) && sqlQueue == old(sqlQueue) && results == old(results) && !checking
    {
      ReachableOn(View(), CheckExit);
      checking := false;
      if exitSet && sqlQueue == [] {
        threadRunning := false;
      }
    }

    /** One look of `query_results` for the caller's own select. */
    method LookForResult(client: Client, token: nat) returns (answer: Option<Answer>)
      requires Valid() && client in waiting && waiting[client] == token
      modifies this
      ensures Valid()
      ensures token !in old(results) ==> answer == None && View() == old(View())
      ensures token in old(results) ==>
        answer == Some(old(results)[token]) && View() == Next(old(View()), Collect(client))
        && results == old(results) - {token} && waiting == old(waiting) - {client}
    {
      if token !in results {
        return None;
      }
      ReachableOn(View(), Collect(client));
      answer := Some(results[token]);
      history := history.(delivered := history.delivered[token := Delivery(client, results[token])]);
      results := results - {token};
      waiting := waiting - {client};
    }

    method RaiseExitFlag()
      requires Valid()
      modifies this
      ensures Valid() && View() == Next(old(View()), SetExit)
      ensures exitSet && sqlQueue == old(sqlQueue) && db == old(db) && results == old(results)
    {
      ReachableOn(View(), SetExit);
      if history.sealed.None? {
        history := history.(sealed := Some(|history.log|));
      }
      exitSet := true;
    }

    method PutExitToken()
      requires Valid()
      modifies this
      ensures Valid() && View() == Next(old(View()), PutExit)
      ensures sqlQueue == old(sqlQueue) + [ExitJob] && db == old(db) && results == old(results)
    {
      ReachableOn(View(), PutExit);
      nextToken := nextToken + 1;
      sqlQueue := sqlQueue + [ExitJob];
      history := history.(log := history.log + [ExitJob]);
    }
  }
}
