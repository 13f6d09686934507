/** The node built on the database worker: threads put commands, wait, and collect their answers.
    Every run of it is a run of the state machine of AuditNode. */
module NodeOnWorker {
  import opened Wrappers
  import opened EventTable
  import opened Handlers
  import opened AuditNode
  import opened NodeTheorems
  import W = SqlWorker

  /** Each thread is a client of the worker. */
  function ClientOf(who: Source): W.Client {
    match who
    case Startup => 0
    case Perform => 1
    case Submit => 2
    case Monitor => 3
    case Poll => 4
  }

  function ThreadOf(client: W.Client): Source {
    match client
    case 0 => Startup
    case 1 => Perform
    case 2 => Submit
    case 3 => Monitor
    case _ => Poll
  }

  function CommandOf(item: Item): W.Command {
    if item.Write? then W.Update(item.statement) else W.Lookup(item.query)
  }

  function ItemOf(entry: W.Entry): Item
    requires entry.Job?
  {
    match entry.command
    case Update(statement) => Write(ThreadOf(entry.client), statement)
    case Lookup(query) => Ask(ThreadOf(entry.client), query)
  }

  /** The worker and what the threads keep to themselves. A thread that is `Waiting` here stays so
      until it has collected its answer. */
  datatype System = System(world: W.World, locals: map<Source, Local>, poll: PollState, phase: Phase,
                           offered: Seen, finished: Seen)

  /** Steps of the worker thread, the collection of an answer, and the threads' own steps. */
  datatype Move = Turn(ok: bool) | TestExit | Collects(who: Source) | Acts(a: Action)

  function QueueOf(queue: seq<W.Entry>): seq<Item>
    requires forall i :: 0 <= i < |queue| ==> queue[i].Job?
  {
    seq(|queue|, i requires 0 <= i < |queue| => ItemOf(queue[i]))
  }

  predicate OnlyJobs(c: System) {
    forall i :: 0 <= i < |c.world.store.queue| ==> c.world.store.queue[i].Job?
  }

  /** What the threads see of the system. */
  function View(c: System): Node
    requires OnlyJobs(c)
  {
    Node(c.world.store.db, QueueOf(c.world.store.queue), c.locals, c.poll, c.phase, c.offered, c.finished)
  }

  /** The result that lies ready for a blocked thread. */
  function ReadyFor(w: W.World, who: Source): Option<Table> {
    var client := ClientOf(who);
    if client in w.waiting && w.waiting[client] in w.store.results
       && w.store.results[w.waiting[client]].Rows?
    then Some(w.store.results[w.waiting[client]].rows) else None
  }

  function Settled(w: W.World, who: Source, local: Local): Local {
    if local.Waiting? && ReadyFor(w, who).Some? then Working(ReadyFor(w, who).value) else local
  }

  function SettledLocals(w: W.World, locals: map<Source, Local>): map<Source, Local> {
    map who | who in locals :: Settled(w, who, locals[who])
  }

  function SettledPoll(w: W.World, poll: PollState): PollState {
    if poll.PollWaiting? && ReadyFor(w, Poll).Some?
    then PollAnswered(poll.offer, ReadyFor(w, Poll).value != map[]) else poll
  }

  /** The state of AuditNode that a state of the system stands for: answers count as handed over as
      soon as they lie ready. */
  function Abstract(c: System): Node
    requires OnlyJobs(c)
  {
    View(c).(locals := SettledLocals(c.world, c.locals), poll := SettledPoll(c.world, c.poll))
  }

  /** A thread's own step neither is a turn of the worker nor, while it is blocked, happens. */
  predicate CanAct(n: int, c: System, a: Action)
    requires OnlyJobs(c)
  {
    !a.WorkerTurn? && Enabled(n, View(c), a)
  }

  /** The step of the threads, with what it queued put on the worker's queue. */
  function Act(n: int, c: System, a: Action): System
    requires OnlyJobs(c) && CanAct(n, c, a)
  {
    var v, v' := View(c), Next(n, View(c), a);
    var world :=
      if a.Restart? then W.Started(c.world.store.db)
      else if |v'.queue| > |v.queue| then
        var item := v'.queue[|v.queue|];
        W.Step(c.world, W.Put(ClientOf(item.who), CommandOf(item)))
      else c.world;
    System(world, v'.locals, v'.poll, v'.phase, v'.offered, v'.finished)
  }

  function CollectsFor(c: System, who: Source): System
    requires W.Enabled(c.world, W.Collect(ClientOf(who)))
  {
    var world := W.Next(c.world, W.Collect(ClientOf(who)));
    if who == Poll then c.(world := world, poll := SettledPoll(c.world, c.poll))
    else if who in c.locals then
      c.(world := world, locals := c.locals[who := Settled(c.world, who, c.locals[who])])
    else c.(world := world)
  }

  function Step(n: int, c: System, m: Move): (c': System)
    requires OnlyJobs(c)
    ensures OnlyJobs(c')
  {
    match m
    case Turn(ok) => c.(world := W.Step(c.world, W.Take(ok)))
    case TestExit => c.(world := W.Step(c.world, W.CheckExit))
    case Collects(who) =>
      if W.Enabled(c.world, W.Collect(ClientOf(who))) then CollectsFor(c, who) else c
    case Acts(a) => if CanAct(n, c, a) then Act(n, c, a) else c
  }

  function Run(n: int, c: System, moves: seq<Move>): (c': System)
    requires OnlyJobs(c)
    ensures OnlyJobs(c')
    decreases |moves|
  {
    if moves == [] then c else Run(n, Step(n, c, moves[0]), moves[1..])
  }

  const INITIAL := System(W.Started(map[]), map[], PollIdle, StartAssigned, map[], map[])

  // --------------------------------------------------------------- invariant

  predicate Blocked(c: System, who: Source) {
    if who == Poll then c.poll.PollWaiting? else who in c.locals && c.locals[who].Waiting?
  }

  /** The threads are the only clients, and those that wait are the blocked ones. */
  predicate ClientsOk(c: System) {
    && (forall who :: Blocked(c, who) <==> ClientOf(who) in c.world.waiting)
    && (forall client :: client in c.world.waiting ==> client <= 4)
    && (forall i :: 0 <= i < |c.world.store.queue| && c.world.store.queue[i].Job? ==>
          c.world.store.queue[i].client <= 4)
    && Poll !in c.locals
  }

  ghost predicate Inv(c: System) {
    && W.Reachable(c.world) && OnlyJobs(c) && ClientsOk(c)
    && c.world.store.running && !c.world.store.exitSet
  }

  lemma ClientRoundTrip(client: W.Client)
    requires client <= 4
    ensures ClientOf(ThreadOf(client)) == client
  {
  }

  /** The token at the head of the queue has no result yet, and only its own client, if it is a
      select, waits for it. */
  predicate HeadIsNew(w: W.World)
    requires w.store.queue != [] && w.store.queue[0].Job?
  {
    var e := w.store.queue[0];
    && e.token !in w.store.results
    && (forall client :: client in w.waiting && w.waiting[client] == e.token ==>
          e.command.Lookup? && e.client == client)
    && (e.command.Lookup? ==> e.client in w.waiting && w.waiting[e.client] == e.token)
  }

  lemma ReachableHead(w: W.World)
    requires W.Reachable(w) && w.store.queue != [] && w.store.queue[0].Job?
    ensures HeadIsNew(w)
  {
    W.ReachableInv(w);
    assert w.store.queue[0] == w.history.log[|w.history.oks|];
  }

  /** What lies ready for a blocked client are rows. */
  lemma ReadyIsRows(w: W.World, client: W.Client)
    requires W.Reachable(w) && client in w.waiting && w.waiting[client] in w.store.results
    ensures w.store.results[w.waiting[client]].Rows?
    ensures forall other :: other in w.waiting && other != client ==> w.waiting[other] != w.waiting[client]
  {
    W.ReachableInv(w);
  }

  // ----------------------------------------------------------- worker's turn

  lemma TakeKeepsReady(w: W.World, ok: bool, who: Source)
    requires W.Enabled(w, W.Take(ok)) && w.store.queue[0].Job? && HeadIsNew(w)
    ensures ReadyFor(W.Next(w, W.Take(ok)), who)
            == if w.store.queue[0].command.Lookup? && w.store.queue[0].client == ClientOf(who)
               then Some(Select(w.store.db, w.store.queue[0].command.query)) else ReadyFor(w, who)
  {
  }

  /** The step of AuditNode that a move stands for, if any. */
  function ActionOf(n: int, c: System, m: Move): Option<Action>
    requires OnlyJobs(c)
  {
    match m
    case Turn(ok) => if W.Enabled(c.world, W.Take(ok)) then Some(WorkerTurn(ok)) else None
    case Acts(a) => if CanAct(n, c, a) then Some(a) else None
    case _ => None
  }

  lemma TurnQueue(c: System, ok: bool)
    requires OnlyJobs(c) && W.Enabled(c.world, W.Take(ok))
    ensures OnlyJobs(c.(world := W.Next(c.world, W.Take(ok))))
    ensures QueueOf(W.Next(c.world, W.Take(ok)).store.queue) == QueueOf(c.world.store.queue)[1..]
  {
  }

  lemma SettledSame(w: W.World, w': W.World, locals: map<Source, Local>)
    requires forall who :: who in locals ==> ReadyFor(w', who) == ReadyFor(w, who)
    ensures SettledLocals(w', locals) == SettledLocals(w, locals)
  {
  }

  lemma SettledAnswer(w: W.World, w': W.World, locals: map<Source, Local>, who: Source, rows: Table)
    requires who in locals && locals[who].Waiting? && ReadyFor(w', who) == Some(rows)
    requires forall x :: x in locals && x != who ==> ReadyFor(w', x) == ReadyFor(w, x)
    ensures SettledLocals(w', locals) == SettledLocals(w, locals)[who := Working(rows)]
  {
  }

  lemma UpdateSimulates(c: System, ok: bool)
    requires OnlyJobs(c) && W.Enabled(c.world, W.Take(ok)) && HeadIsNew(c.world)
    requires c.world.store.queue[0].command.Update?
    ensures var c' := c.(world := W.Next(c.world, W.Take(ok)));
            OnlyJobs(c') && Abstract(c') == WorkerStep(Abstract(c), ok)
  {
    var c' := c.(world := W.Next(c.world, W.Take(ok)));
    TurnQueue(c, ok);
    forall who ensures ReadyFor(c'.world, who) == ReadyFor(c.world, who) {
      TakeKeepsReady(c.world, ok, who);
    }
    SettledSame(c.world, c'.world, c.locals);
  }

  lemma AnswerReady(w: W.World, ok: bool)
    requires W.Enabled(w, W.Take(ok)) && w.store.queue[0].Job? && HeadIsNew(w)
    requires w.store.queue[0].command.Lookup? && w.store.queue[0].client <= 4
    ensures var who := ThreadOf(w.store.queue[0].client);
            && ReadyFor(w, who).None?
            && forall x :: ReadyFor(W.Next(w, W.Take(ok)), x)
                           == if x == who then Some(Select(w.store.db, w.store.queue[0].command.query))
                              else ReadyFor(w, x)
  {
    ClientRoundTrip(w.store.queue[0].client);
    forall x ensures ReadyFor(W.Next(w, W.Take(ok)), x)
                     == if w.store.queue[0].client == ClientOf(x)
                        then Some(Select(w.store.db, w.store.queue[0].command.query))
                        else ReadyFor(w, x) {
      TakeKeepsReady(w, ok, x);
    }
  }

  /** The answer as `AnswerReady` says: it lies ready for this thread, and nothing else changes. */
  predicate Answered(c: System, ok: bool, who: Source, rows: Table)
    requires W.Enabled(c.world, W.Take(ok))
  {
    forall x :: ReadyFor(W.Next(c.world, W.Take(ok)), x) == if x == who then Some(rows) else ReadyFor(c.world, x)
  }

  lemma PollAnswer(c: System, ok: bool)
    requires OnlyJobs(c) && W.Enabled(c.world, W.Take(ok)) && c.poll.PollWaiting?
    requires c.world.store.queue[0].command.Lookup? && ThreadOf(c.world.store.queue[0].client) == Poll
    requires ReadyFor(c.world, Poll).None?
    requires Answered(c, ok, Poll, Select(c.world.store.db, c.world.store.queue[0].command.query))
    requires SettledLocals(W.Next(c.world, W.Take(ok)), c.locals) == SettledLocals(c.world, c.locals)
    requires OnlyJobs(c.(world := W.Next(c.world, W.Take(ok))))
    requires QueueOf(W.Next(c.world, W.Take(ok)).store.queue) == QueueOf(c.world.store.queue)[1..]
    ensures Abstract(c.(world := W.Next(c.world, W.Take(ok)))) == WorkerStep(Abstract(c), ok)
  {
  }

  lemma ThreadAnswer(c: System, ok: bool, who: Source, rows: Table)
    requires OnlyJobs(c) && W.Enabled(c.world, W.Take(ok)) && c.world.store.queue[0].command.Lookup?
    requires ThreadOf(c.world.store.queue[0].client) == who && who != Poll
    requires who in c.locals && c.locals[who].Waiting? && ReadyFor(c.world, who).None?
    requires rows == Select(c.world.store.db, c.world.store.queue[0].command.query)
    requires Answered(c, ok, who, rows)
    requires SettledLocals(W.Next(c.world, W.Take(ok)), c.locals)
             == SettledLocals(c.world, c.locals)[who := Working(rows)]
    requires OnlyJobs(c.(world := W.Next(c.world, W.Take(ok))))
    requires QueueOf(W.Next(c.world, W.Take(ok)).store.queue) == QueueOf(c.world.store.queue)[1..]
    ensures Abstract(c.(world := W.Next(c.world, W.Take(ok)))) == WorkerStep(Abstract(c), ok)
  {
  }

  lemma AnswerSimulates(c: System, ok: bool)
    requires OnlyJobs(c) && W.Enabled(c.world, W.Take(ok)) && HeadIsNew(c.world)
    requires c.world.store.queue[0].command.Lookup?
    requires c.world.store.queue[0].client <= 4 && Blocked(c, ThreadOf(c.world.store.queue[0].client))
    requires Poll !in c.locals
    ensures var c' := c.(world := W.Next(c.world, W.Take(ok)));
            OnlyJobs(c') && Abstract(c') == WorkerStep(Abstract(c), ok)
  {
    var w := c.world;
    var who, rows := ThreadOf(w.store.queue[0].client), Select(w.store.db, w.store.queue[0].command.query);
    TurnQueue(c, ok);
    AnswerReady(w, ok);
    if who == Poll {
      SettledSame(w, W.Next(w, W.Take(ok)), c.locals);
      PollAnswer(c, ok);
    } else {
      SettledAnswer(w, W.Next(w, W.Take(ok)), c.locals, who, rows);
      ThreadAnswer(c, ok, who, rows);
    }
  }

  lemma TurnSimulates(n: int, c: System, ok: bool)
    requires Inv(c) && W.Enabled(c.world, W.Take(ok))
    ensures var c' := c.(world := W.Next(c.world, W.Take(ok)));
            OnlyJobs(c') && Abstract(c') == WorkerStep(Abstract(c), ok)
  {
    var e := c.world.store.queue[0];
    ReachableHead(c.world);
    ClientRoundTrip(e.client);
    if e.command.Lookup? {
      assert ClientOf(ThreadOf(e.client)) in c.world.waiting;
      AnswerSimulates(c, ok);
    } else {
      UpdateSimulates(c, ok);
    }
  }

  lemma TurnKeeps(n: int, c: System, ok: bool)
    requires Inv(c) && W.Enabled(c.world, W.Take(ok))
    ensures Inv(c.(world := W.Next(c.world, W.Take(ok))))
  {
    W.ReachableOn(c.world, W.Take(ok));
  }

  // -------------------------------------------------------------- collecting

  lemma DistinctClients(who: Source, other: Source)
    ensures ClientOf(who) == ClientOf(other) <==> who == other
  {
  }

  lemma CollectKeepsReady(w: W.World, who: Source)
    requires W.Enabled(w, W.Collect(ClientOf(who)))
    requires forall other :: other in w.waiting && other != ClientOf(who) ==>
               w.waiting[other] != w.waiting[ClientOf(who)]
    ensures forall x :: x != who ==> ReadyFor(W.Next(w, W.Collect(ClientOf(who))), x) == ReadyFor(w, x)
    ensures ReadyFor(W.Next(w, W.Collect(ClientOf(who))), who) == None
  {
    forall x | x != who ensures ReadyFor(W.Next(w, W.Collect(ClientOf(who))), x) == ReadyFor(w, x) {
      DistinctClients(x, who);
    }
  }

  /** Settling first and collecting then is settling. */
  lemma CollectSettles(w: W.World, w': W.World, locals: map<Source, Local>, who: Source)
    requires ReadyFor(w, who).Some? && forall x :: x != who ==> ReadyFor(w', x) == ReadyFor(w, x)
    ensures who in locals ==>
      SettledLocals(w', locals[who := Settled(w, who, locals[who])]) == SettledLocals(w, locals)
    ensures who !in locals ==> SettledLocals(w', locals) == SettledLocals(w, locals)
  {
  }

  lemma CollectSimulates(n: int, c: System, who: Source)
    requires Inv(c) && W.Enabled(c.world, W.Collect(ClientOf(who)))
    ensures Abstract(CollectsFor(c, who)) == Abstract(c)
  {
    var w, c' := c.world, CollectsFor(c, who);
    assert Blocked(c, who);
    ReadyIsRows(w, ClientOf(who));
    CollectKeepsReady(w, who);
    CollectSettles(w, c'.world, c.locals, who);
  }

  lemma CollectKeeps(n: int, c: System, who: Source)
    requires Inv(c) && W.Enabled(c.world, W.Collect(ClientOf(who)))
    ensures Inv(CollectsFor(c, who))
  {
    W.ReachableOn(c.world, W.Collect(ClientOf(who)));
    var c' := CollectsFor(c, who);
    assert Blocked(c, who);
    ReadyIsRows(c.world, ClientOf(who));
    forall x ensures Blocked(c', x) <==> ClientOf(x) in c'.world.waiting {
      if x != who {
        DistinctClients(x, who);
        assert Blocked(c', x) == Blocked(c, x);
      }
    }
  }

  // ------------------------------------------------------------------ acting

  predicate OurJobs(queue: seq<W.Entry>) {
    forall i :: 0 <= i < |queue| ==> queue[i].Job? && queue[i].client <= 4
  }

  /** The worker after the put of an item. */
  function AfterPut(w: W.World, item: Item): W.World {
    W.Step(w, W.Put(ClientOf(item.who), CommandOf(item)))
  }

  lemma PutReady(w: W.World, item: Item)
    requires W.Reachable(w) && ClientOf(item.who) !in w.waiting
    ensures forall x :: ReadyFor(AfterPut(w, item), x)
                        == if item.Ask? && x == item.who then None else ReadyFor(w, x)
  {
    W.ReachableInv(w);
    forall x ensures ReadyFor(AfterPut(w, item), x)
                     == if item.Ask? && x == item.who then None else ReadyFor(w, x) {
      DistinctClients(x, item.who);
    }
  }

  lemma PutQueue(w: W.World, item: Item)
    requires OurJobs(w.store.queue) && ClientOf(item.who) !in w.waiting
    ensures var w' := AfterPut(w, item);
            && OurJobs(w'.store.queue) && QueueOf(w'.store.queue) == QueueOf(w.store.queue) + [item]
            && w'.store.db == w.store.db && w'.store.running == w.store.running
            && w'.store.exitSet == w.store.exitSet
            && w'.waiting.Keys == w.waiting.Keys + if item.Ask? then {ClientOf(item.who)} else {}
  {
    assert ThreadOf(ClientOf(item.who)) == item.who;
  }

  /** The thread that takes the step. */
  function Actor(a: Action): Source {
    match a
    case Fetch(who) => who
    case Handle(who, _, _) => who
    case Abandon(who) => who
    case StartupAdvances => Startup
    case _ => Poll
  }

  lemma ActorIsFree(n: int, c: System, a: Action)
    requires OnlyJobs(c) && ClientsOk(c) && CanAct(n, c, a) && !a.Restart?
    ensures !Blocked(c, Actor(a)) && ClientOf(Actor(a)) !in c.world.waiting
  {
    assert !Blocked(c, Actor(a));
  }

  /** What a step queues: nothing, or one item of the thread that takes it. */
  lemma QueuesItsOwn(n: int, c: System, a: Action)
    requires OnlyJobs(c) && CanAct(n, c, a) && !a.Restart?
    ensures var q, q' := View(c).queue, Next(n, View(c), a).queue;
            || q' == q
            || (|q'| == |q| + 1 && q' == q + [q'[|q|]] && q'[|q|].who == Actor(a)
                && (q'[|q|].Ask? <==> a.Fetch? || a.MakeOffer?))
    ensures a.Fetch? || a.MakeOffer? ==> |Next(n, View(c), a).queue| == |View(c).queue| + 1
  {
    match a
    case Handle(who, key, input) =>
      assert Next(n, View(c), a) == HandleStep(n, View(c), who, key, input);
    case Decide(puts) => assert Next(n, View(c), a) == DecideStep(n, View(c), puts);
    case _ =>
  }

  /** The world after a thread's own step. */
  lemma ActWorld(n: int, c: System, a: Action)
    requires Inv(c) && CanAct(n, c, a) && !a.Restart?
    ensures var c' := Act(n, c, a);
            && OurJobs(c'.world.store.queue) && W.Reachable(c'.world)
            && QueueOf(c'.world.store.queue) == Next(n, View(c), a).queue
            && c'.world.store.db == c.world.store.db
            && c'.world.store.running && !c'.world.store.exitSet
            && c'.world.waiting.Keys
               == c.world.waiting.Keys + (if a.Fetch? || a.MakeOffer? then {ClientOf(Actor(a))} else {})
            && forall x :: ReadyFor(c'.world, x)
                           == if (a.Fetch? || a.MakeOffer?) && x == Actor(a) then None
                              else ReadyFor(c.world, x)
  {
    ActorIsFree(n, c, a);
    QueuesItsOwn(n, c, a);
    var q, q' := View(c).queue, Next(n, View(c), a).queue;
    if q' != q {
      var item := q'[|q|];
      W.ReachableOn(c.world, W.Put(ClientOf(item.who), CommandOf(item)));
      PutReady(c.world, item);
      PutQueue(c.world, item);
    }
  }

  function Left(o: Outcome, todo: Table, key: Key): Table {
    if o.Dies? then map[] else todo - {key}
  }

  function Queues(o: Outcome, who: Source): seq<Item> {
    if o.Writes? then [Write(who, o.statement)] else []
  }

  /** What handling an event changes. */
  lemma HandleShape(n: int, s: Node, who: Source, key: Key, input: Input)
    requires key in Todo(s, who)
    ensures var o := Verdict(n, key, Todo(s, who)[key], input);
            HandleStep(n, s, who, key, input)
            == s.(locals := s.locals[who := Working(Left(o, Todo(s, who), key))],
                  queue := s.queue + Queues(o, who),
                  finished := SeenFinished(s.finished, key.requestId, input))
  {
    assert s.queue + [] == s.queue;
  }

  lemma HandleActs(n: int, v: Node, s: Node, who: Source, key: Key, input: Input)
    requires key in Todo(v, who) && Todo(s, who) == Todo(v, who)
    requires s == v.(locals := s.locals, poll := s.poll)
    ensures var v' := HandleStep(n, v, who, key, input);
            && who in v'.locals && v'.locals == v.locals[who := v'.locals[who]] && v'.poll == v.poll
            && HandleStep(n, s, who, key, input)
               == v'.(locals := s.locals[who := v'.locals[who]], poll := s.poll)
            && v'.locals[who].Working?
  {
    HandleShape(n, v, who, key, input);
    HandleShape(n, s, who, key, input);
  }

  /** A step of a thread other than the poller depends on its own local state alone. */
  lemma ThreadActs(n: int, v: Node, s: Node, a: Action)
    requires Enabled(n, v, a) && !a.WorkerTurn? && !a.Restart? && Actor(a) != Poll
    requires s == v.(locals := s.locals, poll := s.poll) && LocalOf(s, Actor(a)) == LocalOf(v, Actor(a))
    ensures Enabled(n, s, a)
    ensures var who, v' := Actor(a), Next(n, v, a);
            && who in v'.locals && v'.locals == v.locals[who := v'.locals[who]] && v'.poll == v.poll
            && Next(n, s, a) == v'.(locals := s.locals[who := v'.locals[who]], poll := s.poll)
            && (v'.locals[who].Waiting? <==> a.Fetch?)
  {
    assert Todo(s, Actor(a)) == Todo(v, Actor(a));
    if a.Handle? {
      HandleActs(n, v, s, a.who, a.key, a.input);
    }
  }

  lemma PollActs(n: int, v: Node, s: Node, a: Action)
    requires Enabled(n, v, a) && (a.MakeOffer? || a.Decide?)
    requires s == v.(locals := s.locals)
    ensures Enabled(n, s, a)
    ensures var v' := Next(n, v, a);
            && v'.locals == v.locals && Next(n, s, a) == v'.(locals := s.locals)
            && (v'.poll.PollWaiting? <==> a.MakeOffer?)
  {
    match a
    case Decide(puts) =>
      assert Next(n, v, a) == DecideStep(n, v, puts) && Next(n, s, a) == DecideStep(n, s, puts);
    case _ =>
  }

  lemma ThreadSettles(w: W.World, w': W.World, locals: map<Source, Local>, who: Source, local: Local)
    requires forall x :: x != who ==> ReadyFor(w', x) == ReadyFor(w, x)
    requires local.Waiting? ==> ReadyFor(w', who).None?
    ensures SettledLocals(w', locals[who := local]) == SettledLocals(w, locals)[who := local]
  {
  }

  /** The world is as `ActWorld` says. */
  predicate Acted(n: int, c: System, a: Action)
    requires OnlyJobs(c) && CanAct(n, c, a) && !a.Restart?
  {
    var c' := Act(n, c, a);
    && OnlyJobs(c') && View(c') == Next(n, View(c), a)
    && forall x :: ReadyFor(c'.world, x)
                   == if (a.Fetch? || a.MakeOffer?) && x == Actor(a) then None
                      else ReadyFor(c.world, x)
  }

  lemma ActIsActed(n: int, c: System, a: Action)
    requires Inv(c) && CanAct(n, c, a) && !a.Restart?
    ensures Acted(n, c, a)
  {
    ActWorld(n, c, a);
    OthersKeepDatabase(n, View(c), a);
  }

  lemma ThreadSimulates(n: int, c: System, a: Action)
    requires OnlyJobs(c) && CanAct(n, c, a) && !a.Restart? && Actor(a) != Poll && Acted(n, c, a)
    requires !Blocked(c, Actor(a))
    ensures Enabled(n, Abstract(c), a) && Abstract(Act(n, c, a)) == Next(n, Abstract(c), a)
  {
    var who, v, s, c' := Actor(a), View(c), Abstract(c), Act(n, c, a);
    assert LocalOf(s, who) == LocalOf(v, who);
    ThreadActs(n, v, s, a);
    ThreadSettles(c.world, c'.world, c.locals, who, c'.locals[who]);
  }

  lemma PollSimulates(n: int, c: System, a: Action)
    requires OnlyJobs(c) && CanAct(n, c, a) && !a.Restart? && Actor(a) == Poll && Acted(n, c, a)
    requires !Blocked(c, Poll) && Poll !in c.locals
    ensures Enabled(n, Abstract(c), a) && Abstract(Act(n, c, a)) == Next(n, Abstract(c), a)
  {
    var v, s, c' := View(c), Abstract(c), Act(n, c, a);
    if a.MakeOffer? || a.Decide? {
      PollActs(n, v, s, a);
      SettledSame(c.world, c'.world, c.locals);
    }
  }

  lemma ActBlocks(n: int, c: System, a: Action)
    requires OnlyJobs(c) && CanAct(n, c, a) && !a.Restart? && Poll !in c.locals && !Blocked(c, Actor(a))
    requires Acted(n, c, a)
    ensures var c' := Act(n, c, a);
            && Poll !in c'.locals
            && forall x :: Blocked(c', x) <==>
                 Blocked(c, x) || ((a.Fetch? || a.MakeOffer?) && x == Actor(a))
  {
    var v := View(c);
    if Actor(a) != Poll {
      ThreadActs(n, v, v, a);
    } else if a.MakeOffer? || a.Decide? {
      PollActs(n, v, v, a);
    }
  }

  lemma ActKeeps(n: int, c: System, a: Action)
    requires Inv(c) && CanAct(n, c, a) && !a.Restart?
    ensures Inv(Act(n, c, a))
  {
    var c' := Act(n, c, a);
    ActorIsFree(n, c, a);
    ActWorld(n, c, a);
    ActIsActed(n, c, a);
    ActBlocks(n, c, a);
    forall x ensures Blocked(c', x) <==> ClientOf(x) in c'.world.waiting {
      DistinctClients(x, Actor(a));
      assert ClientOf(x) in c'.world.waiting.Keys <==> ClientOf(x) in c'.world.waiting;
    }
    forall client | client in c'.world.waiting ensures client <= 4 {
      assert client in c'.world.waiting.Keys;
    }
  }

  lemma RestartSimulates(n: int, c: System)
    requires Inv(c)
    ensures Inv(Act(n, c, Restart))
    ensures Abstract(Act(n, c, Restart)) == Next(n, Abstract(c), Restart)
  {
    assert W.Exec(W.Started(c.world.store.db), []) == W.Started(c.world.store.db);
  }

  // ---------------------------------------------------------------- theorems

  function StepsOf(n: int, c: System, m: Move): seq<Action>
    requires OnlyJobs(c)
  {
    if ActionOf(n, c, m).Some? then [ActionOf(n, c, m).value] else []
  }

  /** A move of the system is one step of AuditNode, or none. */
  lemma MoveSimulates(n: int, c: System, m: Move)
    requires Inv(c)
    ensures Inv(Step(n, c, m))
    ensures Abstract(Step(n, c, m))
            == if ActionOf(n, c, m).Some? then AuditNode.Step(n, Abstract(c), ActionOf(n, c, m).value)
               else Abstract(c)
  {
    match m
    case Turn(ok) =>
      if W.Enabled(c.world, W.Take(ok)) {
        TurnSimulates(n, c, ok);
        TurnKeeps(n, c, ok);
        assert Abstract(c).queue != [];
      }
    case TestExit => TestExitIsSilent(n, c);
    case Collects(who) =>
      if W.Enabled(c.world, W.Collect(ClientOf(who))) {
        CollectSimulates(n, c, who);
        CollectKeeps(n, c, who);
      }
    case Acts(a) =>
      if CanAct(n, c, a) {
        ActSimulates(n, c, a);
      }
  }

  lemma TestExitIsSilent(n: int, c: System)
    requires Inv(c)
    ensures Inv(Step(n, c, TestExit)) && Abstract(Step(n, c, TestExit)) == Abstract(c)
  {
    W.ReachableOn(c.world, W.CheckExit);
    SettledSame(c.world, Step(n, c, TestExit).world, c.locals);
  }

  lemma ActSimulates(n: int, c: System, a: Action)
    requires Inv(c) && CanAct(n, c, a)
    ensures Inv(Act(n, c, a))
    ensures Enabled(n, Abstract(c), a) && Abstract(Act(n, c, a)) == Next(n, Abstract(c), a)
  {
    if a.Restart? {
      RestartSimulates(n, c);
    } else {
      ActorIsFree(n, c, a);
      ActIsActed(n, c, a);
      ActKeeps(n, c, a);
      if Actor(a) == Poll {
        PollSimulates(n, c, a);
      } else {
        ThreadSimulates(n, c, a);
      }
    }
  }

  /** The run of AuditNode that a run of the system stands for. */
  function RunOf(n: int, c: System, moves: seq<Move>): seq<Action>
    requires OnlyJobs(c)
    decreases |moves|
  {
    if moves == [] then [] else StepsOf(n, c, moves[0]) + RunOf(n, Step(n, c, moves[0]), moves[1..])
  }

  /** Every run of the system built on the worker, in which threads put, wait and collect, is a run
      of AuditNode, in which answers are handed over by the worker's turn. */
  lemma {:induction false} RunSimulates(n: int, c: System, moves: seq<Move>)
    requires Inv(c)
    ensures Inv(Run(n, c, moves))
    ensures Abstract(Run(n, c, moves)) == Exec(n, Abstract(c), RunOf(n, c, moves))
    decreases |moves|
  {
    if moves != [] {
      MoveSimulates(n, c, moves[0]);
      var c1 := Step(n, c, moves[0]);
      RunSimulates(n, c1, moves[1..]);
      var first, rest := StepsOf(n, c, moves[0]), RunOf(n, c1, moves[1..]);
      if first != [] {
        assert (first + rest)[0] == first[0] && (first + rest)[1..] == rest;
      } else {
        assert first + rest == rest;
      }
    }
  }

  lemma InitialInv()
    ensures Inv(INITIAL) && Abstract(INITIAL) == FRESH
  {
    assert W.Exec(W.Started(map[]), []) == INITIAL.world;
  }

  /** So every database the system reaches is one that the state machine reaches. */
  lemma SystemRefinesNode(n: int, moves: seq<Move>)
    ensures Run(n, INITIAL, moves).world.store.db == Exec(n, FRESH, RunOf(n, INITIAL, moves)).db
  {
    InitialInv();
    RunSimulates(n, INITIAL, moves);
  }

  /** The theorems about the state machine carry over; for one, done and error are final. */
  lemma SystemTerminalForever(n: int, before: seq<Move>, after: seq<Move>, k: Key)
    requires var db := Run(n, INITIAL, before).world.store.db; k in db && Terminal(db[k])
    ensures var c := Run(n, INITIAL, before);
            var db := Run(n, c, after).world.store.db;
            k in db && db[k] == c.world.store.db[k]
  {
    InitialInv();
    RunSimulates(n, INITIAL, before);
    var c := Run(n, INITIAL, before);
    RunSimulates(n, c, after);
    TerminalForever(n, RunOf(n, INITIAL, before), RunOf(n, c, after), k);
  }

  // ------------------------------------------------------ the other direction

  /** No exit test is pending and no answer lies uncollected. */
  predicate Quiet(c: System) {
    !c.world.store.checking && forall who :: ReadyFor(c.world, who).None?
  }

  lemma QuietView(c: System)
    requires OnlyJobs(c) && Quiet(c)
    ensures Abstract(c) == View(c)
  {
    assert SettledLocals(c.world, c.locals) == c.locals;
  }

  /** The head of the queue is taken, the exit test made, and the answer of a select collected. */
  function Serving(c: System, ok: bool): seq<Move>
    requires OnlyJobs(c) && c.world.store.queue != []
  {
    var head := c.world.store.queue[0];
    [Turn(ok), TestExit] + if head.command.Lookup? then [Collects(ThreadOf(head.client))] else []
  }

  lemma TestEnds(n: int, c: System)
    requires Inv(c)
    ensures var c' := Step(n, c, TestExit);
            && !c'.world.store.checking && c'.world.store.queue == c.world.store.queue
            && forall who :: ReadyFor(c'.world, who) == ReadyFor(c.world, who)
  {
  }

  lemma RunTwo(n: int, c: System, a: Move, b: Move)
    requires OnlyJobs(c)
    ensures Run(n, c, [a, b]) == Step(n, Step(n, c, a), b)
  {
    assert [a, b][1..] == [b] && [b][1..] == [];
    assert Run(n, Step(n, c, a), [b]) == Run(n, Step(n, Step(n, c, a), b), []);
  }

  lemma {:induction false} RunConcat(n: int, c: System, a: seq<Move>, b: seq<Move>)
    requires OnlyJobs(c)
    ensures Run(n, c, a + b) == Run(n, Run(n, c, a), b)
    decreases |a|
  {
    if a == [] {
      assert a + b == b;
    } else {
      assert (a + b)[0] == a[0] && (a + b)[1..] == a[1..] + b;
      RunConcat(n, Step(n, c, a[0]), a[1..], b);
    }
  }

  /** A turn and its exit test leave at most the answer to the head of the queue uncollected. */
  lemma TurnLeaves(n: int, c: System, ok: bool)
    requires Inv(c) && Quiet(c) && c.world.store.queue != []
    ensures var c', head := Step(n, Step(n, c, Turn(ok)), TestExit), c.world.store.queue[0];
            && Inv(c') && Abstract(c') == WorkerStep(Abstract(c), ok) && !c'.world.store.checking
            && forall who :: ReadyFor(c'.world, who).Some? <==>
                             head.command.Lookup? && who == ThreadOf(head.client)
  {
    var c1, head := Step(n, c, Turn(ok)), c.world.store.queue[0];
    MoveSimulates(n, c, Turn(ok));
    MoveSimulates(n, c1, TestExit);
    ReachableHead(c.world);
    TestEnds(n, c1);
    if head.command.Lookup? {
      AnswerReady(c.world, ok);
    } else {
      forall who ensures ReadyFor(c1.world, who).None? {
        TakeKeepsReady(c.world, ok, who);
      }
    }
    QuietView(c);
  }

  lemma CollectQuiets(n: int, c: System, who: Source)
    requires Inv(c) && !c.world.store.checking && forall x :: ReadyFor(c.world, x).Some? <==> x == who
    ensures var c' := Step(n, c, Collects(who));
            Inv(c') && Quiet(c') && Abstract(c') == Abstract(c)
  {
    assert ReadyFor(c.world, who).Some?;
    MoveSimulates(n, c, Collects(who));
    ReadyIsRows(c.world, ClientOf(who));
    CollectKeepsReady(c.world, who);
  }

  lemma ServingSimulates(n: int, c: System, ok: bool)
    requires Inv(c) && Quiet(c) && c.world.store.queue != []
    ensures var c' := Run(n, c, Serving(c, ok));
            Inv(c') && Quiet(c') && Abstract(c') == WorkerStep(Abstract(c), ok)
  {
    var c2, head := Step(n, Step(n, c, Turn(ok)), TestExit), c.world.store.queue[0];
    TurnLeaves(n, c, ok);
    RunTwo(n, c, Turn(ok), TestExit);
    if head.command.Lookup? {
      var last := [Collects(ThreadOf(head.client))];
      CollectQuiets(n, c2, ThreadOf(head.client));
      RunConcat(n, c, [Turn(ok), TestExit], last);
      assert last[1..] == [];
    } else {
      assert Serving(c, ok) == [Turn(ok), TestExit];
    }
  }

  lemma ActQuiet(n: int, c: System, a: Action)
    requires Inv(c) && Quiet(c) && Enabled(n, Abstract(c), a) && !a.WorkerTurn?
    ensures var c' := Run(n, c, [Acts(a)]);
            Inv(c') && Quiet(c') && Abstract(c') == Next(n, Abstract(c), a)
  {
    QuietView(c);
    ActSimulates(n, c, a);
    assert [Acts(a)][1..] == [];
    if !a.Restart? {
      ActWorld(n, c, a);
    }
  }

  /** The moves that realise a run of the state machine. */
  ghost function MovesOf(n: int, c: System, actions: seq<Action>): seq<Move>
    requires OnlyJobs(c)
    decreases |actions|
  {
    if actions == [] then []
    else
      var a := actions[0];
      var moves :=
        if !Enabled(n, Abstract(c), a) then []
        else if a.WorkerTurn? then Serving(c, a.ok)
        else [Acts(a)];
      moves + MovesOf(n, Run(n, c, moves), actions[1..])
  }

  /** One action of the state machine is realised by up to three moves. */
  lemma {:induction false} MovesRealise(n: int, c: System, actions: seq<Action>)
    requires Inv(c) && Quiet(c)
    ensures var c' := Run(n, c, MovesOf(n, c, actions));
            Inv(c') && Quiet(c') && Abstract(c') == Exec(n, Abstract(c), actions)
    decreases |actions|
  {
    if actions != [] {
      var a := actions[0];
      var moves :=
        if !Enabled(n, Abstract(c), a) then []
        else if a.WorkerTurn? then Serving(c, a.ok)
        else [Acts(a)];
      if Enabled(n, Abstract(c), a) {
        if a.WorkerTurn? {
          ServingSimulates(n, c, a.ok);
        } else {
          ActQuiet(n, c, a);
        }
      }
      var c1 := Run(n, c, moves);
      MovesRealise(n, c1, actions[1..]);
      RunConcat(n, c, moves, MovesOf(n, c1, actions[1..]));
    }
  }

  /** So the system reaches exactly the databases that the state machine reaches: waiting, collecting
      and the exit tests neither add an outcome nor prevent one. */
  lemma SystemReachesExactly(n: int, db: Table)
    ensures (exists moves :: Run(n, INITIAL, moves).world.store.db == db) <==>
            (exists actions :: Exec(n, FRESH, actions).db == db)
  {
    InitialInv();
    if moves :| Run(n, INITIAL, moves).world.store.db == db {
      SystemRefinesNode(n, moves);
    }
    if actions :| Exec(n, FRESH, actions).db == db {
      MovesRealise(n, INITIAL, actions);
      assert Run(n, INITIAL, MovesOf(n, INITIAL, actions)).world.store.db == db;
    }
  }
}
