/** The audit node as a state machine: the event table, the single queue of its database worker,
    and the threads that select snapshots, work on them and queue their writes. */
module AuditNode {
  import opened Wrappers
  import opened Decimal
  import opened EventTable
  import opened Handlers

  datatype Source = Startup | Perform | Submit | Monitor | Poll

  /** What waits in the worker's queue: a statement, or a select whose caller is blocked. */
  datatype Item = Write(who: Source, statement: Statement) | Ask(who: Source, query: Query)

  /** A thread between rounds, blocked on its select, or with the rows it has yet to process. */
  datatype Local = Idle | Waiting | Working(todo: Table)

  datatype PollState =
    | PollIdle
    | PollWaiting(offer: Offer)
    | PollAnswered(offer: Offer, known: bool)

  /** The start-up pass handles assigned events, then events to be submitted; then the threads run. */
  datatype Phase = StartAssigned | StartToBeSubmitted | Running

  /** Per request, the highest block number at which something was observed. */
  type Seen = map<int, int>

  function Note(seen: Seen, id: int, block: int): Seen {
    if id in seen && block <= seen[id] then seen else seen[id := block]
  }

  /** The request was observed at this block or a later one. */
  predicate SeenAt(seen: Seen, id: int, block: int) {
    id in seen && block <= seen[id]
  }

  /** `offered`: the block the poller worked on when it looked the request up. `finished`: the block
      the monitor read in a call that reported the request as finished. */
  datatype Node = Node(db: Table, queue: seq<Item>, locals: map<Source, Local>, poll: PollState,
                       phase: Phase, offered: Seen, finished: Seen)

  datatype Input =
    | StaleInput(head: int, limit: int, discard: int, puts: Puts)
    | AuditInput(reply: AuditReply, trace: string, puts: Puts)
    | SubmitInput(sent: SubmitReply, trace: string, puts: Puts)
    | MonitorInput(limit: int, done: Call<bool>, block: Call<int>, message: string, puts: Puts)

  datatype Action =
    | WorkerTurn(ok: bool)
    | Fetch(who: Source)
    | Handle(who: Source, key: Key, input: Input)
    | Abandon(who: Source)
    | StartupAdvances
    | MakeOffer(offer: Offer)
    | Decide(puts: Puts)
    | Restart

  function LocalOf(s: Node, who: Source): Local {
    if who in s.locals then s.locals[who] else Idle
  }

  function Todo(s: Node, who: Source): Table {
    if LocalOf(s, who).Working? then LocalOf(s, who).todo else map[]
  }

  /** The status whose events a thread selects. */
  function Watches(who: Source, phase: Phase): Status {
    match who
    case Startup => if phase.StartAssigned? then Assigned else ToBeSubmitted
    case Perform => Assigned
    case Submit => ToBeSubmitted
    case Monitor => Submitted
    case Poll => Error
  }

  predicate HasId(db: Table, id: int) {
    Key(id, Audit) in db || Key(id, PoliceCheck) in db
  }

  predicate InputFor(who: Source, input: Input) {
    match who
    case Startup => input.StaleInput?
    case Perform => input.AuditInput?
    case Submit => input.SubmitInput?
    case Monitor => input.MonitorInput?
    case Poll => false
  }

  predicate Enabled(n: int, s: Node, a: Action) {
    match a
    case WorkerTurn(_) => s.queue != []
    case Fetch(who) =>
      && who != Poll && (who == Startup <==> s.phase != Running)
      && (LocalOf(s, who).Idle? || (who != Startup && LocalOf(s, who) == Working(map[])))
    case Handle(who, key, input) => key in Todo(s, who) && InputFor(who, input)
    case Abandon(who) => who != Startup && LocalOf(s, who).Working?
    case StartupAdvances => s.phase != Running && LocalOf(s, Startup) == Working(map[])
    case MakeOffer(offer) => s.phase == Running && s.poll.PollIdle? && LooksUp(offer, n)
    case Decide(_) => s.poll.PollAnswered?
    case Restart => true
  }

  /** The handler's verdict on one event. A row that does not decode ends the thread. */
  function Verdict(n: int, key: Key, row: Row, input: Input): Outcome {
    match Decode(key, row)
    case None => Dies
    case Some(evt) =>
      match input
      case StaleInput(head, limit, discard, puts) => TimeoutStale(evt, head, limit, discard, puts)
      case AuditInput(reply, trace, puts) => ProcessAudit(evt, reply, trace, puts)
      case SubmitInput(sent, trace, puts) => ProcessSubmission(evt, sent, trace, puts)
      case MonitorInput(limit, done, block, message, puts) =>
        MonitorSubmission(evt, limit, done, block, n, message, puts)
  }

  function SeenFinished(finished: Seen, id: int, input: Input): Seen {
    if input.MonitorInput? && input.done == Returns(true) && input.block.Returns?
    then Note(finished, id, input.block.value) else finished
  }

  function WithLocal(s: Node, who: Source, local: Local): Node {
    s.(locals := s.locals[who := local])
  }

  /** The worker takes the head of the queue. `ok` false stands for a rolled-back write. */
  function WorkerStep(s: Node, ok: bool): Node
    requires s.queue != []
  {
    var rest := s.(queue := s.queue[1..]);
    match s.queue[0]
    case Write(_, statement) =>
      if ok && !Violates(s.db, statement) then rest.(db := Run(s.db, statement)) else rest
    case Ask(who, query) =>
      if who == Poll then
        if s.poll.PollWaiting?
        then rest.(poll := PollAnswered(s.poll.offer, Select(s.db, query) != map[]))
        else rest
      else if LocalOf(s, who).Waiting? then WithLocal(rest, who, Working(Select(s.db, query)))
      else rest
  }

  function HandleStep(n: int, s: Node, who: Source, key: Key, input: Input): Node
    requires key in Todo(s, who)
  {
    var s' := s.(finished := SeenFinished(s.finished, key.requestId, input));
    match Verdict(n, key, Todo(s, who)[key], input)
    case Dies => WithLocal(s', who, Working(map[]))
    case Nothing => WithLocal(s', who, Working(Todo(s, who) - {key}))
    case Writes(statement) =>
      WithLocal(s', who, Working(Todo(s, who) - {key})).(queue := s.queue + [Write(who, statement)])
  }

  function DecideStep(n: int, s: Node, puts: Puts): Node
    requires s.poll.PollAnswered?
  {
    var s' := s.(poll := PollIdle);
    match ProcessOffer(s.poll.offer, s.poll.known, n, puts)
    case Writes(statement) => s'.(queue := s.queue + [Write(Poll, statement)])
    case _ => s'
  }

  function Next(n: int, s: Node, a: Action): Node
    requires Enabled(n, s, a)
  {
    match a
    case WorkerTurn(ok) => WorkerStep(s, ok)
    case Fetch(who) =>
      WithLocal(s, who, Waiting).(queue := s.queue + [Ask(who, WithStatus(Watches(who, s.phase)))])
    case Handle(who, key, input) => HandleStep(n, s, who, key, input)
    case Abandon(who) => WithLocal(s, who, Working(map[]))
    case StartupAdvances =>
      WithLocal(s, Startup, Idle)
      .(phase := if s.phase.StartAssigned? then StartToBeSubmitted else Running)
    case MakeOffer(offer) =>
      s.(poll := PollWaiting(offer), offered := Note(s.offered, offer.requestId, offer.currentBlock),
         queue := s.queue + [Ask(Poll, WithRequestId(offer.requestId))])
    case Decide(puts) => DecideStep(n, s, puts)
    case Restart => s.(queue := [], locals := map[], poll := PollIdle, phase := StartAssigned)
  }

  /** One step of a run; an action that is not enabled changes nothing. */
  function Step(n: int, s: Node, a: Action): Node {
    if Enabled(n, s, a) then Next(n, s, a) else s
  }

  /** The state after a list of actions. A run is any list of actions. */
  function Exec(n: int, s: Node, actions: seq<Action>): Node
    decreases |actions|
  {
    if actions == [] then s else Exec(n, Step(n, s, actions[0]), actions[1..])
  }

  /** A freshly created database. */
  const FRESH := Node(map[], [], map[], PollIdle, StartAssigned, map[], map[])
}
