/** The audit_evt table: its rows, the SQL scripts as typed operations, and the decoded events
    handed to the threads (the evt scripts and evt_pool_manager.py). */
module EventTable {
  import opened Wrappers
  import opened Decimal

  datatype Kind = Audit | PoliceCheck

  datatype Status = Assigned | ToBeSubmitted | Submitted | Done | Error

  /** The primary key of the table. */
  datatype Key = Key(requestId: int, kind: Kind)

  datatype ReportFields = ReportFields(auditUri: Option<string>, auditHash: Option<string>,
                                       auditState: Option<int>, fullReport: Option<string>,
                                       compressedReport: Option<string>)

  /** The non-key columns. Prices and block numbers are stored as text. */
  datatype Row = Row(requestor: string, contractUri: string, evtName: string,
                     assignedBlock: string, price: string, status: Status,
                     statusInfo: Option<string>, txHash: Option<string>, attempts: int,
                     isPersisted: bool, submissionBlock: Option<string>, report: ReportFields)

  type Table = map<Key, Row>

  /** A row as the threads see it, with the text columns read as integers. */
  datatype Event = Event(key: Key, requestor: string, contractUri: string, evtName: string,
                         assignedBlock: int, price: int, status: Status,
                         statusInfo: Option<string>, txHash: Option<string>, attempts: int,
                         isPersisted: bool, submissionBlock: Option<int>, report: ReportFields)

  /** The submission block column: null stays null, text must be a number. */
  function ReadBlock(text: Option<string>): Option<Option<int>> {
    if text.None? then Some(None)
    else match ParseInt(text.value)
      case None => None
      case Some(block) => Some(Some(block))
  }

  /** `__decode`; `None` when a text column is not a number. */
  function Decode(key: Key, row: Row): Option<Event> {
    match (ParseInt(row.assignedBlock), ParseInt(row.price), ReadBlock(row.submissionBlock))
    case (Some(block), Some(price), Some(submission)) =>
      Some(Event(key, row.requestor, row.contractUri, row.evtName, block, price, row.status,
                 row.statusInfo, row.txHash, row.attempts, row.isPersisted, submission, row.report))
    case _ => None
  }

  /** `__encode` of an optional block number. */
  function BlockText(block: Option<int>): Option<string> {
    if block.None? then None else Some(IntText(block.value))
  }

  // ------------------------------------------------------------- statements

  datatype Statement =
    | AddAssigned(requestId: int, requestor: string, contractUri: string, evtName: string,
                  assignedBlock: string, statusInfo: Option<string>, kind: Kind, price: string)
    | SetToBeSubmitted(statusInfo: Option<string>, txHash: Option<string>, report: ReportFields,
                       submissionBlock: Option<string>, requestId: int)
    | SetSubmitted(txHash: Option<string>, statusInfo: Option<string>, auditUri: Option<string>,
                   auditHash: Option<string>, auditState: Option<int>, requestId: int)
    | SetDone(statusInfo: Option<string>, requestId: int)
    | SetError(statusInfo: Option<string>, requestId: int)

  datatype Query = WithStatus(status: Status) | WithRequestId(requestId: int)

  /** The `where` guard on the status. The error update has none. */
  predicate Guard(statement: Statement, status: Status) {
    match statement
    case AddAssigned(_, _, _, _, _, _, _, _) => false
    case SetToBeSubmitted(_, _, _, _, _) => status.Assigned? || status.ToBeSubmitted? || status.Submitted?
    case SetSubmitted(_, _, _, _, _, _) => status.ToBeSubmitted?
    case SetDone(_, _) => status.Assigned? || status.ToBeSubmitted? || status.Submitted?
    case SetError(_, _) => true
  }

  /** What an update writes into a row that its `where` clause selects. */
  function Updated(statement: Statement, row: Row): Row {
    match statement
    case AddAssigned(_, _, _, _, _, _, _, _) => row
    case SetToBeSubmitted(statusInfo, txHash, report, submissionBlock, _) =>
      row.(status := ToBeSubmitted, statusInfo := statusInfo, txHash := txHash, report := report,
           submissionBlock := submissionBlock, attempts := row.attempts + 1)
    case SetSubmitted(txHash, statusInfo, auditUri, auditHash, auditState, _) =>
      row.(status := Submitted, txHash := txHash, statusInfo := statusInfo,
           report := row.report.(auditUri := auditUri, auditHash := auditHash,
                                 auditState := auditState))
    case SetDone(statusInfo, _) => row.(status := Done, statusInfo := statusInfo, isPersisted := true)
    case SetError(statusInfo, _) => row.(status := Error, statusInfo := statusInfo)
  }

  function NewRow(statement: Statement): Row
    requires statement.AddAssigned?
  {
    Row(statement.requestor, statement.contractUri, statement.evtName, statement.assignedBlock,
        statement.price, Assigned, statement.statusInfo, None, 0, false, None,
        ReportFields(None, None, None, None, None))
  }

  /** The insert breaks the primary key. */
  predicate Violates(table: Table, statement: Statement) {
    statement.AddAssigned? && Key(statement.requestId, statement.kind) in table
  }

  /** One committed statement. Updates filter on the request id alone, not on the whole key. */
  function Run(table: Table, statement: Statement): Table
    requires !Violates(table, statement)
  {
    if statement.AddAssigned? then
      table[Key(statement.requestId, statement.kind) := NewRow(statement)]
    else
      map key | key in table ::
        if key.requestId == statement.requestId && Guard(statement, table[key].status)
        then Updated(statement, table[key]) else table[key]
  }

  function Select(table: Table, query: Query): Table {
    match query
    case WithStatus(status) => map key | key in table && table[key].status == status :: table[key]
    case WithRequestId(id) => map key | key in table && key.requestId == id :: table[key]
  }

  /** A select returns exactly the rows its `where` clause names, unchanged. */
  lemma SelectIff(table: Table, key: Key)
    ensures forall status :: key in Select(table, WithStatus(status)) <==>
              key in table && table[key].status == status
    ensures forall id :: key in Select(table, WithRequestId(id)) <==> key in table && key.requestId == id
    ensures forall query :: key in Select(table, query) ==> Select(table, query)[key] == table[key]
  {
  }

  /** The status a matching row ends in. */
  function Target(statement: Statement): Status {
    match statement
    case AddAssigned(_, _, _, _, _, _, _, _) => Assigned
    case SetToBeSubmitted(_, _, _, _, _) => ToBeSubmitted
    case SetSubmitted(_, _, _, _, _, _) => Submitted
    case SetDone(_, _) => Done
    case SetError(_, _) => Error
  }

  /** Which rows an update changes: those with its request id, whatever their type, if they are not
      finished; only a row to be submitted becomes submitted; the error update changes any row. */
  lemma UpdateChangesIff(table: Table, statement: Statement, key: Key)
    requires key in table && !statement.AddAssigned?
    ensures Run(table, statement).Keys == table.Keys
    ensures var row, row' := table[key], Run(table, statement)[key];
            if key.requestId == statement.requestId
               && (|| statement.SetError?
                   || (statement.SetSubmitted? && row.status == ToBeSubmitted)
                   || (!statement.SetSubmitted? && row.status != Done && row.status != Error))
            then row' == Updated(statement, row) && row'.status == Target(statement)
            else row' == row
  {
  }

  /** An insert adds its row unless a row with the same id and the same type is there. */
  lemma InsertAddsIff(table: Table, statement: Statement)
    requires statement.AddAssigned?
    ensures var key := Key(statement.requestId, statement.kind);
            && (Violates(table, statement) <==> key in table)
            && (key !in table ==> Run(table, statement) == table[key := NewRow(statement)])
  {
  }

  /** Text columns hold what `str` wrote. */
  predicate TextOk(row: Row) {
    && IsIntText(row.assignedBlock) && IsIntText(row.price)
    && (row.submissionBlock.Some? ==> IsIntText(row.submissionBlock.value))
  }

  /** A row decodes exactly when its block and price columns hold numbers; the submission block may
      be null. */
  lemma DecodeIff(key: Key, row: Row)
    ensures Decode(key, row).Some? <==>
            && ParseInt(row.assignedBlock).Some? && ParseInt(row.price).Some?
            && (row.submissionBlock.Some? ==> ParseInt(row.submissionBlock.value).Some?)
    ensures Decode(key, row).Some? ==>
            var event := Decode(key, row).value;
            && Some(event.assignedBlock) == ParseInt(row.assignedBlock)
            && Some(event.price) == ParseInt(row.price)
            && (row.submissionBlock.None? ==> event.submissionBlock.None?)
            && (row.submissionBlock.Some? ==> event.submissionBlock == ParseInt(row.submissionBlock.value))
            && event == Event(key, row.requestor, row.contractUri, row.evtName, event.assignedBlock,
                              event.price, row.status, row.statusInfo, row.txHash, row.attempts,
                              row.isPersisted, event.submissionBlock, row.report)
  {
  }

  /** Decoding a row whose texts were written by `str` works, and re-encoding gives the same text. */
  lemma DecodeThenEncode(key: Key, row: Row)
    requires TextOk(row)
    ensures Decode(key, row).Some?
    ensures var event := Decode(key, row).value;
            && event.key == key && event.status == row.status && event.attempts == row.attempts
            && event.report == row.report && event.txHash == row.txHash
            && IntText(event.assignedBlock) == row.assignedBlock
            && IntText(event.price) == row.price
            && BlockText(event.submissionBlock) == row.submissionBlock
  {
  }
}
