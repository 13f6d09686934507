/** Running the analyzers in parallel and collecting their reports
    (perform_audit_thread.py:76-116 and 167-290). */
module Analyzers {
  import opened Wrappers

  /** How one analyzer's check ends: a report with some status (or none), a timeout, an error. */
  datatype Outcome = Returned(status: Option<string>) | TimedOut | Failed

  /** The status in the report the worker thread publishes. */
  function PublishedStatus(o: Outcome): Option<string> {
    if o.Returned? then o.status else Some("error")
  }

  datatype Thread = Checking | Published | Exited

  /** The collector waits to join analyzer i, or has copied report i and not yet read flag i. */
  datatype Collector = Joining(i: nat) | Copied(i: nat)

  /** The shared and the local arrays, indexed by analyzer; a `None` status is an empty report. */
  datatype Board = Board(shared: seq<Option<string>>, flags: seq<bool>, threads: seq<Thread>,
                         locals: seq<Option<string>>, collector: Collector)

  /** What happened to each analyzer: what it published, and how far its thread was when the
      collector copied its report and when it read its flag. */
  datatype Trace = Trace(outcome: Option<Outcome>, atCopy: Option<Thread>, atRead: Option<Thread>)

  datatype Run = Run(board: Board, traces: seq<Trace>)

  datatype Action = Publish(i: nat, outcome: Outcome) | Exit(i: nat) | Copy | Read

  function Size(r: Run): nat {
    |r.board.shared|
  }

  predicate Shaped(b: Board) {
    |b.flags| == |b.threads| == |b.locals| == |b.shared|
  }

  predicate Enabled(r: Run, a: Action)
    requires Shaped(r.board)
  {
    match a
    case Publish(i, _) => i < Size(r) && r.board.threads[i] == Checking
    case Exit(i) => i < Size(r) && r.board.threads[i] == Published
    case Copy => r.board.collector.Joining? && r.board.collector.i < Size(r)
    case Read => r.board.collector.Copied? && r.board.collector.i < Size(r)
  }

  /** `join` returns when the thread has exited or the time is up, so a copy can come at any
      moment; a thread that has published but not returned still counts as alive. */
  function NextBoard(b: Board, a: Action): Board
    requires Shaped(b) && Enabled(Run(b, []), a)
  {
    match a
    case Publish(i, o) =>
      b.(shared := b.shared[i := PublishedStatus(o)], flags := b.flags[i := o.TimedOut?],
         threads := b.threads[i := Published])
    case Exit(i) => b.(threads := b.threads[i := Exited])
    case Copy =>
      var i := b.collector.i;
      b.(locals := b.locals[i := b.shared[i]],
         flags := if b.threads[i] != Exited then b.flags[i := true] else b.flags,
         collector := Copied(i))
    case Read =>
      var i := b.collector.i;
      b.(locals := if b.flags[i] then b.locals[i := Some("timeout")] else b.locals,
         collector := Joining(i + 1))
  }

  function NextTraces(r: Run, a: Action): seq<Trace>
    requires Shaped(r.board) && Enabled(r, a) && |r.traces| == Size(r)
  {
    var ts := r.traces;
    match a
    case Publish(i, o) => ts[i := ts[i].(outcome := Some(o))]
    case Exit(i) => ts
    case Copy =>
      var i := r.board.collector.i;
      ts[i := ts[i].(atCopy := Some(r.board.threads[i]))]
    case Read =>
      var i := r.board.collector.i;
      ts[i := ts[i].(atRead := Some(r.board.threads[i]))]
  }

  predicate ShapedRun(r: Run) {
    Shaped(r.board) && |r.traces| == Size(r)
  }

  function Step(r: Run, a: Action): (r': Run)
    requires ShapedRun(r)
    ensures ShapedRun(r')
    ensures Size(r') == Size(r)
  {
    if Enabled(r, a) then Run(NextBoard(r.board, a), NextTraces(r, a)) else r
  }

  function Exec(r: Run, actions: seq<Action>): (r': Run)
    requires ShapedRun(r)
    ensures ShapedRun(r') && Size(r') == Size(r)
    decreases |actions|
  {
    if actions == [] then r else Exec(Step(r, actions[0]), actions[1..])
  }

  function Start(n: nat): (r: Run)
    ensures ShapedRun(r) && Size(r) == n
  {
    Run(Board(seq(n, _ => None), seq(n, _ => false), seq(n, _ => Checking), seq(n, _ => None),
              Joining(0)),
        seq(n, _ => Trace(None, None, None)))
  }

  // --------------------------------------------------------------- invariant

  /** The copied status: that of the published report, or nothing if it came too early. */
  function CopiedStatus(t: Trace): Option<string> {
    if t.atCopy == Some(Checking) || t.outcome.None? then None else PublishedStatus(t.outcome.value)
  }

  /** Flag i when nothing more happens to it: set by the collector if it found the thread alive,
      but overwritten by a worker that publishes after that. */
  function FlagOf(t: Trace): bool {
    if t.outcome.None? then t.atCopy.Some?
    else if t.atCopy == Some(Published) then true
    else t.outcome.value.TimedOut?
  }

  /** The collected status, as decided when the flag was read. */
  function CollectedStatus(t: Trace): Option<string> {
    var lateReset := t.atCopy == Some(Checking) && t.atRead.Some? && t.atRead.value != Checking;
    var flag :=
      if t.atCopy == Some(Exited) || lateReset then t.outcome == Some(TimedOut) else true;
    if flag then Some("timeout") else CopiedStatus(t)
  }

  /** One analyzer, seen from collector position `collector`. */
  predicate CellOk(b: Board, t: Trace, i: nat)
    requires Shaped(b) && i < |b.shared|
  {
    var copied := i < b.collector.i || (b.collector.Copied? && i == b.collector.i);
    && (t.outcome.Some? <==> b.threads[i] != Checking)
    && (t.outcome.Some? ==> b.shared[i] == PublishedStatus(t.outcome.value))
    && (t.outcome.None? ==> b.shared[i] == None)
    && (t.atCopy.Some? <==> copied)
    && (t.atRead.Some? <==> i < b.collector.i)
    && (t.atCopy.Some? && t.atCopy.value != Checking ==> b.threads[i] != Checking)
    && (t.atCopy == Some(Exited) ==> b.threads[i] == Exited)
    && (t.atRead.Some? && t.atRead.value != Checking ==> b.threads[i] != Checking)
    && (t.atRead.Some? && t.atCopy.Some? && t.atCopy.value != Checking ==> t.atRead.value != Checking)
    && b.flags[i] == FlagOf(t)
    && (t.atCopy.Some? && t.atRead.None? ==> b.locals[i] == CopiedStatus(t))
    && (t.atRead.Some? ==> b.locals[i] == CollectedStatus(t))
  }

  predicate Inv(r: Run) {
    && ShapedRun(r)
    && r.board.collector.i <= Size(r)
    && (r.board.collector.Copied? ==> r.board.collector.i < Size(r))
    && forall i :: 0 <= i < Size(r) ==> CellOk(r.board, r.traces[i], i)
  }

  lemma StepKeeps(r: Run, a: Action)
    requires Inv(r)
    ensures Inv(Step(r, a))
  {
  }

  lemma {:induction false} ExecKeeps(r: Run, actions: seq<Action>)
    requires Inv(r)
    ensures Inv(Exec(r, actions))
    decreases |actions|
  {
    if actions != [] {
      StepKeeps(r, actions[0]);
      ExecKeeps(Step(r, actions[0]), actions[1..]);
    }
  }

  // ------------------------------------------------------------- the verdict

  /** The fail-safe: a report without a status counts as an error. */
  function FinalStatus(local: Option<string>): string {
    if local.None? then "error" else local.value
  }

  const AUDIT_STATE_SUCCESS := 4
  const AUDIT_STATE_ERROR := 5

  /** Some analyzer succeeded and none ended in error; others may have timed out. */
  predicate Successful(locals: seq<Option<string>>) {
    && (exists i :: 0 <= i < |locals| && FinalStatus(locals[i]) == "success")
    && (forall i :: 0 <= i < |locals| ==> FinalStatus(locals[i]) != "error")
  }

  lemma SuccessfulMeans(locals: seq<Option<string>>)
    ensures Successful(locals) <==>
            && (exists i :: 0 <= i < |locals| && locals[i] == Some("success"))
            && (forall i :: 0 <= i < |locals| ==> locals[i] != None && locals[i] != Some("error"))
  {
    forall i | 0 <= i < |locals|
      ensures FinalStatus(locals[i]) == "success" <==> locals[i] == Some("success")
      ensures FinalStatus(locals[i]) == "error" <==> locals[i] == None || locals[i] == Some("error")
    {
    }
  }

  /** `__compute_audit_result` */
  method ComputeAuditResult(locals: seq<Option<string>>) returns (state: int, status: string)
    ensures (state, status) ==
            if (exists i :: 0 <= i < |locals| && locals[i] == Some("success"))
               && (forall i :: 0 <= i < |locals| ==> locals[i] != None && locals[i] != Some("error"))
            then (4, "success") else (5, "error")
    ensures status == "success" <==> Successful(locals)
  {
    state, status := AUDIT_STATE_SUCCESS, "success";
    var hasSuccessful := false;
    for i := 0 to |locals|
      invariant state == (if status == "success" then AUDIT_STATE_SUCCESS else AUDIT_STATE_ERROR)
      invariant status == "success" || status == "error"
      invariant status == "success" <==> forall j :: 0 <= j < i ==> locals[j] != None && locals[j] != Some("error")
      invariant hasSuccessful <==> exists j :: 0 <= j < i && locals[j] == Some("success")
    {
      var analyzerStatus := if locals[i].None? then "error" else locals[i].value;
      if analyzerStatus == "error" {
        state, status := AUDIT_STATE_ERROR, "error";
      }
      if analyzerStatus == "success" {
        hasSuccessful := true;
      }
    }
    if !hasSuccessful {
      state, status := AUDIT_STATE_ERROR, "error";
    }
    SuccessfulMeans(locals);
  }

  // ---------------------------------------------------------------- theorems

  /** The collector has gone through all analyzers. */
  predicate Collected(r: Run) {
    r.board.collector == Joining(Size(r))
  }

  lemma StartInv(n: nat)
    ensures Inv(Start(n))
  {
  }

  /** A report is collected as a success exactly when the analyzer returned success and its thread
      had already finished when the collector looked. */
  lemma SuccessIff(n: nat, actions: seq<Action>, i: nat)
    requires Collected(Exec(Start(n), actions)) && i < n
    ensures var r := Exec(Start(n), actions);
            FinalStatus(r.board.locals[i]) == "success" <==>
            r.traces[i].atCopy == Some(Exited) && r.traces[i].outcome == Some(Returned(Some("success")))
  {
    StartInv(n);
    ExecKeeps(Start(n), actions);
    var r := Exec(Start(n), actions);
    assert CellOk(r.board, r.traces[i], i);
  }

  /** An analyzer still alive when its report is copied is reported as a timeout, unless it
      publishes without a timeout in the short gap before its flag is read: then it is an error. */
  lemma AliveAtJoin(n: nat, actions: seq<Action>, i: nat)
    requires Collected(Exec(Start(n), actions)) && i < n
    ensures var r := Exec(Start(n), actions);
            var t := r.traces[i];
            && t.atCopy.Some? && t.atRead.Some?
            && (t.atCopy.value != Exited ==>
                  FinalStatus(r.board.locals[i]) ==
                  if t.atCopy.value == Checking && t.atRead.value != Checking
                     && t.outcome != Some(TimedOut)
                  then "error" else "timeout")
  {
    StartInv(n);
    ExecKeeps(Start(n), actions);
    var r := Exec(Start(n), actions);
    assert CellOk(r.board, r.traces[i], i);
  }

  /** An analyzer that finished in time keeps the status it published; one whose own timeout struck
      counts as a timeout, one without a status as an error. */
  lemma FinishedAtJoin(n: nat, actions: seq<Action>, i: nat)
    requires Collected(Exec(Start(n), actions)) && i < n
    requires Exec(Start(n), actions).traces[i].atCopy == Some(Exited)
    ensures var r := Exec(Start(n), actions);
            && r.traces[i].outcome.Some?
            && FinalStatus(r.board.locals[i]) ==
               match r.traces[i].outcome.value
               case TimedOut => "timeout"
               case Failed => "error"
               case Returned(status) => FinalStatus(status)
  {
    StartInv(n);
    ExecKeeps(Start(n), actions);
    var r := Exec(Start(n), actions);
    assert CellOk(r.board, r.traces[i], i);
  }

  predicate SucceededInTime(t: Trace) {
    t.atCopy == Some(Exited) && t.outcome == Some(Returned(Some("success")))
  }

  /** It failed, reported an error or no status in time, or published in the gap after its copy. */
  predicate EndsInError(t: Trace) {
    || (t.atCopy == Some(Exited)
        && t.outcome in {Some(Failed), Some(Returned(None)), Some(Returned(Some("error")))})
    || (t.atCopy == Some(Checking) && t.atRead.Some? && t.atRead != Some(Checking)
        && t.outcome != Some(TimedOut))
  }

  /** The verdict of a whole run in terms of what its threads did, under every interleaving. */
  lemma VerdictOfRun(n: nat, actions: seq<Action>)
    requires Collected(Exec(Start(n), actions))
    ensures var r := Exec(Start(n), actions);
            Successful(r.board.locals) <==>
            && (exists i :: 0 <= i < n && SucceededInTime(r.traces[i]))
            && (forall i :: 0 <= i < n ==> !EndsInError(r.traces[i]))
  {
    StartInv(n);
    ExecKeeps(Start(n), actions);
    var r := Exec(Start(n), actions);
    forall i | 0 <= i < n
      ensures FinalStatus(r.board.locals[i]) == "success" <==> SucceededInTime(r.traces[i])
      ensures FinalStatus(r.board.locals[i]) == "error" <==> EndsInError(r.traces[i])
    {
      assert CellOk(r.board, r.traces[i], i);
    }
  }

  /** A run on which an analyzer that was alive at its join ends as an error, not a timeout. */
  lemma LateWorkerBecomesError()
    ensures var r := Exec(Start(1), [Copy, Publish(0, Returned(Some("success"))), Read]);
            Collected(r) && r.traces[0].atCopy == Some(Checking)
            && FinalStatus(r.board.locals[0]) == "error"
  {
  }

  // ----------------------------------------------------------------- progress

  /** The collector's own steps from analyzer i on. */
  function Collecting(count: nat): seq<Action> {
    if count == 0 then [] else [Copy, Read] + Collecting(count - 1)
  }

  lemma CollectOne(r: Run)
    requires Inv(r) && r.board.collector.Joining? && r.board.collector.i < Size(r)
    ensures var r' := Step(Step(r, Copy), Read);
            && Inv(r') && r'.board.collector == Joining(r.board.collector.i + 1)
            && r'.board.shared == r.board.shared && r'.board.threads == r.board.threads
  {
    StepKeeps(r, Copy);
    StepKeeps(Step(r, Copy), Read);
  }

  /** Whatever the workers have done so far and however late they are, the collector goes through
      all analyzers without waiting for any of them. */
  lemma {:induction false} CollectorFinishes(r: Run)
    requires Inv(r) && r.board.collector.Joining?
    ensures Collected(Exec(r, Collecting(Size(r) - r.board.collector.i)))
    decreases Size(r) - r.board.collector.i
  {
    var count := Size(r) - r.board.collector.i;
    if count > 0 {
      CollectOne(r);
      var rest := Collecting(count - 1);
      assert Collecting(count)[1..] == [Read] + rest && ([Read] + rest)[1..] == rest;
      CollectorFinishes(Step(Step(r, Copy), Read));
    }
  }

  // ------------------------------------------------------------- the object

  /** The arrays shared by the worker threads and the collector; each method runs under a lock. */
  class SharedBoard {
    var shared: seq<Option<string>>
    var flags: seq<bool>
    var threads: seq<Thread>
    var locals: seq<Option<string>>
    var collector: Collector

    ghost function View(): Board
      reads this
    {
      Board(shared, flags, threads, locals, collector)
    }

    constructor (n: nat)
      ensures View() == Start(n).board
    {
      shared := seq(n, _ => None);
      flags := seq(n, _ => false);
      threads := seq(n, _ => Checking);
      locals := seq(n, _ => None);
      collector := Joining(0);
    }

    /** The end of `check_contract`, under the analyzer's lock. */
    method PublishReport(i: nat, outcome: Outcome)
      requires Shaped(View()) && Enabled(Run(View(), []), Publish(i, outcome))
      modifies this
      ensures View() == NextBoard(old(View()), Publish(i, outcome))
      ensures shared == old(shared)[i := match outcome
                                         case Returned(status) => status
                                         case TimedOut => Some("error")
                                         case Failed => Some("error")]
      ensures flags == old(flags)[i := outcome == TimedOut] && threads == old(threads)[i := Published]
      ensures locals == old(locals) && collector == old(collector)
    {
      var hasTimedOut, status := false, None;
      match outcome {
        case Returned(reported) => status := reported;
        case TimedOut => hasTimedOut, status := true, Some("error");
        case Failed => status := Some("error");
      }
      shared := shared[i := status];
      flags := flags[i := hasTimedOut];
      threads := threads[i := Published];
    }

    /** The collector's copy of report i, under the same lock. */
    method CopyReport()
      requires Shaped(View()) && Enabled(Run(View(), []), Copy)
      modifies this
      ensures View() == NextBoard(old(View()), Copy)
      ensures var i := old(collector).i;
              && locals == old(locals)[i := shared[i]] && collector == Copied(i)
              && flags == (if threads[i] != Exited then old(flags)[i := true] else old(flags))
      ensures shared == old(shared) && threads == old(threads)
    {
      var i := collector.i;
      locals := locals[i := shared[i]];
      if threads[i] != Exited {
        flags := flags[i := true];
      }
      collector := Copied(i);
    }

    /** The rest of the collector's pass, without the lock. */
    method FinishReport()
      requires Shaped(View()) && Enabled(Run(View(), []), Read)
      modifies this
      ensures View() == NextBoard(old(View()), Read)
      ensures var i := old(collector).i;
              && locals == (if flags[i] then old(locals)[i := Some("timeout")] else old(locals))
              && collector == Joining(i + 1)
      ensures shared == old(shared) && flags == old(flags) && threads == old(threads)
    {
      var i := collector.i;
      if flags[i] {
        locals := locals[i := Some("timeout")];
      }
      collector := Joining(i + 1);
    }
  }
}
