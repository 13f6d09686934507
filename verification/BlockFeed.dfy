/** The block number shared between the polling thread and its subscribers (qsp_thread.py:102-140). */
module BlockFeed {

  /** The poller between reads, or holding a remote block number it has just read. */
  datatype Poller = PollerIdle | Holding(remote: int)

  /** The subscriber before its comparison, or between the comparison and its second read. */
  datatype Subscriber = Comparing | Reading

  datatype Feed = Feed(current: int, poller: Poller, subscriber: Subscriber, last: int, calls: seq<int>)

  datatype Action = AskRemote(block: int) | Store | Compare | ReadAndCall

  function Step(f: Feed, a: Action): Feed {
    match a
    case AskRemote(block) => if f.poller.PollerIdle? then f.(poller := Holding(block)) else f
    case Store =>
      if f.poller.Holding? then
        f.(poller := PollerIdle, current := if f.current < f.poller.remote then f.poller.remote else f.current)
      else f
    case Compare =>
      if f.subscriber.Comparing? && f.last != f.current then f.(subscriber := Reading) else f
    case ReadAndCall =>
      if f.subscriber.Reading? then
        f.(subscriber := Comparing, last := f.current, calls := f.calls + [f.current])
      else f
  }

  function Exec(f: Feed, actions: seq<Action>): Feed
    decreases |actions|
  {
    if actions == [] then f else Exec(Step(f, actions[0]), actions[1..])
  }

  const START := Feed(0, PollerIdle, Comparing, 0, [])

  predicate Increasing(calls: seq<int>) {
    forall i, j :: 0 <= i < j < |calls| ==> calls[i] < calls[j]
  }

  predicate Inv(f: Feed) {
    && 0 <= f.last <= f.current
    && (f.subscriber.Reading? ==> f.last < f.current)
    && Increasing(f.calls)
    && (forall i :: 0 <= i < |f.calls| ==> 0 < f.calls[i] <= f.last)
    && f.last == (if f.calls == [] then 0 else f.calls[|f.calls| - 1])
  }

  lemma {:induction false} ExecKeeps(f: Feed, actions: seq<Action>)
    requires Inv(f)
    ensures Inv(Exec(f, actions))
    decreases |actions|
  {
    if actions != [] {
      ExecKeeps(Step(f, actions[0]), actions[1..]);
    }
  }

  /** Whatever the remote node answers and however the threads interleave, the handler is called
      with strictly increasing, positive block numbers, although the subscriber reads the shared
      number twice. */
  lemma CallsIncrease(actions: seq<Action>)
    ensures Increasing(Exec(START, actions).calls)
    ensures forall i :: 0 <= i < |Exec(START, actions).calls| ==> Exec(START, actions).calls[i] > 0
  {
    ExecKeeps(START, actions);
  }

  /** A subscriber that gets its two turns is up to date: the last call was for the current block. */
  lemma CatchesUp(actions: seq<Action>)
    ensures var f := Exec(START, actions);
            var f' := Step(Step(f, Compare), ReadAndCall);
            && f'.last == f'.current == f.current
            && (f.current > 0 ==> f'.calls != [] && f'.calls[|f'.calls| - 1] == f.current)
  {
    ExecKeeps(START, actions);
  }

  // ------------------------------------------------ what the remote node said

  /** The numbers stored by the poller along the actions, in order. */
  function Stored(f: Feed, actions: seq<Action>): seq<int>
    decreases |actions|
  {
    if actions == [] then []
    else
      (if actions[0].Store? && f.poller.Holding? then [f.poller.remote] else [])
      + Stored(Step(f, actions[0]), actions[1..])
  }

  /** The largest of a start value and some numbers. */
  predicate IsMax(m: int, start: int, numbers: seq<int>) {
    && start <= m && (forall i :: 0 <= i < |numbers| ==> numbers[i] <= m)
    && (m == start || m in numbers)
  }

  lemma StepStores(f: Feed, a: Action)
    ensures Step(f, a).current ==
            if a.Store? && f.poller.Holding? && f.current < f.poller.remote then f.poller.remote
            else f.current
  {
  }

  lemma {:induction false} CurrentFrom(f: Feed, actions: seq<Action>)
    ensures IsMax(Exec(f, actions).current, f.current, Stored(f, actions))
    decreases |actions|
  {
    if actions != [] {
      StepStores(f, actions[0]);
      CurrentFrom(Step(f, actions[0]), actions[1..]);
      MaxCons(Exec(f, actions).current, f.current, Step(f, actions[0]).current,
              if actions[0].Store? && f.poller.Holding? then [f.poller.remote] else [],
              Stored(Step(f, actions[0]), actions[1..]));
    }
  }

  lemma MaxCons(m: int, start: int, next: int, first: seq<int>, rest: seq<int>)
    requires IsMax(m, next, rest) && |first| <= 1
    requires next == if first != [] && start < first[0] then first[0] else start
    ensures IsMax(m, start, first + rest)
  {
    var all := first + rest;
    forall i | 0 <= i < |all| ensures all[i] <= m {
      if i >= |first| {
        assert all[i] == rest[i - |first|];
      }
    }
    if m in rest {
      var i :| 0 <= i < |rest| && rest[i] == m;
      assert all[|first| + i] == m;
    } else if m != start {
      assert all[0] == m;
    }
  }

  /** The shared number is the largest of 0 and all remote numbers stored so far, in every run. */
  lemma CurrentIsLargestStored(actions: seq<Action>)
    ensures IsMax(Exec(START, actions).current, 0, Stored(START, actions))
  {
    CurrentFrom(START, actions);
  }

  /** From the remote node to the handler: after the poller has read a positive number and both
      threads have had their turns, the last call was for that number or a later one. */
  lemma ReachesHandler(actions: seq<Action>, block: int)
    requires Exec(START, actions).poller.PollerIdle? && block > 0
    ensures var f := Exec(START, actions);
            var f' := Step(Step(Step(Step(f, AskRemote(block)), Store), Compare), ReadAndCall);
            f'.calls != [] && f'.calls[|f'.calls| - 1] >= block && f'.poller.PollerIdle?
  {
    ExecKeeps(START, actions);
  }

  /** The threads' fields; each method is one uninterrupted access to the shared number. */
  class BlockThreads {
    var currentBlock: int
    var poller: Poller
    var subscriber: Subscriber
    var lastBlockNumber: int
    var calls: seq<int>

    ghost function View(): Feed
      reads this
    {
      Feed(currentBlock, poller, subscriber, lastBlockNumber, calls)
    }

    constructor ()
      ensures View() == START
    {
      currentBlock, poller, subscriber, lastBlockNumber, calls := 0, PollerIdle, Comparing, 0, [];
    }

    method ReadRemote(block: int)
      requires poller.PollerIdle?
      modifies this
      ensures View() == Step(old(View()), AskRemote(block)) && poller == Holding(block)
    {
      poller := Holding(block);
    }

    method StoreRemote()
      requires poller.Holding?
      modifies this
      ensures View() == Step(old(View()), Store) && poller == PollerIdle
      ensures currentBlock == if old(currentBlock) < old(poller).remote then old(poller).remote else old(currentBlock)
    {
      if currentBlock < poller.remote {
        currentBlock := poller.remote;
      }
      poller := PollerIdle;
    }

    method CompareBlocks()
      requires subscriber.Comparing?
      modifies this
      ensures View() == Step(old(View()), Compare)
      ensures subscriber == (if lastBlockNumber != currentBlock then Reading else Comparing)
    {
      if lastBlockNumber != currentBlock {
        subscriber := Reading;
      }
    }

    method CallHandler()
      requires subscriber.Reading?
      modifies this
      ensures View() == Step(old(View()), ReadAndCall)
      ensures lastBlockNumber == currentBlock == old(currentBlock) && calls == old(calls) + [currentBlock]
      ensures subscriber == Comparing
    {
      lastBlockNumber := currentBlock;
      calls := calls + [lastBlockNumber];
      subscriber := Comparing;
    }
  }
}
