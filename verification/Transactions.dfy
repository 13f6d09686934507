/** Sending signed transactions and waiting for their confirmation (utils/eth/tx.py:120-217). */
module Transactions {
  import opened Wrappers

  // ------------------------------------------------------------- nonce search

  /** The node's answer to one send, with the wait for a receipt folded into `Unconfirmed`. */
  datatype SendReply =
    | Accepted(hash: string)
    | Underpriced
    | NonceTooLow
    | Known
    | OtherValueError
    | Unconfirmed

  datatype SendResult =
    | Sent(hash: string, nonce: nat)
    | NoHash
    | ValueErrorRaised
    | DeduplicationRaised
    | UnconfirmedRaised

  /** What attempts i, i + 1, ... lead to. `reply(i, nonce)` is the answer to attempt i. */
  function Search(i: nat, nonce: nat, attempts: nat, reply: (nat, nat) -> SendReply): SendResult
    requires i <= attempts
    decreases attempts - i
  {
    if i == attempts then NoHash
    else
      var answer := reply(i, nonce);
      if answer.Accepted? then Sent(answer.hash, nonce)
      else if answer.Unconfirmed? then UnconfirmedRaised
      else if i == attempts - 1 then ValueErrorRaised
      else if answer.Known? then DeduplicationRaised
      else Search(i + 1, if answer.OtherValueError? then nonce else nonce + 1, attempts, reply)
  }

  /** `__send_signed_transaction` with local signing. */
  method SendSignedTransaction(transactionCount: nat, attempts: nat, reply: (nat, nat) -> SendReply)
    returns (r: SendResult)
    ensures r == Search(0, transactionCount, attempts, reply)
  {
    var nonce := transactionCount;
    for i := 0 to attempts
      invariant Search(0, transactionCount, attempts, reply) == Search(i, nonce, attempts, reply)
    {
      match reply(i, nonce) {
        case Accepted(hash) =>
          return Sent(hash, nonce);
        case Unconfirmed =>
          return UnconfirmedRaised;
        case Underpriced =>
          if i == attempts - 1 { return ValueErrorRaised; }
          nonce := nonce + 1;
        case NonceTooLow =>
          if i == attempts - 1 { return ValueErrorRaised; }
          nonce := nonce + 1;
        case Known =>
          return if i == attempts - 1 then ValueErrorRaised else DeduplicationRaised;
        case OtherValueError =>
          if i == attempts - 1 { return ValueErrorRaised; }
      }
    }
    return NoHash;
  }

  /** The loop ends without a hash and without an exception exactly when it may not try at all. */
  lemma {:induction false} NoHashIff(i: nat, nonce: nat, attempts: nat, reply: (nat, nat) -> SendReply)
    requires i <= attempts
    ensures Search(i, nonce, attempts, reply).NoHash? <==> i == attempts
    decreases attempts - i
  {
    if i < attempts - 1 {
      NoHashIff(i + 1, nonce, attempts, reply);
      NoHashIff(i + 1, nonce + 1, attempts, reply);
    }
  }

  /** How a nonce stands with the node's transaction pool. */
  datatype Standing = Used | Pending | Free

  function PoolReply(standing: nat -> Standing, hash: nat -> string, nonce: nat): SendReply {
    match standing(nonce)
    case Used => NonceTooLow
    case Pending => Underpriced
    case Free => Accepted(hash(nonce))
  }

  /** Against a pool that turns down used and pending nonces and takes free ones, the search sends
      with the least free nonce within reach; with none in reach the last error is raised. */
  lemma {:induction false} FindsLeastFreeNonce(i: nat, nonce: nat, attempts: nat,
                                               standing: nat -> Standing, hash: nat -> string)
    requires i < attempts
    ensures var r := Search(i, nonce, attempts, (_: nat, x: nat) => PoolReply(standing, hash, x));
            && (r.ValueErrorRaised? <==> forall x :: nonce <= x < nonce + (attempts - i) ==> standing(x) != Free)
            && (r.Sent? <==> exists x :: nonce <= x < nonce + (attempts - i) && standing(x) == Free)
            && (r.Sent? ==> nonce <= r.nonce < nonce + (attempts - i) && standing(r.nonce) == Free
                            && r.hash == hash(r.nonce)
                            && forall x :: nonce <= x < r.nonce ==> standing(x) != Free)
    decreases attempts - i
  {
    if standing(nonce) != Free && i < attempts - 1 {
      FindsLeastFreeNonce(i + 1, nonce + 1, attempts, standing, hash);
    }
  }

  /** The replies after which the loop goes on, if an attempt is left. */
  predicate Retried(answer: SendReply) {
    answer.Underpriced? || answer.NonceTooLow? || answer.OtherValueError?
  }

  /** The nonce of attempt k: one more for each earlier reply that speaks of the nonce. */
  function NonceAt(k: nat, start: nat, reply: (nat, nat) -> SendReply): nat {
    if k == 0 then start
    else
      var before := NonceAt(k - 1, start, reply);
      if reply(k - 1, before).OtherValueError? then before else before + 1
  }

  /** Attempt k is made: every earlier reply let the loop go on. */
  predicate Reached(k: nat, start: nat, reply: (nat, nat) -> SendReply) {
    forall j :: 0 <= j < k ==> Retried(reply(j, NonceAt(j, start, reply)))
  }

  /** Attempt k is the one that decides, and `r` is what its reply leads to. */
  predicate DecidedAt(k: nat, start: nat, attempts: nat, reply: (nat, nat) -> SendReply, r: SendResult) {
    var nonce := NonceAt(k, start, reply);
    match reply(k, nonce)
    case Accepted(hash) => r == Sent(hash, nonce)
    case Unconfirmed => r == UnconfirmedRaised
    case Known => r == if k == attempts - 1 then ValueErrorRaised else DeduplicationRaised
    case _ => k == attempts - 1 && r == ValueErrorRaised
  }

  /** Whatever the node answers, the outcome is that of one attempt: the first that is not retried,
      or the last. A transaction the node already knows is reported as a duplicate only when another
      attempt would have been left; on the last one the plain error comes out. */
  lemma {:induction false} OneAttemptDecides(i: nat, start: nat, attempts: nat,
                                             reply: (nat, nat) -> SendReply)
    requires i < attempts && Reached(i, start, reply)
    ensures exists k :: i <= k < attempts && Reached(k, start, reply)
                        && DecidedAt(k, start, attempts, reply,
                                     Search(i, NonceAt(i, start, reply), attempts, reply))
    decreases attempts - i
  {
    if Retried(reply(i, NonceAt(i, start, reply))) && i < attempts - 1 {
      OneAttemptDecides(i + 1, start, attempts, reply);
    } else {
      assert DecidedAt(i, start, attempts, reply,
                       Search(i, NonceAt(i, start, reply), attempts, reply));
    }
  }

  // -------------------------------------------------------- confirmation wait

  /** One look at the chain: the head, and the block of the receipt if there is one. */
  datatype Observation = Observation(head: int, receipt: Option<int>)

  datatype WaitResult = Confirmed | NotConfirmed | StillWaiting

  predicate Deep(n: int, o: Observation) {
    o.receipt.Some? && o.head - o.receipt.value >= n
  }

  predicate HeadsGrow(seen: seq<Observation>) {
    forall j :: 0 < j < |seen| ==> seen[j - 1].head < seen[j].head
  }

  lemma {:induction false} GrownBy(seen: seq<Observation>, j: nat)
    requires HeadsGrow(seen) && j < |seen|
    ensures seen[0].head + j <= seen[j].head
  {
    if j > 0 {
      GrownBy(seen, j - 1);
    }
  }

  /** `__wait_for_confirmed_transaction_receipt` on the observations made so far: the two heads
      read before the loop, then one observation per pass. */
  method WaitForConfirmation(n: int, start: int, first: int, seen: seq<Observation>)
    returns (r: WaitResult, passes: nat)
    ensures passes <= |seen|
    ensures forall j :: 0 <= j < passes - 1 ==> !Deep(n, seen[j]) && seen[j].head - start <= 3 * n
    ensures passes > 0 ==> first - start <= 3 * n
    ensures match r
            case Confirmed =>
              passes > 0 && seen[passes - 1].receipt.Some?
              && seen[passes - 1].head - seen[passes - 1].receipt.value >= n
            case NotConfirmed =>
              && (if passes == 0 then first else seen[passes - 1].head) - start > 3 * n
              && (passes > 0 && seen[passes - 1].receipt.Some? ==>
                    seen[passes - 1].head - seen[passes - 1].receipt.value < n)
            case StillWaiting =>
              && passes == |seen| && first - start <= 3 * n
              && forall j :: 0 <= j < |seen| ==> !Deep(n, seen[j]) && seen[j].head - start <= 3 * n
    ensures HeadsGrow(seen) && 0 <= n && |seen| > 3 * n + 1 && start <= seen[0].head ==> !r.StillWaiting?
  {
    var currentBlock := first;
    passes := 0;
    while currentBlock - start <= 3 * n
      invariant passes <= |seen|
      invariant currentBlock == if passes == 0 then first else seen[passes - 1].head
      invariant passes > 0 ==> first - start <= 3 * n
      invariant forall j :: 0 <= j < passes ==> !Deep(n, seen[j])
      invariant forall j :: 0 <= j < passes - 1 ==> seen[j].head - start <= 3 * n
      decreases |seen| - passes
    {
      if passes == |seen| {
        if HeadsGrow(seen) && 0 <= n && |seen| > 3 * n + 1 {
          GrownBy(seen, |seen| - 1);
        }
        return StillWaiting, passes;
      }
      var o := seen[passes];
      currentBlock := o.head;
      passes := passes + 1;
      if o.receipt.Some? {
        if currentBlock - o.receipt.value >= n {
          return Confirmed, passes;
        }
      }
    }
    return NotConfirmed, passes;
  }
}
