/**
  The bounded retry loop around the optimistic transfer. Each attempt's
  status comes from an oracle, a sequence with one entry per attempt, which
  stands for whatever concurrent writers made that attempt end in. Only a
  conflict is retried; the backoff sleep between attempts is timing and is
  not modelled.
 */
module Retry {
  import opened Ledger
  import opened Transfers
  import opened History

  /** The fixed number of attempts. */
  const MaxRetries: nat := 3

  datatype RetryResult = RetryResult(status: Status, attempts: nat)

  /** Attempts `attempt`, `attempt + 1`, ... of the loop, as recursion over
      the attempt counter. */
  function RetryFrom(oracle: seq<Status>, attempt: nat): (r: RetryResult)
    requires attempt < MaxRetries <= |oracle|
    ensures attempt < r.attempts <= MaxRetries
    // every attempt before the last one conflicted
    ensures forall i :: attempt <= i < r.attempts - 1 ==> oracle[i] == Failed(Conflict)
    // the last attempt settles the outcome: a success or another error is
    // returned as is, and a conflict only ends the loop at the bound
    ensures oracle[r.attempts - 1] != Failed(Conflict) ==> r.status == oracle[r.attempts - 1]
    ensures oracle[r.attempts - 1] == Failed(Conflict) ==>
              r.attempts == MaxRetries && r.status == Failed(RetryExhausted)
    decreases MaxRetries - attempt
  {
    if oracle[attempt] != Failed(Conflict) then RetryResult(oracle[attempt], attempt + 1)
    else if attempt + 1 >= MaxRetries then RetryResult(Failed(RetryExhausted), attempt + 1)
    else RetryFrom(oracle, attempt + 1)
  }

  /** The whole loop, from the first attempt. */
  function RetryAll(oracle: seq<Status>): (r: RetryResult)
    requires MaxRetries <= |oracle|
    ensures 1 <= r.attempts <= MaxRetries
    ensures r.status != Failed(Conflict)
    // the loop returns at the first attempt that does not conflict, with that
    // attempt's status, and gives up only after the third conflict
    ensures forall i :: 0 <= i < r.attempts - 1 ==> oracle[i] == Failed(Conflict)
    ensures oracle[r.attempts - 1] != Failed(Conflict) ==> r.status == oracle[r.attempts - 1]
    ensures oracle[r.attempts - 1] == Failed(Conflict) ==>
              r.attempts == MaxRetries && r.status == Failed(RetryExhausted)
  {
    RetryFrom(oracle, 0)
  }

  /** The first attempt that did not conflict, if one of the allowed
      attempts did not. */
  function FirstSettled(oracle: seq<Status>, from: nat): (k: nat)
    requires from <= MaxRetries <= |oracle|
    ensures from <= k <= MaxRetries
    ensures k < MaxRetries ==> oracle[k] != Failed(Conflict)
    ensures forall i :: from <= i < k ==> oracle[i] == Failed(Conflict)
    decreases MaxRetries - from
  {
    if from == MaxRetries || oracle[from] != Failed(Conflict) then from
    else FirstSettled(oracle, from + 1)
  }

  /** The loop against an independent description of its result: it stops
      at the first attempt that did not conflict and returns that attempt's
      status; if all allowed attempts conflict it gives up with
      `RetryExhausted` after exactly `MaxRetries` of them. */
  lemma {:induction false} RetryFromIsFirstSettled(oracle: seq<Status>, attempt: nat)
    requires attempt < MaxRetries <= |oracle|
    ensures var k := FirstSettled(oracle, attempt);
            RetryFrom(oracle, attempt) ==
              if k < MaxRetries then RetryResult(oracle[k], k + 1)
              else RetryResult(Failed(RetryExhausted), MaxRetries)
    decreases MaxRetries - attempt
  {
    if oracle[attempt] == Failed(Conflict) && attempt + 1 < MaxRetries {
      RetryFromIsFirstSettled(oracle, attempt + 1);
    }
  }

  /** The loop as the source writes it: a counter of conflicts, an early
      return on success, any other error passed on at once, and a give-up
      after the counter reaches the bound. */
  method TransferOptimisticWithRetry(oracle: seq<Status>) returns (status: Status, attempts: nat)
    requires MaxRetries <= |oracle|
    ensures RetryResult(status, attempts) == RetryAll(oracle)
  {
    var attempt := 0;
    while attempt < MaxRetries
      invariant attempt < MaxRetries
      invariant RetryFrom(oracle, attempt) == RetryAll(oracle)
    {
      var s := oracle[attempt];
      if s != Failed(Conflict) {
        return s, attempt + 1;
      }
      attempt := attempt + 1;
      if attempt >= MaxRetries {
        return Failed(RetryExhausted), attempt;
      }
    }
    assert false;
  }

  /** What one attempt sees: the store its reads return, and the store as
      it is when the attempt saves. Every attempt reads afresh. */
  datatype Window = Window(read: Store, write: Store)

  /** A retried transfer: the outcome of its last attempt and how many
      attempts were made. */
  datatype RetriedTransfer = RetriedTransfer(outcome: Outcome, attempts: nat)

  /** The oracle that a schedule of windows induces: attempt `i` is an
      optimistic attempt in window `i`. */
  function AttemptStatuses(windows: seq<Window>, fromId: string, toId: string, amount: int): (o: seq<Status>)
    requires fromId != toId
  {
    seq(|windows|, i requires 0 <= i < |windows| =>
      OptimisticAttempt(windows[i].read, windows[i].write, fromId, toId, amount).status)
  }

  /** The retry loop over the optimistic transfer, attempt `i` running in
      window `i`; the store left behind is the one the last attempt left. */
  function OptimisticWithRetry(windows: seq<Window>, fromId: string, toId: string, amount: int): (r: RetriedTransfer)
    requires fromId != toId
    requires MaxRetries <= |windows|
    ensures 1 <= r.attempts <= MaxRetries
    ensures r.outcome.status != Failed(Conflict)
    ensures forall i :: 0 <= i < r.attempts - 1 ==>
              OptimisticAttempt(windows[i].read, windows[i].write, fromId, toId, amount).status == Failed(Conflict)
    ensures r.outcome.status.Failed? ==> r.outcome.store == windows[r.attempts - 1].write
    // the last attempt settles the result: a success or a non-conflict error
    // is returned as that attempt left it, and a conflict only at the bound
    ensures var last := OptimisticAttempt(windows[r.attempts - 1].read, windows[r.attempts - 1].write, fromId, toId, amount);
            last.status != Failed(Conflict) ==> r.outcome == last
    ensures var last := OptimisticAttempt(windows[r.attempts - 1].read, windows[r.attempts - 1].write, fromId, toId, amount);
            last.status == Failed(Conflict) ==>
              r.attempts == MaxRetries && r.outcome == Outcome(Failed(RetryExhausted), windows[MaxRetries - 1].write)
  {
    var rr := RetryAll(AttemptStatuses(windows, fromId, toId, amount));
    var last := windows[rr.attempts - 1];
    RetriedTransfer(Outcome(rr.status, OptimisticAttempt(last.read, last.write, fromId, toId, amount).store), rr.attempts)
  }

  /** Every successful return is a serialised transfer on the store it
      committed into, when each window's store at save time is a faithful
      successor of its snapshot: money is conserved and the source is not
      overdrawn. */
  lemma RetryCommitIsSerialTransfer(windows: seq<Window>, fromId: string, toId: string, amount: int)
    requires fromId != toId
    requires MaxRetries <= |windows|
    requires forall i :: 0 <= i < |windows| ==> Faithful(windows[i].read, windows[i].write)
    ensures var r := OptimisticWithRetry(windows, fromId, toId, amount);
            var w := windows[r.attempts - 1].write;
            r.outcome.status.Completed? ==>
              && r.outcome == Transfer(w, fromId, toId, amount)
              && Total(r.outcome.store) == Total(w)
              && r.outcome.store[fromId].balance >= 0
  {
    var r := OptimisticWithRetry(windows, fromId, toId, amount);
    var last := windows[r.attempts - 1];
    AttemptLinearizes(last.read, last.write, fromId, toId, amount);
    TransferConserves(last.write, fromId, toId, amount);
  }
}
