/**
  Serial histories of transfers, and what the version counter buys the
  optimistic strategy: a record whose version has not moved has not been
  written, so an attempt whose version check passes computed its records
  from the current state and is equivalent to a serialised transfer.
 */
module History {
  import opened Ledger
  import opened Transfers

  datatype Request = Request(fromId: string, toId: string, amount: int)

  /** Every request names two distinct accounts. */
  ghost predicate ValidRequests(h: seq<Request>)
  {
    forall i :: 0 <= i < |h| ==> h[i].fromId != h[i].toId
  }

  /** `later` is what `earlier` became if equal versions mean equal records:
      no record changed without its version changing. */
  ghost predicate Faithful(earlier: Store, later: Store)
  {
    forall k :: k in earlier && k in later && later[k].version == earlier[k].version ==> later[k] == earlier[k]
  }

  /** Run the requests one after another, each on the store the previous one
      left behind, whatever each of them returns. */
  function Run(s: Store, h: seq<Request>): (t: Store)
    requires ValidRequests(h)
    ensures t.Keys == s.Keys
    ensures forall k :: k in s ==> t[k].id == s[k].id
    // versions never go down, and a record whose version stayed put is unchanged
    ensures forall k :: k in s ==> t[k].version >= s[k].version
    ensures Faithful(s, t)
    decreases |h|
  {
    if |h| == 0 then s
    else Run(Transfer(s, h[0].fromId, h[0].toId, h[0].amount).store, h[1..])
  }

  /** Conservation over a whole serial history. */
  lemma {:induction false} RunConserves(s: Store, h: seq<Request>)
    requires ValidRequests(h)
    ensures Total(Run(s, h)) == Total(s)
    decreases |h|
  {
    if |h| > 0 {
      var s' := Transfer(s, h[0].fromId, h[0].toId, h[0].amount).store;
      TransferConserves(s, h[0].fromId, h[0].toId, h[0].amount);
      RunConserves(s', h[1..]);
    }
  }

  /** With non-negative amounts, a serial history never produces a negative
      balance from a store that had none. */
  lemma {:induction false} RunPreservesNonNegative(s: Store, h: seq<Request>)
    requires ValidRequests(h)
    requires forall i :: 0 <= i < |h| ==> h[i].amount >= 0
    requires NonNegative(s)
    ensures NonNegative(Run(s, h))
    decreases |h|
  {
    if |h| > 0 {
      var s' := Transfer(s, h[0].fromId, h[0].toId, h[0].amount).store;
      TransferPreservesNonNegative(s, h[0].fromId, h[0].toId, h[0].amount);
      RunPreservesNonNegative(s', h[1..]);
    }
  }

  /** No lost update: an optimistic attempt that commits against a store
      that is a faithful successor of its snapshot has exactly the effect of
      a serialised transfer on that store. */
  lemma AttemptLinearizes(read: Store, write: Store, fromId: string, toId: string, amount: int)
    requires fromId != toId
    requires Faithful(read, write)
    ensures var r := OptimisticAttempt(read, write, fromId, toId, amount);
            r.status.Completed? ==> r == Transfer(write, fromId, toId, amount)
  {
    var r := OptimisticAttempt(read, write, fromId, toId, amount);
    if r.status.Completed? {
      assert write[fromId] == read[fromId];
      assert write[toId] == read[toId];
      assert Prepare(read, fromId, toId, amount) == Prepare(write, fromId, toId, amount);
    }
  }

  /** An attempt whose snapshot was taken before a serial history ran ends,
      whether it commits or conflicts, with the total balance of its
      snapshot: the history conserved it, and so does the attempt. */
  lemma AttemptAfterHistoryConserves(read: Store, h: seq<Request>, fromId: string, toId: string, amount: int)
    requires ValidRequests(h)
    requires fromId != toId
    ensures var write := Run(read, h);
            var r := OptimisticAttempt(read, write, fromId, toId, amount);
            Total(r.store) == Total(read)
  {
    var write := Run(read, h);
    RunConserves(read, h);
    AttemptLinearizes(read, write, fromId, toId, amount);
    TransferConserves(write, fromId, toId, amount);
  }

  /** The per-record write, for any transfer: when the first save passes its
      version check and the second fails, the attempt reports a conflict yet
      `amount` has left the ledger. */
  lemma PerRecordConflictLosesAmount(read: Store, write: Store, fromId: string, toId: string, amount: int)
    requires fromId != toId
    requires Faithful(read, write)
    requires Prepare(read, fromId, toId, amount).Ok?
    requires var p := Prepare(read, fromId, toId, amount).value;
             && fromId in write && write[fromId].version == p.debited.version
             && (toId !in write || write[toId].version != p.credited.version)
    ensures var r := CommitPerRecord(write, Prepare(read, fromId, toId, amount).value);
            r.status == Failed(Conflict) && Total(r.store) == Total(write) - amount
  {
    var p := Prepare(read, fromId, toId, amount).value;
    assert write[fromId] == read[fromId];
    TotalUpdate(write, fromId, p.debited.(version := p.debited.version + 1));
  }
}
