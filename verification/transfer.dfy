/**
  The transfer step that `transferUnsafe`, `transferOptimistic` and
  `transferPessimistic` share, split into its read-and-validate half
  (`Prepare`) and its version-checked, all-or-nothing write (`Commit`).

  In a serialised execution the store read and the store written are the
  same, and `Transfer` is that step. `OptimisticAttempt` lets the store at
  commit time differ from the snapshot, which is how an interleaved writer
  shows up to a single optimistic attempt.
 */
module Transfers {
  import opened Ledger

  /** The two records a transfer is about to save: read from the snapshot,
      balances already moved, versions still those that were read. */
  datatype Plan = Plan(fromId: string, toId: string, debited: Account, credited: Account)

  /** Look up `fromId`, then `toId`, then refuse a balance below `amount`;
      on success compute the two records to save. There is no check on the
      sign of `amount`. */
  function Prepare(store: Store, fromId: string, toId: string, amount: int): (r: Result<Plan>)
    ensures fromId !in store ==> r == Err(NotFound(fromId))
    ensures fromId in store && toId !in store ==> r == Err(NotFound(toId))
    ensures fromId in store && toId in store ==>
              (r == Err(InsufficientFunds) <==> store[fromId].balance < amount)
    ensures r.Err? ==> r.error.NotFound? || r.error == InsufficientFunds
    ensures r.Ok? <==> fromId in store && toId in store && store[fromId].balance >= amount
    ensures r.Ok? ==>
              && fromId in store && toId in store
              && r.value.fromId == fromId && r.value.toId == toId
              // the records keep their identity and the versions that were read
              && r.value.debited.id == store[fromId].id
              && r.value.credited.id == store[toId].id
              && r.value.debited.version == store[fromId].version
              && r.value.credited.version == store[toId].version
              // `amount` leaves one side and arrives on the other
              && store[fromId].balance - r.value.debited.balance == amount
              && r.value.credited.balance - store[toId].balance == amount
              // the guard precedes the debit
              && r.value.debited.balance >= 0
  {
    if fromId !in store then Err(NotFound(fromId))
    else if toId !in store then Err(NotFound(toId))
    else
      var from := store[fromId];
      var to := store[toId];
      if from.balance < amount then Err(InsufficientFunds)
      else
        Ok(Plan(fromId, toId,
                from.(balance := from.balance - amount),
                to.(balance := to.balance + amount)))
  }

  /** The optimistic write of both records as one unit: it commits only when
      both stored versions still equal the versions that were read, and then
      bumps each version by one; otherwise nothing is written. */
  function Commit(store: Store, p: Plan): (r: Outcome)
    requires p.fromId != p.toId
    ensures r.status == Completed || r.status == Failed(Conflict)
    ensures r.status.Completed? <==>
              && p.fromId in store && p.toId in store
              && store[p.fromId].version == p.debited.version
              && store[p.toId].version == p.credited.version
    ensures r.status.Failed? ==> r.store == store
    ensures r.status.Completed? ==>
              && r.store.Keys == store.Keys
              && r.store[p.fromId] == p.debited.(version := store[p.fromId].version + 1)
              && r.store[p.toId] == p.credited.(version := store[p.toId].version + 1)
    ensures forall k :: k in store && k != p.fromId && k != p.toId ==> k in r.store && r.store[k] == store[k]
  {
    if p.fromId in store && p.toId in store
       && store[p.fromId].version == p.debited.version
       && store[p.toId].version == p.credited.version
    then
      var saved := store[p.fromId := p.debited.(version := p.debited.version + 1)];
      Outcome(Completed, saved[p.toId := p.credited.(version := p.credited.version + 1)])
    else
      Outcome(Failed(Conflict), store)
  }

  /** A plan is balanced against a store when the two saved balances add up
      to the two stored ones. */
  ghost predicate Balanced(store: Store, p: Plan)
  {
    && p.fromId in store && p.toId in store
    && p.debited.balance + p.credited.balance == store[p.fromId].balance + store[p.toId].balance
  }

  /** A commit of a balanced plan leaves the total balance unchanged, whether
      it commits or conflicts. */
  lemma CommitConserves(store: Store, p: Plan)
    requires p.fromId != p.toId
    requires Balanced(store, p)
    ensures Total(Commit(store, p).store) == Total(store)
  {
    var r := Commit(store, p);
    if r.status.Completed? {
      var a := p.debited.(version := store[p.fromId].version + 1);
      var b := p.credited.(version := store[p.toId].version + 1);
      TotalUpdate(store, p.fromId, a);
      TotalUpdate(store[p.fromId := a], p.toId, b);
      assert r.store == store[p.fromId := a][p.toId := b];
    }
  }

  /** One optimistic attempt: validate against the snapshot `read`, then
      commit against `write`, the store as it is when the attempt saves.
      Every failure leaves `write` as it was. */
  function OptimisticAttempt(read: Store, write: Store, fromId: string, toId: string, amount: int): (r: Outcome)
    requires fromId != toId
    ensures fromId !in read ==> r == Outcome(Failed(NotFound(fromId)), write)
    ensures fromId in read && toId !in read ==> r == Outcome(Failed(NotFound(toId)), write)
    ensures fromId in read && toId in read && read[fromId].balance < amount ==>
              r == Outcome(Failed(InsufficientFunds), write)
    ensures r.status.Failed? ==> r.store == write
    ensures r.status == Failed(Conflict) <==>
              && fromId in read && toId in read && read[fromId].balance >= amount
              && !(&& fromId in write && toId in write
                   && write[fromId].version == read[fromId].version
                   && write[toId].version == read[toId].version)
    ensures r.status.Completed? <==>
              && fromId in read && toId in read && read[fromId].balance >= amount
              && fromId in write && toId in write
              && write[fromId].version == read[fromId].version
              && write[toId].version == read[toId].version
    ensures r.status.Completed? ==>
              && fromId in read && toId in read
              && r.store.Keys == write.Keys
              && r.store[fromId] == read[fromId].(balance := read[fromId].balance - amount,
                                                  version := read[fromId].version + 1)
              && r.store[toId] == read[toId].(balance := read[toId].balance + amount,
                                              version := read[toId].version + 1)
              && r.store[fromId].balance >= 0
    ensures forall k :: k in write && k != fromId && k != toId ==> k in r.store && r.store[k] == write[k]
  {
    match Prepare(read, fromId, toId, amount)
    case Err(e) => Outcome(Failed(e), write)
    case Ok(p) => Commit(write, p)
  }

  /** The serialised transfer step of all three strategies: the snapshot is
      the current store, so the version check always passes. */
  function Transfer(store: Store, fromId: string, toId: string, amount: int): (r: Outcome)
    requires fromId != toId
    // `fromId` is looked up first, and only then `toId`
    ensures fromId !in store ==> r == Outcome(Failed(NotFound(fromId)), store)
    ensures fromId in store && toId !in store ==> r == Outcome(Failed(NotFound(toId)), store)
    // the funds guard, with `balance == amount` on the accepting side
    ensures fromId in store && toId in store ==>
              (r == Outcome(Failed(InsufficientFunds), store) <==> store[fromId].balance < amount)
    ensures r.status.Completed? <==>
              fromId in store && toId in store && store[fromId].balance >= amount
    ensures r.status != Failed(Conflict) && r.status != Failed(RetryExhausted)
    ensures r.status.Failed? ==> r.store == store
    // the effect of a completed transfer, and nothing else changes
    ensures r.status.Completed? ==>
              && r.store.Keys == store.Keys
              && r.store[fromId] == store[fromId].(balance := store[fromId].balance - amount,
                                                   version := store[fromId].version + 1)
              && r.store[toId] == store[toId].(balance := store[toId].balance + amount,
                                               version := store[toId].version + 1)
              && r.store[fromId].balance >= 0
    ensures forall k :: k in store && k != fromId && k != toId ==> k in r.store && r.store[k] == store[k]
  {
    OptimisticAttempt(store, store, fromId, toId, amount)
  }

  /** Conservation: a transfer never creates or destroys money, for any
      amount, including a negative one. */
  lemma TransferConserves(store: Store, fromId: string, toId: string, amount: int)
    requires fromId != toId
    ensures Total(Transfer(store, fromId, toId, amount).store) == Total(store)
  {
    var r := Transfer(store, fromId, toId, amount);
    if r.status.Completed? {
      var p := Prepare(store, fromId, toId, amount).value;
      CommitConserves(store, p);
    }
  }

  /** A transfer keeps every record under its own id. */
  lemma TransferPreservesWellFormed(store: Store, fromId: string, toId: string, amount: int)
    requires fromId != toId
    requires WellFormed(store)
    ensures WellFormed(Transfer(store, fromId, toId, amount).store)
  {
  }

  /** With a non-negative amount, a store with no negative balance keeps none. */
  lemma TransferPreservesNonNegative(store: Store, fromId: string, toId: string, amount: int)
    requires fromId != toId
    requires NonNegative(store)
    requires amount >= 0
    ensures NonNegative(Transfer(store, fromId, toId, amount).store)
  {
  }

  /** Without a sign check on `amount`, a negative amount passes the funds
      guard and drives the target account below zero. */
  lemma NegativeAmountOverdrawsTarget()
    ensures var s := map["A" := Account("A", 0, 0), "B" := Account("B", 0, 0)];
            var r := Transfer(s, "A", "B", -50);
            && NonNegative(s)
            && r.status == Completed
            && r.store["A"].balance == 50
            && r.store["B"].balance == -50
  {
  }

  /** The write as it happens when the two saves run in transactions of
      their own: each save is version-checked and committed separately, so a
      conflict on the second record comes after the first one is stored. */
  function CommitPerRecord(store: Store, p: Plan): (r: Outcome)
    requires p.fromId != p.toId
    ensures r.status == Completed || r.status == Failed(Conflict)
    ensures r.status.Completed? <==> Commit(store, p).status.Completed?
    ensures r.status.Completed? ==> r.store == Commit(store, p).store
    // a conflict on the first record writes nothing
    ensures p.fromId !in store || store[p.fromId].version != p.debited.version ==>
              r == Outcome(Failed(Conflict), store)
    // a conflict on the second record comes after the first one is stored
    ensures && p.fromId in store && store[p.fromId].version == p.debited.version
            && (p.toId !in store || store[p.toId].version != p.credited.version) ==>
              r == Outcome(Failed(Conflict), store[p.fromId := p.debited.(version := p.debited.version + 1)])
  {
    if p.fromId !in store || store[p.fromId].version != p.debited.version then
      Outcome(Failed(Conflict), store)
    else
      var saved := store[p.fromId := p.debited.(version := p.debited.version + 1)];
      if p.toId !in saved || saved[p.toId].version != p.credited.version then
        Outcome(Failed(Conflict), saved)
      else
        Outcome(Completed, saved[p.toId := p.credited.(version := p.credited.version + 1)])
  }

  /** A concurrent transfer into B (C -> B of 10, say) bumps B's version
      between the read and the write of a transfer A -> B of 30. The
      per-record write stores A's debit and then fails on B: the attempt
      reports a conflict, yet 30 has left the ledger. */
  lemma PerRecordCommitLosesDebit()
    ensures var read := map["A" := Account("A", 100, 0), "B" := Account("B", 0, 0)];
            var write := read["B" := Account("B", 10, 1)];
            var p := Prepare(read, "A", "B", 30).value;
            var r := CommitPerRecord(write, p);
            && Prepare(read, "A", "B", 30).Ok?
            && r.status == Failed(Conflict)
            && r.store != write
            && r.store["A"].balance == 70
            && Total(r.store) == Total(write) - 30
  {
    var read := map["A" := Account("A", 100, 0), "B" := Account("B", 0, 0)];
    var write := read["B" := Account("B", 10, 1)];
    var p := Prepare(read, "A", "B", 30).value;
    var r := CommitPerRecord(write, p);
    TotalUpdate(write, "A", r.store["A"]);
    assert r.store == write["A" := r.store["A"]];
  }
}
