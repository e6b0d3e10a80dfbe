/**
  The data model shared by every transfer strategy: account records, the
  store that maps account ids to them, the errors a transfer can end in,
  and the total balance of a store.
 */
module Ledger {

  /** One ledger balance. `balance` is an exact decimal in the source, so an
      unbounded integer here; `version` is the optimistic-locking counter the
      persistence layer bumps on every committed write of the record. */
  datatype Account = Account(id: string, balance: int, version: nat)

  /** The authoritative copy of every account, keyed by account id. */
  type Store = map<string, Account>

  /** Why a transfer (or one attempt of it) did not complete. */
  datatype TransferError =
    | NotFound(id: string)   // a lookup found no account with this id
    | InsufficientFunds      // the source balance is below the amount
    | Conflict               // a stored version changed since it was read
    | RetryExhausted         // every allowed optimistic attempt conflicted

  datatype Result<+T> = Ok(value: T) | Err(error: TransferError)

  /** The caller-visible end of a transfer call: normal return or the error it throws. */
  datatype Status = Completed | Failed(error: TransferError)

  /** A status together with the store the call leaves behind. */
  datatype Outcome = Outcome(status: Status, store: Store)

  /** Every record is stored under its own id. */
  ghost predicate WellFormed(s: Store)
  {
    forall k :: k in s ==> s[k].id == k
  }

  /** No account holds a negative balance. */
  ghost predicate NonNegative(s: Store)
  {
    forall k :: k in s ==> s[k].balance >= 0
  }

  /** The sum of all balances in the store. */
  ghost function Total(s: Store): int
    decreases |s|
  {
    if s == map[] then 0
    else
      var k :| k in s;
      s[k].balance + Total(s - {k})
  }

  /** Any account can be split off the total, not only the one `Total` picks. */
  lemma {:induction false} TotalRemove(s: Store, k: string)
    requires k in s
    ensures Total(s) == s[k].balance + Total(s - {k})
    decreases |s|
  {
    var j :| j in s && Total(s) == s[j].balance + Total(s - {j});
    if j != k {
      TotalRemove(s - {j}, k);
      TotalRemove(s - {k}, j);
      assert s - {j} - {k} == s - {k} - {j};
    }
  }

  /** Overwriting one existing record changes the total by exactly the
      difference of the two balances. */
  lemma TotalUpdate(s: Store, k: string, a: Account)
    requires k in s
    ensures Total(s[k := a]) == Total(s) - s[k].balance + a.balance
  {
    TotalRemove(s, k);
    TotalRemove(s[k := a], k);
    assert s[k := a] - {k} == s - {k};
  }
}
