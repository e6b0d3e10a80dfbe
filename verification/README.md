# Account transfers under three concurrency strategies

A Dafny model of the transfer logic of `TransferService`. The service moves
an amount from one account to another over a store that maps account ids to
account records. Each record holds an id, an exact decimal balance and a
version counter. The service offers three strategies:

- `transferUnsafe` and `transferOptimistic` have identical bodies and differ
  only in their comments and log line. Both are transactional and both save
  an entity with a version field, so the persistence layer version-checks
  the saves of either;
- `transferPessimistic` reads the records under row locks.

All three run the same sequential step. Look up `from`, then `to`. Refuse a
balance below the amount. Debit `from`, credit `to`, and save both.
`transferOptimisticWithRetry` wraps the optimistic strategy in a loop of at
most three attempts.

The model states what one serialised attempt does. It does not state how
interleavings are prevented, because the database and the persistence
framework provide that.

- `Ledger` (`ledger.dfy`) defines the data:
  - the account record and the store;
  - the errors (`NotFound(id)`, `InsufficientFunds`, `Conflict`, `RetryExhausted`);
  - the ghost sum `Total` of all balances.
- `Transfers` (`transfer.dfy`) splits the shared step in two:
  - `Prepare` does the lookups and the funds guard against a snapshot;
  - `Commit` is the all-or-nothing, version-checked write. It bumps both
    versions by one, as the `@Version` field makes the persistence layer do
    whenever it writes a changed record.
  - `OptimisticAttempt` validates against the snapshot and commits against
    the store as it is at save time.
  - `Transfer` is the step with snapshot and current store the same. It is
    what each of the three strategies does when it runs alone.
- `History` (`history.dfy`) runs serial histories of transfers. It proves
  that an equal version means an unchanged record. From that it follows that
  an optimistic attempt that commits has exactly the effect of a serialised
  transfer on the current store, so no update is lost.
- `Retry` (`retry.dfy`) models the retry loop in three ways:
  - as recursion over the attempt counter, with each attempt's status taken
    from an oracle sequence;
  - as a method that mirrors the source's `while` loop;
  - over a schedule of per-attempt windows. A window is the store the
    attempt reads and the store it saves into.

  In every form the loop stops on any error other than an optimistic-lock
  conflict and reports `RetryExhausted` after the third conflict.
- `Scenario` (`scenario.dfy`) checks the contention scenario of the race
  test: A = 100, B = C = 0, with 80 moved from A to B and 80 from A to C.

Self-transfer (`fromId == toId`) is excluded by a precondition. Its outcome
depends on whether the persistence layer returns one managed instance for
both lookups, and that behaviour is not part of this model.

The code makes no check on the sign of `amount`. Conservation therefore holds
for every amount. However, a negative amount passes the funds guard and can
drive the target account below zero (`NegativeAmountOverdrawsTarget`). The
preservation of non-negative balances is proved only for non-negative amounts.

Facts about the code that the model follows:

- `transferPessimistic` locks `fromId` and then `toId`, in call order. It
  does not first sort the two ids into a global order.
- No strategy has a lock timeout. The only cancellation path is the
  interrupted backoff of the retry loop, left out below.

## Model

| member | source | states |
|---|---|---|
| Transfers.Prepare | src/main/java/com/example/banking/service/TransferService.java:30-47 | `fromId` is looked up first and its absence is reported even when `toId` is also absent; `toId` is checked only after; `InsufficientFunds` exactly when the balance is below the amount; success exactly when both accounts exist and the balance covers the amount; on success the records keep id and read version, `amount` leaves `from` and arrives at `to`, and the debited balance is not negative |
| Transfers.Commit | src/main/java/com/example/banking/service/TransferService.java:80-85 | the write of both records commits exactly when both stored versions still equal the versions read, then bumps each by one; otherwise it yields `Conflict` and the store is unchanged; accounts other than the two are untouched |
| Transfers.CommitConserves | src/main/java/com/example/banking/service/TransferService.java:80-85 | committing (or conflicting on) a balanced pair of records leaves the total balance unchanged |
| Transfers.OptimisticAttempt | src/main/java/com/example/banking/service/TransferService.java:66-88 | validation runs against the snapshot; a conflict occurs exactly when validation passed and either stored version differs from the one read, and a commit exactly when validation passed and both versions still match; every failure leaves the store at save time unchanged; a commit saves the snapshot records, ids kept, with balances minus/plus `amount` and both versions bumped |
| Transfers.Transfer | src/main/java/com/example/banking/service/TransferService.java:27-53 | the serialised step: lookup order and `NotFound` of the right id, `InsufficientFunds` iff balance < amount (equality succeeds), never a conflict, failure leaves the store unchanged, success debits `from` and credits `to` by `amount`, bumps both versions, leaves `from` non-negative and every other account unchanged |
| Transfers.TransferConserves | src/main/java/com/example/banking/service/TransferService.java:42-50 | the sum of all balances is the same after a transfer as before, for any amount |
| Transfers.TransferPreservesWellFormed | src/main/java/com/example/banking/service/TransferService.java:46-50 | every record stays stored under its own id |
| Transfers.TransferPreservesNonNegative | src/main/java/com/example/banking/service/TransferService.java:144-153 | with a non-negative amount, a store without negative balances keeps none |
| Transfers.NegativeAmountOverdrawsTarget | src/main/java/com/example/banking/service/TransferService.java:42-47 | the guard checks only `balance >= amount`, so a transfer of -50 from an empty A to an empty B succeeds and leaves B at -50 |
| Transfers.CommitPerRecord | src/main/java/com/example/banking/service/TransferService.java:84-85 | the two saves committed one by one, as happens when the call at line 101 bypasses the transaction: they agree with the atomic commit whenever it commits; a conflict on `from` writes nothing, a conflict on `to` leaves `from`'s debit stored |
| Transfers.PerRecordCommitLosesDebit | src/main/java/com/example/banking/service/TransferService.java:99-103 | with one-by-one saves, a conflict on `to` after `from` was saved reports `Conflict` yet leaves `from` debited, so the total drops by the amount |
| History.PerRecordConflictLosesAmount | src/main/java/com/example/banking/service/TransferService.java:84-85 | for every transfer whose `from` save passes its version check and whose `to` save fails, the one-by-one saves report `Conflict` and the total drops by exactly the amount |
| History.Run | src/main/java/com/example/banking/entity/Account.java:23-24 | over any serial history the keys and ids stay, versions never decrease, and a record whose version did not move is unchanged |
| History.RunConserves | src/main/java/com/example/banking/service/TransferService.java:46-50 | any serial history of transfers conserves the total balance |
| History.RunPreservesNonNegative | src/main/java/com/example/banking/service/TransferService.java:144-153 | a serial history of non-negative transfers never produces a negative balance |
| History.AttemptLinearizes | src/main/java/com/example/banking/service/TransferService.java:83-85 | an optimistic attempt that commits into a faithful successor of its snapshot equals a serialised transfer on that store (no lost update) |
| History.AttemptAfterHistoryConserves | src/main/java/com/example/banking/service/TransferService.java:58-61 | an attempt whose snapshot predates a serial history ends with the total balance of the snapshot, whether it commits or conflicts |
| Retry.RetryFrom | src/main/java/com/example/banking/service/TransferService.java:99-108 | attempts stop at the first non-conflict, whose status is returned as is; all earlier attempts conflicted; at most 3 attempts; a conflict ends the loop only at the third attempt, with `RetryExhausted` |
| Retry.RetryAll | src/main/java/com/example/banking/service/TransferService.java:95-108 | the loop makes 1 to 3 attempts, never surfaces a bare conflict, returns at the first attempt that does not conflict with that attempt's status, and gives up with `RetryExhausted` only after the third conflict |
| Retry.RetryFromIsFirstSettled | src/main/java/com/example/banking/service/TransferService.java:96-108 | the loop's result equals the independent description: the first attempt that did not conflict with its status, or `RetryExhausted` after exactly 3 attempts |
| Retry.TransferOptimisticWithRetry | src/main/java/com/example/banking/service/TransferService.java:95-120 | the loop as written, with a conflict counter, early return and give-up at the bound, computes the same result and attempt count as the recursive model |
| Retry.OptimisticWithRetry | src/main/java/com/example/banking/service/TransferService.java:99-104 | retrying optimistic attempts with a fresh read each time: earlier attempts all conflicted; the first attempt that does not conflict is returned as it ended (success or error); three conflicts give `RetryExhausted` with the third window's store |
| Retry.RetryCommitIsSerialTransfer | src/main/java/com/example/banking/service/TransferService.java:99-104 | every successful return of the retry loop is a serialised transfer on the store it committed into: conservation and a non-negative source |
| Scenario.SerialScenario | src/test/java/com/example/banking/RaceConditionTest.java:225-227 | A=100, B=C=0: A->B 80 and A->C 80 in either order give one success, one `InsufficientFunds`, and A=20 |
| Scenario.OptimisticRaceScenario | src/test/java/com/example/banking/RaceConditionTest.java:163-165 | both callers go through the retry loop and read the seed; A->B commits on its first attempt, A->C conflicts, retries, and fails with `InsufficientFunds` on its second attempt; A=20 |

## Left out

- Threads, executors and latches, and the nondeterministic interleavings the
  race test shows. The model covers serialised attempts; an interleaving
  enters only as the store an optimistic attempt saves into (a window).
- The `Thread.sleep(50)` backoff and the `InterruptedException` path of the
  retry loop. These are timing and thread state.
- Logging.
- Transaction demarcation, the `@Version` increment mechanics, the
  `SELECT ... FOR UPDATE` lock and the repository interface. The model keeps
  only their sequential effect: an all-or-nothing commit, a version check at
  save time, and a version bumped by one per saved record.
- Lock acquisition order, lock waits and deadlock. The pessimistic strategy
  is modelled as the serialised step its locks produce.
- Account creation and deletion. An account that vanished between read and
  save is treated as a version mismatch.
- Self-transfer (`fromId == toId`), as explained above.
- Retry.TransferOptimisticWithRetry: the source's `while` exits normally only
  if the bound were 0. With the bound at 3 that exit is unreachable, and the
  model proves it unreachable instead of giving it a result.
- Transfers.Commit: always writes and version-checks both records. The
  persistence layer writes, checks and bumps a version only for a record that
  changed. With `amount` = 0 neither record changes, so the source writes
  nothing, bumps no version and cannot conflict. The model instead bumps both
  versions (`Transfers.Transfer` too), and `Transfers.OptimisticAttempt` can
  still report a conflict. The persistence layer's change detection is not
  part of this model.
- Retry.OptimisticWithRetry: each attempt uses the intended all-or-nothing
  write (`Transfers.Commit`). The as-written one-by-one saves
  (`Transfers.CommitPerRecord`) are not composed into the loop, so the model
  does not show a conflicting attempt that leaves a debit behind being
  retried and debiting again.
- Retry.RetryFrom: each attempt's status is an oracle value, not derived from
  a store. `Retry.OptimisticWithRetry` supplies the derived version.
- The AccountRepository interface and the persistence framework are not part
  of this model.

## Findings

| source | as written | input that shows it | evidently intended | confidence | as-written member | corrected member |
|---|---|---|---|---|---|---|
| src/main/java/com/example/banking/service/TransferService.java:101 | `transferOptimisticWithRetry` calls `transferOptimistic` on the same object. A proxy-based transaction annotation does not apply to a call from inside the class, so each `save` commits in its own transaction. | A=100 (version 0), B=0 (version 0) are read. A concurrent transfer into B (for example C->B 10) moves B to 10 (version 1). Then A->B 30 is saved: A's save commits at 70, and B's save conflicts. The attempt reports a conflict, yet 30 has left the ledger. | The two saves commit or roll back together, as the doc-comment at lines 58-61 and the annotation at line 66 intend. | medium; not executed; depends on the framework's proxy semantics | Transfers.CommitPerRecord, Transfers.PerRecordCommitLosesDebit, History.PerRecordConflictLosesAmount | Transfers.Commit, Transfers.CommitConserves |
