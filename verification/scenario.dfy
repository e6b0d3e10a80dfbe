/**
  The contention scenario of the race-condition test: account A holds 100,
  B and C hold 0, and two callers each move 80 out of A, one to B and one
  to C.
 */
module Scenario {
  import opened Ledger
  import opened Transfers
  import opened Retry

  /** The seed store of the test: A holds 100, B and C hold 0. */
  function Seed(): Store
  {
    map["A" := Account("A", 100, 0), "B" := Account("B", 0, 0), "C" := Account("C", 0, 0)]
  }

  /** Serialised, as the pessimistic strategy's locks make the two calls,
      in either order: the first call succeeds, the second finds 20 < 80 and
      fails, and A ends at 20 with the money in exactly one of B and C. */
  lemma SerialScenario()
    ensures var ab := Transfer(Seed(), "A", "B", 80);
            var abac := Transfer(ab.store, "A", "C", 80);
            && ab.status == Completed
            && abac.status == Failed(InsufficientFunds)
            && abac.store["A"].balance == 20
            && abac.store["B"].balance == 80
            && abac.store["C"].balance == 0
    ensures var ac := Transfer(Seed(), "A", "C", 80);
            var acab := Transfer(ac.store, "A", "B", 80);
            && ac.status == Completed
            && acab.status == Failed(InsufficientFunds)
            && acab.store["A"].balance == 20
            && acab.store["B"].balance == 0
            && acab.store["C"].balance == 80
  {
  }

  /** The optimistic race, both callers going through the retry loop: both
      read the seed; A -> B commits on its first attempt, so A -> C's first
      attempt finds A's version moved and conflicts; its retry reads afresh,
      sees 20 and fails with insufficient funds after two attempts. One
      success, one `InsufficientFunds`, and A at 20. */
  lemma OptimisticRaceScenario()
    ensures var first := OptimisticWithRetry(
                           [Window(Seed(), Seed()), Window(Seed(), Seed()), Window(Seed(), Seed())], "A", "B", 80);
            var s1 := first.outcome.store;
            var second := OptimisticWithRetry(
                            [Window(Seed(), s1), Window(s1, s1), Window(s1, s1)], "A", "C", 80);
            && first.attempts == 1
            && first.outcome.status == Completed
            && second.attempts == 2
            && second.outcome.status == Failed(InsufficientFunds)
            && second.outcome.store == s1
            && s1["A"].balance == 20
            && s1["B"].balance == 80
            && s1["C"].balance == 0
  {
    var ws0 := [Window(Seed(), Seed()), Window(Seed(), Seed()), Window(Seed(), Seed())];
    assert AttemptStatuses(ws0, "A", "B", 80)[0] == Completed;
    var s1 := OptimisticWithRetry(ws0, "A", "B", 80).outcome.store;
    var ws := [Window(Seed(), s1), Window(s1, s1), Window(s1, s1)];
    var o := AttemptStatuses(ws, "A", "C", 80);
    assert o[0] == Failed(Conflict);
    assert o[1] == Failed(InsufficientFunds);
  }
}
