/** The frontend and the backend compute the same aggregation: for expenses
    whose category and amount are both set, the backend's `byCategory` map
    equals the frontend's totals record and the two grand totals agree. */
module Agreement {
  import opened Categories
  import opened Sums
  import F = Frontend
  import B = Backend

  /** `stored` and `fetched` list the same expenses in the same order, as
      far as the aggregation reads them: same category, same amount, and
      neither is null on the backend side. */
  ghost predicate SameExpenses(stored: seq<B.Expense>, fetched: seq<F.Expense>)
  {
    |stored| == |fetched| &&
    forall i :: 0 <= i < |stored| ==>
      stored[i].category == B.Some(fetched[i].category) && stored[i].amount == B.Some(fetched[i].amount)
  }

  lemma FrontendAgreesWithBackend(stored: seq<B.Expense>, fetched: seq<F.Expense>)
    requires SameExpenses(stored, fetched)
    ensures B.AmountsPresent(stored)
    ensures B.ByCategoryOf(stored) == F.TotalsOf(fetched)
    ensures B.TotalOf(stored) == F.TotalExpenses(fetched)
  {
    SumPointwise(stored, B.Amount, fetched, F.Amount);
    KeyOrderRanks();
    forall c: Category ensures B.CategoryTotal(stored, c) == F.CategorySum(fetched, c) {
      SumPointwise(stored, B.AmountIn(c), fetched, F.Contribution(c));
    }
  }
}
