/** The summary endpoint of the REST controller (BudgetController.getSummary):
    a grand total and an enum map of per-category totals over every stored
    expense. Java references may be null, so every entity field is optional. */
module Backend {
  import opened Categories
  import opened Sums

  datatype Option<T> = None | Some(value: T)

  /** The `Expense` entity as the repository returns it. */
  datatype Expense = Expense(id: Option<int>, date: Option<string>, description: Option<string>,
                             category: Option<Category>, amount: Option<real>)

  /** `SummaryResponse`. */
  datatype SummaryResponse = SummaryResponse(totalExpenses: real, byCategory: map<Category, real>)

  /** Unboxing a null `Double` amount throws a NullPointerException. */
  datatype SummaryError = NullAmount

  datatype Result<T> = Success(value: T) | Failure(error: SummaryError)

  predicate AmountsPresent(expenses: seq<Expense>)
  {
    forall i :: 0 <= i < |expenses| ==> expenses[i].amount.Some?
  }

  /** `stream.mapToDouble(Expense::getAmount).sum()`: the amounts added in
      order; a null amount aborts the sum. */
  function SumOfAmounts(expenses: seq<Expense>): (r: Option<real>)
    ensures r.Some? <==> AmountsPresent(expenses)
  {
    if expenses == [] then Some(0.0)
    else
      var n := |expenses| - 1;
      match SumOfAmounts(expenses[..n])
      case None => None
      case Some(s) =>
        match expenses[n].amount
        case None => None
        case Some(a) => Some(s + a)
  }

  /** `filter(e -> e.getCategory() == category)`: a null category never matches. */
  function WithCategory(expenses: seq<Expense>, c: Category): (r: seq<Expense>)
    ensures forall e :: e in r <==> e in expenses && e.category == Some(c)
  {
    if expenses == [] then []
    else
      var n := |expenses| - 1;
      WithCategory(expenses[..n], c) + (if expenses[n].category == Some(c) then [expenses[n]] else [])
  }

  // Reference sums. A null amount reads as 0 here; these are only consulted
  // for lists whose amounts are all present, since GetSummary fails otherwise.

  function Amount(e: Expense): real
  {
    if e.amount.Some? then e.amount.value else 0.0
  }

  /** The amount of an expense of category `c`, and 0 for any other expense. */
  function AmountIn(c: Category): Expense -> real
  {
    (e: Expense) => if e.category == Some(c) then Amount(e) else 0.0
  }

  /** The amount of an expense with a null category, and 0 for any other expense. */
  function UncategorisedAmount(e: Expense): real
  {
    if e.category.None? then Amount(e) else 0.0
  }

  function TotalOf(expenses: seq<Expense>): real
  {
    Sum(expenses, Amount)
  }

  function CategoryTotal(expenses: seq<Expense>, c: Category): real
  {
    Sum(expenses, AmountIn(c))
  }

  /** The expected `byCategory` map: one entry per category. */
  function ByCategoryOf(expenses: seq<Expense>): (m: map<Category, real>)
    ensures forall c: Category :: c in m
  {
    KeyOrderRanks();
    map c | c in KeyOrder :: CategoryTotal(expenses, c)
  }

  /** The streamed sum is defined exactly when every amount is present, and is
      then the total of the amounts. */
  lemma {:induction false} SumOfAmountsIsTotal(expenses: seq<Expense>)
    requires AmountsPresent(expenses)
    ensures SumOfAmounts(expenses) == Some(TotalOf(expenses))
  {
    if expenses != [] {
      SumOfAmountsIsTotal(expenses[..|expenses| - 1]);
    }
  }

  /** Filtering on `c` and then summing gives the category total. */
  lemma {:induction false} WithCategoryTotal(expenses: seq<Expense>, c: Category)
    ensures TotalOf(WithCategory(expenses, c)) == CategoryTotal(expenses, c)
  {
    if expenses != [] {
      var n := |expenses| - 1;
      WithCategoryTotal(expenses[..n], c);
      var e := expenses[n];
      SumAppend(WithCategory(expenses[..n], c), if e.category == Some(c) then [e] else [], Amount);
      assert [e][..0] == [];
    }
  }

  /** `getSummary`: the streamed grand total, then one streamed, filtered
      total per value of the enumeration, put into the map in that order.
      `values` is `ExpenseCategory.values()`, whose order is not part of this
      model. */
  method GetSummary(expenses: seq<Expense>, values: seq<Category>) returns (r: Result<SummaryResponse>)
    requires IsEnumeration(values)
    ensures r.Failure? <==> !AmountsPresent(expenses)
    ensures r.Success? ==> r.value.totalExpenses == TotalOf(expenses)
    ensures r.Success? ==> r.value.byCategory == ByCategoryOf(expenses)
  {
    var totalExpenses := SumOfAmounts(expenses);
    if totalExpenses.None? {
      return Failure(NullAmount);
    }
    SumOfAmountsIsTotal(expenses);
    var byCategory: map<Category, real> := map[];
    for i := 0 to |values|
      invariant forall c: Category :: c in byCategory <==> c in values[..i]
      invariant forall c: Category :: c in byCategory ==> byCategory[c] == CategoryTotal(expenses, c)
    {
      var category := values[i];
      var matching := WithCategory(expenses, category);
      assert AmountsPresent(matching) by {
        forall j | 0 <= j < |matching| ensures matching[j].amount.Some? {
          assert matching[j] in matching;
          var k :| 0 <= k < |expenses| && expenses[k] == matching[j];
        }
      }
      SumOfAmountsIsTotal(matching);
      WithCategoryTotal(expenses, category);
      var categoryTotal := SumOfAmounts(matching).value;
      byCategory := byCategory[category := categoryTotal];
      assert values[..i + 1] == values[..i] + [category];
    }
    assert values[..|values|] == values;
    return Success(SummaryResponse(totalExpenses.value, byCategory));
  }

  // ---------------------------------------------------------------------
  // Properties of the summary
  // ---------------------------------------------------------------------

  /** A category no expense carries maps to 0. */
  lemma NoMatchIsZero(expenses: seq<Expense>, c: Category)
    requires forall i :: 0 <= i < |expenses| ==> expenses[i].category != Some(c)
    ensures ByCategoryOf(expenses)[c] == 0.0
  {
    SumZero(expenses, AmountIn(c));
  }

  /** Appending an expense raises the entry of its category, if it has one,
      by its amount, and the grand total and the uncategorised sum as fits. */
  lemma {:induction false} AppendExpense(expenses: seq<Expense>, e: Expense)
    ensures ByCategoryOf(expenses + [e]) ==
      if e.category.Some? then
        ByCategoryOf(expenses)[e.category.value := ByCategoryOf(expenses)[e.category.value] + Amount(e)]
      else ByCategoryOf(expenses)
    ensures TotalOf(expenses + [e]) == TotalOf(expenses) + Amount(e)
    ensures Sum(expenses + [e], UncategorisedAmount) == Sum(expenses, UncategorisedAmount) + UncategorisedAmount(e)
  {
    assert (expenses + [e])[..|expenses|] == expenses;
  }

  /** The entries of `byCategory` add up to the grand total less the amounts
      of expenses whose category is null. */
  lemma {:induction false} ByCategoryMissesUncategorised(expenses: seq<Expense>, values: seq<Category>)
    requires IsEnumeration(values)
    ensures TotalOver(values, ByCategoryOf(expenses)) == TotalOf(expenses) - Sum(expenses, UncategorisedAmount)
    decreases |expenses|
  {
    if expenses == [] {
      TotalOverZero(values, ByCategoryOf(expenses));
    } else {
      var n := |expenses| - 1;
      var init, e := expenses[..n], expenses[n];
      assert expenses == init + [e];
      ByCategoryMissesUncategorised(init, values);
      AppendExpense(init, e);
      if e.category.Some? {
        TotalOverBump(values, ByCategoryOf(init), e.category.value, Amount(e));
      }
    }
  }

  /** When every expense has a category, the entries add up to the grand total. */
  lemma ByCategoryAddsUpToTotal(expenses: seq<Expense>, values: seq<Category>)
    requires IsEnumeration(values)
    requires forall i :: 0 <= i < |expenses| ==> expenses[i].category.Some?
    ensures TotalOver(values, ByCategoryOf(expenses)) == TotalOf(expenses)
  {
    ByCategoryMissesUncategorised(expenses, values);
    SumZero(expenses, UncategorisedAmount);
  }

  /** A single expense of 5 with a null category counts in the grand total
      and in no entry. */
  lemma UncategorisedExample()
    ensures var expenses := [Expense(None, None, None, None, Some(5.0))];
      TotalOf(expenses) == 5.0 && forall c: Category :: ByCategoryOf(expenses)[c] == 0.0
  {
    var expenses := [Expense(None, None, None, None, Some(5.0))];
    assert expenses[..0] == [];
    forall c: Category ensures ByCategoryOf(expenses)[c] == 0.0 {
      NoMatchIsZero(expenses, c);
    }
  }

  lemma AmountsPresentByMember(expenses: seq<Expense>)
    ensures AmountsPresent(expenses) <==> forall e :: e in expenses ==> e.amount.Some?
  {
    if AmountsPresent(expenses) {
      forall e | e in expenses ensures e.amount.Some? {
        var k :| 0 <= k < |expenses| && expenses[k] == e;
      }
    }
  }

  /** Reordering the stored expenses changes neither whether the summary
      fails, nor the grand total, nor any entry. */
  lemma ReorderInvariant(xs: seq<Expense>, ys: seq<Expense>)
    requires multiset(xs) == multiset(ys)
    ensures AmountsPresent(xs) <==> AmountsPresent(ys)
    ensures TotalOf(xs) == TotalOf(ys)
    ensures ByCategoryOf(xs) == ByCategoryOf(ys)
  {
    forall e ensures e in xs <==> e in ys {
      assert e in xs <==> e in multiset(xs);
      assert e in ys <==> e in multiset(ys);
    }
    AmountsPresentByMember(xs);
    AmountsPresentByMember(ys);
    SumPermutation(xs, ys, Amount);
    KeyOrderRanks();
    forall c: Category ensures CategoryTotal(xs, c) == CategoryTotal(ys, c) {
      SumPermutation(xs, ys, AmountIn(c));
    }
  }
}
