/** The aggregation the single-page app (frontend/src/App.tsx) performs on
    the expense list it last fetched: per-category totals, the pie chart
    series built from them, the grand total, and whether the chart is shown. */
module Frontend {
  import opened Categories
  import opened Sums

  /** `interface Expense`; amounts are exact. */
  datatype Expense = Expense(id: int, date: string, description: string, category: Category, amount: real)

  /** What one expense adds to the entry of category `c`. */
  function Contribution(c: Category): Expense -> real
  {
    (e: Expense) => if e.category == c then e.amount else 0.0
  }

  function Amount(e: Expense): real
  {
    e.amount
  }

  /** Exact value of `categoryTotals[c]`. */
  function CategorySum(expenses: seq<Expense>, c: Category): real
  {
    Sum(expenses, Contribution(c))
  }

  /** The `categoryTotals` record: one entry per category. */
  function TotalsOf(expenses: seq<Expense>): (totals: map<Category, real>)
    ensures forall c: Category :: c in totals
  {
    KeyOrderRanks();
    map c | c in KeyOrder :: CategorySum(expenses, c)
  }

  /** `totalExpenses`: the amounts reduced from left to right, starting at 0.
      The grand total is the sum of the eight entries of the totals record. */
  function TotalExpenses(expenses: seq<Expense>): (total: real)
    ensures total == TotalOver(KeyOrder, TotalsOf(expenses))
  {
    TotalsAddUpToTotal(expenses);
    Sum(expenses, Amount)
  }

  /** `categoryTotals`: a record with the eight keys at 0, then one
      `totals[expense.category] += expense.amount` per expense, in order. */
  method CategoryTotals(expenses: seq<Expense>) returns (totals: map<Category, real>)
    ensures forall c: Category :: c in totals
    ensures totals == TotalsOf(expenses)
  {
    totals := map[HOUSING := 0.0, FOOD := 0.0, TRANSPORT := 0.0, HEALTH := 0.0,
                  PERSONAL := 0.0, LOAN := 0.0, ENTERTAINMENT := 0.0, OTHER := 0.0];
    forall c: Category ensures c in totals && totals[c] == 0.0 {
      match c
      case HOUSING =>
      case FOOD =>
      case TRANSPORT =>
      case HEALTH =>
      case PERSONAL =>
      case LOAN =>
      case ENTERTAINMENT =>
      case OTHER =>
    }
    var i := 0;
    while i < |expenses|
      invariant i <= |expenses|
      invariant forall c: Category :: c in totals
      invariant forall c: Category :: totals[c] == CategorySum(expenses[..i], c)
    {
      var expense := expenses[i];
      totals := totals[expense.category := totals[expense.category] + expense.amount];
      assert expenses[..i + 1][..i] == expenses[..i];
      i := i + 1;
    }
    assert expenses[..i] == expenses;
    KeyOrderRanks();
  }

  /** The fixed colour list of the chart; slots 0 and 6 hold the same colour. */
  const Palette: seq<string> := ["#FF6384", "#36A2EB", "#FFCE56", "#4BC0C0", "#9966FF", "#FF9F40", "#FF6384", "#C9CBCF"]

  datatype Dataset = Dataset(data: seq<real>, backgroundColor: seq<string>, borderWidth: int)

  /** `pieChartData`: slice labels and one dataset. */
  datatype PieChart = PieChart(labels: seq<Category>, datasets: seq<Dataset>)

  /** The keys of `ks` whose total is strictly positive, in the order of `ks`. */
  function PositiveKeys(ks: seq<Category>, totals: map<Category, real>): (r: seq<Category>)
    requires forall c: Category :: c in totals
    ensures |r| <= |ks|
  {
    if ks == [] then []
    else PositiveKeys(ks[..|ks| - 1], totals) + (if totals[ks[|ks| - 1]] > 0.0 then [ks[|ks| - 1]] else [])
  }

  /** The series `pieChartData` builds from a totals record: one dataset,
      every slice value strictly positive, and a palette colour for every
      label. */
  function ChartOf(totals: map<Category, real>): (chart: PieChart)
    requires forall c: Category :: c in totals
    ensures |chart.datasets| == 1
    ensures |chart.datasets[0].data| == |chart.labels| == |chart.datasets[0].backgroundColor| <= |Palette|
    ensures forall i :: 0 <= i < |chart.datasets[0].data| ==> chart.datasets[0].data[i] > 0.0
  {
    var labels := PositiveKeys(KeyOrder, totals);
    PositiveKeysPositive(KeyOrder, totals);
    PieChart(labels, [Dataset(seq(|labels|, i requires 0 <= i < |labels| => totals[labels[i]]),
                              Palette[..|labels|], 1)])
  }

  /** `pieChartData`: visits the entries in key order, pushing the category
      and its amount when the amount is strictly positive, then takes as
      many colours as there are labels. */
  method PieChartData(categoryTotals: map<Category, real>) returns (chart: PieChart)
    requires forall c: Category :: c in categoryTotals
    ensures chart == ChartOf(categoryTotals)
  {
    var labels: seq<Category> := [];
    var data: seq<real> := [];
    var i := 0;
    while i < |KeyOrder|
      invariant i <= |KeyOrder|
      invariant labels == PositiveKeys(KeyOrder[..i], categoryTotals)
      invariant |data| == |labels|
      invariant forall j :: 0 <= j < |data| ==> data[j] == categoryTotals[labels[j]]
    {
      var category := KeyOrder[i];
      var amount := categoryTotals[category];
      if amount > 0.0 {
        labels := labels + [category];
        data := data + [amount];
      }
      assert KeyOrder[..i + 1][..i] == KeyOrder[..i];
      i := i + 1;
    }
    assert KeyOrder[..i] == KeyOrder;
    assert data == seq(|labels|, j requires 0 <= j < |labels| => categoryTotals[labels[j]]);
    chart := PieChart(labels, [Dataset(data, Palette[..|labels|], 1)]);
  }

  /** `expenses.length > 0`: the pie chart is rendered at all. Hiding it
      loses nothing: with no expense the series has no slice. */
  function ChartShown(expenses: seq<Expense>): (shown: bool)
    ensures !shown ==> ChartOf(TotalsOf(expenses)).labels == []
  {
    if expenses == [] then
      KeyOrderRanks();
      PositiveKeysNone(KeyOrder, TotalsOf(expenses));
      false
    else
      true
  }

  // ---------------------------------------------------------------------
  // Properties of the totals record and the grand total
  // ---------------------------------------------------------------------

  /** Before any expense every entry is 0, and so is the grand total; the
      chart is not shown. */
  lemma EmptyList()
    ensures forall c: Category :: TotalsOf([])[c] == 0.0
    ensures TotalExpenses([]) == 0.0
    ensures !ChartShown([])
  {
  }

  /** Appending expense `e` raises the entry of its category by its amount
      and leaves the other seven entries unchanged. */
  lemma {:induction false} AppendExpense(expenses: seq<Expense>, e: Expense)
    ensures TotalsOf(expenses + [e])[e.category] == TotalsOf(expenses)[e.category] + e.amount
    ensures forall c: Category :: c != e.category ==> TotalsOf(expenses + [e])[c] == TotalsOf(expenses)[c]
    ensures TotalExpenses(expenses + [e]) == TotalExpenses(expenses) + e.amount
  {
    assert (expenses + [e])[..|expenses|] == expenses;
  }

  /** The same, as one update of the record. */
  lemma AppendExpenseRecord(expenses: seq<Expense>, e: Expense)
    ensures TotalsOf(expenses + [e]) == TotalsOf(expenses)[e.category := TotalsOf(expenses)[e.category] + e.amount]
  {
    var before, after := TotalsOf(expenses), TotalsOf(expenses + [e]);
    var updated := before[e.category := before[e.category] + e.amount];
    KeyOrderRanks();
    forall c: Category ensures after[c] == updated[c] {
      CategorySumAppend(expenses, e, c);
    }
    assert after.Keys == updated.Keys;
  }

  lemma CategorySumAppend(expenses: seq<Expense>, e: Expense, c: Category)
    ensures CategorySum(expenses + [e], c) == CategorySum(expenses, c) + (if e.category == c then e.amount else 0.0)
  {
    assert (expenses + [e])[..|expenses|] == expenses;
  }

  /** The eight entries of the totals record add up to the amounts reduced
      from left to right. */
  lemma {:induction false} TotalsAddUpToTotal(expenses: seq<Expense>)
    ensures TotalOver(KeyOrder, TotalsOf(expenses)) == Sum(expenses, Amount)
    decreases |expenses|
  {
    if expenses == [] {
      KeyOrderRanks();
      TotalOverZero(KeyOrder, TotalsOf(expenses));
    } else {
      var n := |expenses| - 1;
      var init, e := expenses[..n], expenses[n];
      assert expenses == init + [e];
      TotalsAddUpToTotal(init);
      TotalsAddUpStep(init, e);
    }
  }

  /** One appended expense raises the sum of the eight entries by its amount. */
  lemma TotalsAddUpStep(expenses: seq<Expense>, e: Expense)
    ensures TotalOver(KeyOrder, TotalsOf(expenses + [e])) == TotalOver(KeyOrder, TotalsOf(expenses)) + e.amount
  {
    KeyOrderIsEnumeration();
    AppendExpenseRecord(expenses, e);
    TotalOverBump(KeyOrder, TotalsOf(expenses), e.category, e.amount);
  }

  /** Reordering the expense list changes neither the totals nor the grand total. */
  lemma ReorderInvariant(xs: seq<Expense>, ys: seq<Expense>)
    requires multiset(xs) == multiset(ys)
    ensures TotalsOf(xs) == TotalsOf(ys)
    ensures TotalExpenses(xs) == TotalExpenses(ys)
  {
    forall c: Category ensures TotalsOf(xs)[c] == TotalsOf(ys)[c] {
      SumPermutation(xs, ys, Contribution(c));
    }
    SumPermutation(xs, ys, Amount);
  }

  /** A category no expense belongs to has entry 0 and gets no slice. */
  lemma NoExpenseNoSlice(expenses: seq<Expense>, c: Category)
    requires forall i :: 0 <= i < |expenses| ==> expenses[i].category != c
    ensures TotalsOf(expenses)[c] == 0.0
    ensures c !in ChartOf(TotalsOf(expenses)).labels
  {
    SumZero(expenses, Contribution(c));
    ChartLabelsArePositive(TotalsOf(expenses));
  }

  // ---------------------------------------------------------------------
  // Properties of the chart series
  // ---------------------------------------------------------------------

  /** Labels in KeyOrder: each later label has a later key. */
  ghost predicate InKeyOrder(labels: seq<Category>)
  {
    forall i, j :: 0 <= i < j < |labels| ==> Rank(labels[i]) < Rank(labels[j])
  }

  lemma {:induction false} PositiveKeysMembers(ks: seq<Category>, totals: map<Category, real>, c: Category)
    requires forall k: Category :: k in totals
    ensures c in PositiveKeys(ks, totals) <==> c in ks && totals[c] > 0.0
  {
    if ks != [] {
      var n := |ks| - 1;
      assert ks == ks[..n] + [ks[n]];
      PositiveKeysMembers(ks[..n], totals, c);
    }
  }

  lemma {:induction false} PositiveKeysOrdered(ks: seq<Category>, totals: map<Category, real>)
    requires forall k: Category :: k in totals
    requires InKeyOrder(ks)
    ensures InKeyOrder(PositiveKeys(ks, totals))
  {
    if ks != [] {
      var n := |ks| - 1;
      var init := ks[..n];
      assert InKeyOrder(init);
      PositiveKeysOrdered(init, totals);
      var p := PositiveKeys(init, totals);
      forall i | 0 <= i < |p| ensures Rank(p[i]) < Rank(ks[n]) {
        PositiveKeysMembers(init, totals, p[i]);
        var k :| 0 <= k < |init| && init[k] == p[i];
      }
    }
  }

  /** The labels are exactly the categories whose total is strictly
      positive, each once, in key order. */
  lemma ChartLabelsArePositive(totals: map<Category, real>)
    requires forall c: Category :: c in totals
    ensures forall c: Category :: c in ChartOf(totals).labels <==> totals[c] > 0.0
    ensures InKeyOrder(ChartOf(totals).labels)
  {
    KeyOrderRanks();
    forall c: Category ensures c in ChartOf(totals).labels <==> totals[c] > 0.0 {
      PositiveKeysMembers(KeyOrder, totals, c);
    }
    PositiveKeysOrdered(KeyOrder, totals);
  }

  /** Labels, data and colours line up: at most eight slices, slice `i`
      shows the total of `labels[i]`, and the colours are the first
      `|labels|` palette entries. */
  lemma ChartSeriesShape(totals: map<Category, real>)
    requires forall c: Category :: c in totals
    ensures var chart := ChartOf(totals);
      |chart.labels| <= 8 && |chart.datasets| == 1 &&
      |chart.datasets[0].data| == |chart.labels| &&
      (forall i :: 0 <= i < |chart.labels| ==> chart.datasets[0].data[i] == totals[chart.labels[i]]) &&
      chart.datasets[0].backgroundColor == Palette[..|chart.labels|]
  {
  }

  lemma {:induction false} PositiveKeysPositive(ks: seq<Category>, totals: map<Category, real>)
    requires forall k: Category :: k in totals
    ensures forall i :: 0 <= i < |PositiveKeys(ks, totals)| ==> totals[PositiveKeys(ks, totals)[i]] > 0.0
  {
    if ks != [] {
      PositiveKeysPositive(ks[..|ks| - 1], totals);
    }
  }

  lemma {:induction false} PositiveKeysAll(ks: seq<Category>, totals: map<Category, real>)
    requires forall k: Category :: k in totals && totals[k] > 0.0
    ensures PositiveKeys(ks, totals) == ks
  {
    if ks != [] {
      var n := |ks| - 1;
      PositiveKeysAll(ks[..n], totals);
      assert ks == ks[..n] + [ks[n]];
    }
  }

  lemma {:induction false} PositiveKeysNone(ks: seq<Category>, totals: map<Category, real>)
    requires forall k: Category :: k in totals && totals[k] <= 0.0
    ensures PositiveKeys(ks, totals) == []
  {
    if ks != [] {
      PositiveKeysNone(ks[..|ks| - 1], totals);
    }
  }

  /** Colours belong to slots, not to categories: when every total is
      positive, HOUSING and ENTERTAINMENT get the same colour. */
  lemma SharedColour(totals: map<Category, real>)
    requires forall c: Category :: c in totals && totals[c] > 0.0
    ensures ChartOf(totals).labels == KeyOrder
    ensures ChartOf(totals).datasets[0].backgroundColor[0] == ChartOf(totals).datasets[0].backgroundColor[6]
  {
    PositiveKeysAll(KeyOrder, totals);
  }

  /** A non-empty list shows the chart; when none of its category totals is
      positive (FOOD 5 and FOOD -5, say), that chart has no slices. */
  lemma ShownWithEmptySeries(expenses: seq<Expense>)
    requires expenses != []
    requires forall c: Category :: TotalsOf(expenses)[c] <= 0.0
    ensures ChartShown(expenses)
    ensures ChartOf(TotalsOf(expenses)).labels == []
  {
    PositiveKeysNone(KeyOrder, TotalsOf(expenses));
  }

  /** In particular a non-empty list whose amounts are all at most 0 shows a
      chart with no slices. */
  lemma NonPositiveAmountsEmptySeries(expenses: seq<Expense>)
    requires expenses != []
    requires forall i :: 0 <= i < |expenses| ==> expenses[i].amount <= 0.0
    ensures ChartShown(expenses)
    ensures ChartOf(TotalsOf(expenses)).labels == []
  {
    forall c: Category ensures TotalsOf(expenses)[c] <= 0.0 {
      SumNonPositive(expenses, Contribution(c));
    }
    ShownWithEmptySeries(expenses);
  }

  /** A record holding 100 for HOUSING, 75 for FOOD and 0 elsewhere yields
      the series HOUSING, FOOD, in the record's key order. */
  lemma ScenarioChart(totals: map<Category, real>)
    requires forall c: Category :: c in totals
    requires totals[HOUSING] == 100.0 && totals[FOOD] == 75.0
    requires forall c: Category :: c != FOOD && c != HOUSING ==> totals[c] == 0.0
    ensures ChartOf(totals).labels == [HOUSING, FOOD]
    ensures ChartOf(totals).datasets[0].data == [100.0, 75.0]
  {
    assert PositiveKeys(KeyOrder[..1], totals) == [HOUSING];
    assert KeyOrder[..2][..1] == KeyOrder[..1];
    assert PositiveKeys(KeyOrder[..2], totals) == [HOUSING, FOOD];
    assert KeyOrder[..3][..2] == KeyOrder[..2];
    assert PositiveKeys(KeyOrder[..3], totals) == [HOUSING, FOOD];
    assert KeyOrder[..4][..3] == KeyOrder[..3];
    assert PositiveKeys(KeyOrder[..4], totals) == [HOUSING, FOOD];
    assert KeyOrder[..5][..4] == KeyOrder[..4];
    assert PositiveKeys(KeyOrder[..5], totals) == [HOUSING, FOOD];
    assert KeyOrder[..6][..5] == KeyOrder[..5];
    assert PositiveKeys(KeyOrder[..6], totals) == [HOUSING, FOOD];
    assert KeyOrder[..7][..6] == KeyOrder[..6];
    assert PositiveKeys(KeyOrder[..7], totals) == [HOUSING, FOOD];
    assert KeyOrder[..8][..7] == KeyOrder[..7] && KeyOrder[..8] == KeyOrder;
  }

  /** Two FOOD expenses of 50 and 25 and one HOUSING expense of 100. */
  const ScenarioExpenses: seq<Expense> :=
    [Expense(1, "", "", FOOD, 50.0), Expense(2, "", "", FOOD, 25.0), Expense(3, "", "", HOUSING, 100.0)]

  /** For ScenarioExpenses, FOOD totals 75, HOUSING 100 and every other
      category 0; the grand total is 175. */
  lemma ScenarioTotals()
    ensures CategorySum(ScenarioExpenses, FOOD) == 75.0
    ensures CategorySum(ScenarioExpenses, HOUSING) == 100.0
    ensures forall c: Category :: c != FOOD && c != HOUSING ==> CategorySum(ScenarioExpenses, c) == 0.0
    ensures TotalExpenses(ScenarioExpenses) == 175.0
  {
    var expenses := ScenarioExpenses;
    var a, b, h := expenses[0], expenses[1], expenses[2];
    SumOfThree(a, b, h, Contribution(FOOD));
    SumOfThree(a, b, h, Contribution(HOUSING));
    SumOfThree(a, b, h, Amount);
    forall c: Category | c != FOOD && c != HOUSING ensures CategorySum(expenses, c) == 0.0 {
      SumZero(expenses, Contribution(c));
    }
  }

  /** The whole scenario: the record and the grand total above, and a series
      that lists HOUSING before FOOD. */
  lemma Scenario()
    ensures var totals := TotalsOf(ScenarioExpenses);
      totals[FOOD] == 75.0 && totals[HOUSING] == 100.0 &&
      (forall c: Category :: c != FOOD && c != HOUSING ==> totals[c] == 0.0) &&
      ChartOf(totals).labels == [HOUSING, FOOD] && ChartOf(totals).datasets[0].data == [100.0, 75.0]
  {
    ScenarioTotals();
    ScenarioChart(TotalsOf(ScenarioExpenses));
  }
}
