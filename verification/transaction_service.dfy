/** The transaction service: the dashboard summary of one user's
    transactions over a period, and tag attach/detach that report a missing
    transaction as an error. */
module TransactionService {
  import opened Wrappers
  import opened Seqs
  import opened Entities
  import opened BaseRepository
  import opened TransactionModel
  import opened TransactionRepository

  datatype Period = Period(startDate: Date, endDate: Date)

  /** The reporting period: the given dates when both are present, and
      otherwise the current month from its first to its last day, even in
      place of the one date that was given. */
  function ResolvePeriod(startDate: Option<Date>, endDate: Option<Date>, today: Date): (p: Period)
    requires ValidDate(today)
    ensures startDate.Some? && endDate.Some? ==> p == Period(startDate.value, endDate.value)
    ensures startDate.None? || endDate.None? ==>
              p.startDate == Date(today.year, today.month, 1)
              && p.endDate.year == today.year && p.endDate.month == today.month
              && ValidDate(p.startDate) && ValidDate(p.endDate)
              && !ValidDate(Date(today.year, today.month, p.endDate.day + 1))
              && DateLe(p.startDate, today) && DateLe(today, p.endDate)
  {
    if startDate.Some? && endDate.Some? then Period(startDate.value, endDate.value)
    else Period(Date(today.year, today.month, 1),
                Date(today.year, today.month, DaysInMonth(today.year, today.month)))
  }

  /** The sum of the amounts of some transactions. */
  function Total(rows: seq<Row<Transaction>>): Cents
    decreases |rows|
  {
    if |rows| == 0 then 0 else rows[0].data.amount + Total(rows[1..])
  }

  lemma {:induction false} TotalAppend(a: seq<Row<Transaction>>, b: seq<Row<Transaction>>)
    ensures Total(a + b) == Total(a) + Total(b)
    decreases |a|
  {
    if |a| == 0 {
      assert a + b == b;
    } else {
      assert (a + b)[1..] == a[1..] + b;
      TotalAppend(a[1..], b);
    }
  }

  /** The collection filter on `category->type`. */
  function TypeIs(categories: seq<Row<Category>>, categoryType: CategoryType): Row<Transaction> -> bool {
    (t: Row<Transaction>) => OfCategoryType(t.data, categories, categoryType)
  }

  /** Every transaction's category exists; reading the type of a missing
      category raises an error. */
  predicate CategoriesResolve(rows: seq<Row<Transaction>>, categories: seq<Row<Category>>) {
    forall i | 0 <= i < |rows| :: HasId(categories, rows[i].data.categoryId)
  }

  /** The income, expense and investment parts of transactions whose
      categories exist cover them exactly once: the counts and the amounts
      add up. */
  lemma {:induction false} PartitionByType(rows: seq<Row<Transaction>>, categories: seq<Row<Category>>)
    requires CategoriesResolve(rows, categories)
    ensures |Filter(rows, TypeIs(categories, Income))| + |Filter(rows, TypeIs(categories, Expense))|
            + |Filter(rows, TypeIs(categories, Investment))| == |rows|
    ensures Total(Filter(rows, TypeIs(categories, Income))) + Total(Filter(rows, TypeIs(categories, Expense)))
            + Total(Filter(rows, TypeIs(categories, Investment))) == Total(rows)
    decreases |rows|
  {
    if |rows| > 0 {
      PartitionByType(rows[1..], categories);
      OneCategoryType(rows[0].data, categories);
      var inc, exp, inv := TypeIs(categories, Income), TypeIs(categories, Expense), TypeIs(categories, Investment);
      TotalAppend(if inc(rows[0]) then [rows[0]] else [], Filter(rows[1..], inc));
      TotalAppend(if exp(rows[0]) then [rows[0]] else [], Filter(rows[1..], exp));
      TotalAppend(if inv(rows[0]) then [rows[0]] else [], Filter(rows[1..], inv));
    }
  }

  function InCategory(categoryId: Id): Row<Transaction> -> bool {
    (t: Row<Transaction>) => t.data.categoryId == categoryId
  }

  function CategoryIds(rows: seq<Row<Transaction>>): (ids: seq<Id>)
    ensures |ids| == |rows| && forall i :: 0 <= i < |rows| ==> ids[i] == rows[i].data.categoryId
  {
    seq(|rows|, i requires 0 <= i < |rows| => rows[i].data.categoryId)
  }

  /** The name of a category, read through the first transaction of its
      group. */
  function CategoryName(categories: seq<Row<Category>>, categoryId: Id): string {
    match Find(categories, categoryId)
    case Some(c) => c.data.name
    case None => ""
  }

  /** One element of `expenses_by_category`. */
  datatype ExpenseEntry = ExpenseEntry(category: string, amount: Cents, percentage: real)

  /** One entry per key, in key order: the category's name, the total of
      its transactions and a percentage of 0. */
  function GroupEntries(keys: seq<Id>, rows: seq<Row<Transaction>>, categories: seq<Row<Category>>)
    : (r: seq<ExpenseEntry>)
    ensures |r| == |keys|
    decreases |keys|
  {
    if |keys| == 0 then []
    else
      var last := keys[|keys| - 1];
      GroupEntries(keys[..|keys| - 1], rows, categories)
      + [ExpenseEntry(CategoryName(categories, last), Total(Filter(rows, InCategory(last))), 0.0)]
  }

  /** The entry of each key names its category, totals its transactions and
      starts with a percentage of 0. */
  lemma {:induction false} GroupEntriesAt(
    keys: seq<Id>, rows: seq<Row<Transaction>>, categories: seq<Row<Category>>, i: nat)
    requires i < |keys|
    ensures GroupEntries(keys, rows, categories)[i]
            == ExpenseEntry(CategoryName(categories, keys[i]), Total(Filter(rows, InCategory(keys[i]))), 0.0)
    decreases |keys|
  {
    if i < |keys| - 1 {
      GroupEntriesAt(keys[..|keys| - 1], rows, categories, i);
    }
  }

  /** `groupBy('category_id')->map(...)->values()`: one entry per distinct
      category id, in order of first occurrence. */
  function ExpensesByCategory(rows: seq<Row<Transaction>>, categories: seq<Row<Category>>): seq<ExpenseEntry> {
    GroupEntries(Unique(CategoryIds(rows)), rows, categories)
  }

  function SumAmounts(entries: seq<ExpenseEntry>): Cents
    decreases |entries|
  {
    if |entries| == 0 then 0 else SumAmounts(entries[..|entries| - 1]) + entries[|entries| - 1].amount
  }

  function SumPercentages(entries: seq<ExpenseEntry>): real
    decreases |entries|
  {
    if |entries| == 0 then 0.0 else SumPercentages(entries[..|entries| - 1]) + entries[|entries| - 1].percentage
  }

  lemma SumAmountsSnoc(entries: seq<ExpenseEntry>, e: ExpenseEntry)
    ensures SumAmounts(entries + [e]) == SumAmounts(entries) + e.amount
  {
    assert (entries + [e])[..|entries|] == entries;
  }

  /** Adding one transaction at the end adds its amount to the total of a
      filter that keeps it, and nothing to one that does not. */
  lemma TotalFilterSnoc(rows: seq<Row<Transaction>>, x: Row<Transaction>, p: Row<Transaction> -> bool)
    ensures Total(Filter(rows + [x], p)) == Total(Filter(rows, p)) + (if p(x) then x.data.amount else 0)
  {
    FilterAppend(rows, [x], p);
    assert [x][1..] == [];
    TotalAppend(Filter(rows, p), Filter([x], p));
  }

  /** Adding one transaction to the grouped rows adds its amount to the
      entry of its category, if that category is among the keys. */
  lemma {:induction false} GroupEntriesAddRow(
    keys: seq<Id>, rows: seq<Row<Transaction>>, x: Row<Transaction>, categories: seq<Row<Category>>)
    requires Distinct(keys)
    ensures SumAmounts(GroupEntries(keys, rows + [x], categories))
            == SumAmounts(GroupEntries(keys, rows, categories))
               + (if x.data.categoryId in keys then x.data.amount else 0)
    decreases |keys|
  {
    if |keys| > 0 {
      var n := |keys| - 1;
      var k, front := keys[n], keys[..n];
      var after := ExpenseEntry(CategoryName(categories, k), Total(Filter(rows + [x], InCategory(k))), 0.0);
      var before := ExpenseEntry(CategoryName(categories, k), Total(Filter(rows, InCategory(k))), 0.0);
      var id, amount := x.data.categoryId, x.data.amount;
      assert (id in keys) == (id in front || id == k) && (id == k ==> id !in front) by {
        assert keys == front + [k];
      }
      assert SumAmounts(GroupEntries(front, rows + [x], categories))
             == SumAmounts(GroupEntries(front, rows, categories)) + (if id in front then amount else 0) by {
        assert Distinct(front);
        GroupEntriesAddRow(front, rows, x, categories);
      }
      assert SumAmounts(GroupEntries(keys, rows + [x], categories))
             == SumAmounts(GroupEntries(front, rows + [x], categories)) + after.amount by {
        assert GroupEntries(keys, rows + [x], categories) == GroupEntries(front, rows + [x], categories) + [after];
        SumAmountsSnoc(GroupEntries(front, rows + [x], categories), after);
      }
      assert SumAmounts(GroupEntries(keys, rows, categories))
             == SumAmounts(GroupEntries(front, rows, categories)) + before.amount by {
        assert GroupEntries(keys, rows, categories) == GroupEntries(front, rows, categories) + [before];
        SumAmountsSnoc(GroupEntries(front, rows, categories), before);
      }
      assert after.amount == before.amount + (if id == k then amount else 0) by {
        TotalFilterSnoc(rows, x, InCategory(k));
      }
    }
  }

  lemma CategoryIdsSnoc(rows: seq<Row<Transaction>>, x: Row<Transaction>)
    ensures CategoryIds(rows + [x]) == CategoryIds(rows) + [x.data.categoryId]
  {
  }

  /** The entries of `expenses_by_category` account for every grouped
      amount exactly once: their amounts add up to the total. */
  lemma {:induction false} GroupTotals(rows: seq<Row<Transaction>>, categories: seq<Row<Category>>)
    ensures SumAmounts(ExpensesByCategory(rows, categories)) == Total(rows)
    decreases |rows|
  {
    if |rows| > 0 {
      var n := |rows| - 1;
      var pre, x := rows[..n], rows[n];
      assert rows == pre + [x];
      GroupTotals(pre, categories);
      GroupTotalsStep(pre, x, categories);
    }
  }

  lemma GroupTotalsStep(pre: seq<Row<Transaction>>, x: Row<Transaction>, categories: seq<Row<Category>>)
    requires SumAmounts(ExpensesByCategory(pre, categories)) == Total(pre)
    ensures SumAmounts(ExpensesByCategory(pre + [x], categories)) == Total(pre + [x])
  {
    var k := x.data.categoryId;
    var keysPre := Unique(CategoryIds(pre));
    assert Unique(CategoryIds(pre + [x])) == if k in keysPre then keysPre else keysPre + [k] by {
      CategoryIdsSnoc(pre, x);
      UniqueSnoc(CategoryIds(pre), k);
    }
    assert Total(pre + [x]) == Total(pre) + x.data.amount by {
      TotalAppend(pre, [x]);
      assert [x][1..] == [];
    }
    assert SumAmounts(GroupEntries(keysPre, pre + [x], categories))
           == Total(pre) + (if k in keysPre then x.data.amount else 0) by {
      GroupEntriesAddRow(keysPre, pre, x, categories);
    }
    if k !in keysPre {
      GroupTotalsNewKey(pre, x, categories);
    }
  }

  /** A transaction of a category not grouped yet opens a new group
      holding just its amount. */
  lemma GroupTotalsNewKey(pre: seq<Row<Transaction>>, x: Row<Transaction>, categories: seq<Row<Category>>)
    requires x.data.categoryId !in Unique(CategoryIds(pre))
    ensures var keysPre, k := Unique(CategoryIds(pre)), x.data.categoryId;
            SumAmounts(GroupEntries(keysPre + [k], pre + [x], categories))
            == SumAmounts(GroupEntries(keysPre, pre + [x], categories)) + x.data.amount
  {
    var rows, k, keysPre := pre + [x], x.data.categoryId, Unique(CategoryIds(pre));
    var keys := keysPre + [k];
    var e := ExpenseEntry(CategoryName(categories, k), Total(Filter(rows, InCategory(k))), 0.0);
    assert GroupEntries(keys, rows, categories) == GroupEntries(keysPre, rows, categories) + [e] by {
      assert keys[..|keys| - 1] == keysPre;
    }
    SumAmountsSnoc(GroupEntries(keysPre, rows, categories), e);
    NewKeyFilter(pre, x, k, keysPre);
  }

  lemma NewKeyFilter(pre: seq<Row<Transaction>>, x: Row<Transaction>, k: Id, keysPre: seq<Id>)
    requires keysPre == Unique(CategoryIds(pre)) && k !in keysPre && x.data.categoryId == k
    ensures Total(Filter(pre + [x], InCategory(k))) == x.data.amount
  {
    assert forall i :: 0 <= i < |pre| ==> !InCategory(k)(pre[i]) by {
      UniqueMembers(CategoryIds(pre));
      assert forall i :: 0 <= i < |pre| ==> CategoryIds(pre)[i] in keysPre;
    }
    FilterNone(pre, InCategory(k));
    TotalFilterSnoc(pre, x, InCategory(k));
  }

  /** `round(amount / total * 100, 2)`, unrounded. */
  function Percentage(amount: Cents, totalExpenses: Cents): real
    requires totalExpenses > 0
  {
    (amount as real) * 100.0 / (totalExpenses as real)
  }

  /** The entries after the percentage pass: rewritten only when the total
      is positive. */
  function WithPercentages(entries: seq<ExpenseEntry>, totalExpenses: Cents): (r: seq<ExpenseEntry>)
    ensures |r| == |entries|
  {
    if totalExpenses > 0 then
      seq(|entries|, i requires 0 <= i < |entries| =>
        entries[i].(percentage := Percentage(entries[i].amount, totalExpenses)))
    else entries
  }

  lemma {:induction false} SumPercentagesScaled(entries: seq<ExpenseEntry>, totalExpenses: Cents)
    requires totalExpenses > 0
    ensures SumPercentages(WithPercentages(entries, totalExpenses))
            == (SumAmounts(entries) as real) * 100.0 / (totalExpenses as real)
    decreases |entries|
  {
    if |entries| > 0 {
      var n := |entries| - 1;
      SumPercentagesScaled(entries[..n], totalExpenses);
      var w := WithPercentages(entries, totalExpenses);
      assert w[..n] == WithPercentages(entries[..n], totalExpenses);
      SharesAdd(SumAmounts(entries[..n]) as real, entries[n].amount as real, totalExpenses as real);
    }
  }

  /** Shares of one total add up like their amounts. */
  lemma SharesAdd(a: real, b: real, t: real)
    requires t > 0.0
    ensures a * 100.0 / t + b * 100.0 / t == (a + b) * 100.0 / t
  {
  }

  /** When the expenses are positive and the entries account for all of
      them, the percentages add up to 100. */
  lemma PercentagesSumTo100(entries: seq<ExpenseEntry>, totalExpenses: Cents)
    requires totalExpenses > 0 && SumAmounts(entries) == totalExpenses
    ensures SumPercentages(WithPercentages(entries, totalExpenses)) == 100.0
  {
    SumPercentagesScaled(entries, totalExpenses);
    var t := totalExpenses as real;
    assert t * 100.0 / t == 100.0;
  }

  /** `savings_rate`: the net cashflow as a percentage of the income, or 0
      when there is no positive income. */
  function SavingsRate(totalIncome: Cents, netCashflow: Cents): real {
    if totalIncome > 0 then (netCashflow as real) * 100.0 / (totalIncome as real) else 0.0
  }

  /** The `summary` array with its `period`, `summary`,
      `expenses_by_category` and `transaction_count` keys. */
  datatype Summary = Summary(
    period: Period,
    totalIncome: Cents,
    totalExpenses: Cents,
    totalInvestments: Cents,
    netCashflow: Cents,
    savingsRate: real,
    expensesByCategory: seq<ExpenseEntry>,
    transactionCount: nat)

  /** Reading the type of a transaction whose category is gone fails. */
  datatype SummaryError = MissingCategory

  /** The transactions a summary covers: the user's, inside the period. */
  function Window(transactions: seq<Row<Transaction>>, userId: Id, period: Period): seq<Row<Transaction>> {
    FindTransactionsBetweenDates(transactions, period.startDate, period.endDate, Some(userId))
  }

  /** The folds over a window: the totals, the savings rate and the
      expense groups, whose percentages are still 0. */
  function FoldWindow(period: Period, window: seq<Row<Transaction>>, categories: seq<Row<Category>>): Summary {
    var totalIncome := Total(Filter(window, TypeIs(categories, Income)));
    var expenses := Filter(window, TypeIs(categories, Expense));
    var totalExpenses := Total(expenses);
    var totalInvestments := Total(Filter(window, TypeIs(categories, Investment)));
    var netCashflow := totalIncome - totalExpenses - totalInvestments;
    Summary(period, totalIncome, totalExpenses, totalInvestments, netCashflow,
            SavingsRate(totalIncome, netCashflow), ExpensesByCategory(expenses, categories), |window|)
  }

  /** The summary of the transactions of a window. */
  function SummaryOf(period: Period, window: seq<Row<Transaction>>, categories: seq<Row<Category>>): Summary {
    var s := FoldWindow(period, window, categories);
    s.(expensesByCategory := WithPercentages(s.expensesByCategory, s.totalExpenses))
  }

  /** `getTransactionSummary`, as a function of the store and the current
      day: an error when a windowed transaction's category is missing. */
  function Summarize(
    transactions: seq<Row<Transaction>>, categories: seq<Row<Category>>, userId: Id,
    startDate: Option<Date>, endDate: Option<Date>, today: Date)
    : (r: Result<Summary, SummaryError>)
    requires ValidDate(today)
    ensures var period := ResolvePeriod(startDate, endDate, today);
            var w := Window(transactions, userId, period);
            (r.Ok? <==> CategoriesResolve(w, categories))
            && (r.Ok? ==> r.value == SummaryOf(period, w, categories))
  {
    var period := ResolvePeriod(startDate, endDate, today);
    var window := Window(transactions, userId, period);
    if CategoriesResolve(window, categories) then Ok(SummaryOf(period, window, categories))
    else Err(MissingCategory)
  }

  /** Every transaction of the window lands in exactly one of the three
      totals, so together they are the window's total; the net cashflow is
      what remains of the income; the count is the window's size. */
  lemma SummaryTotals(period: Period, window: seq<Row<Transaction>>, categories: seq<Row<Category>>)
    requires CategoriesResolve(window, categories)
    ensures var s := SummaryOf(period, window, categories);
            s.period == period && s.transactionCount == |window|
            && s.totalIncome + s.totalExpenses + s.totalInvestments == Total(window)
            && s.netCashflow == s.totalIncome - s.totalExpenses - s.totalInvestments
  {
    PartitionByType(window, categories);
  }

  /** `groupBy('category_id')` on the expenses: one entry per distinct
      category id, in first-occurrence order, each holding its category's
      name and total, and together holding all of the expenses. */
  lemma ExpenseGroups(expenses: seq<Row<Transaction>>, categories: seq<Row<Category>>)
    ensures var g := ExpensesByCategory(expenses, categories);
            var ids := CategoryIds(expenses);
            var keys := Unique(ids);
            |g| == |keys|
            && (forall i :: 0 <= i < |keys| ==>
                  g[i] == ExpenseEntry(CategoryName(categories, keys[i]), Total(Filter(expenses, InCategory(keys[i]))), 0.0))
            && (forall i, j :: 0 <= i < j < |keys| ==>
                  keys[i] != keys[j] && keys[i] in ids && keys[j] in ids
                  && FirstIndex(ids, keys[i]) < FirstIndex(ids, keys[j]))
            && (forall i :: 0 <= i < |expenses| ==> expenses[i].data.categoryId in keys)
            && SumAmounts(g) == Total(expenses)
  {
    var ids := CategoryIds(expenses);
    var keys := Unique(ids);
    forall i | 0 <= i < |keys|
      ensures ExpensesByCategory(expenses, categories)[i]
              == ExpenseEntry(CategoryName(categories, keys[i]), Total(Filter(expenses, InCategory(keys[i]))), 0.0)
    {
      GroupEntriesAt(keys, expenses, categories, i);
    }
    forall i, j | 0 <= i < j < |keys|
      ensures keys[i] in ids && keys[j] in ids && FirstIndex(ids, keys[i]) < FirstIndex(ids, keys[j])
    {
      UniqueFirstOccurrenceOrder(ids, i, j);
    }
    assert forall i :: 0 <= i < |expenses| ==> ids[i] in keys by {
      UniqueMembers(ids);
    }
    GroupTotals(expenses, categories);
  }

  lemma {:induction false} SumAmountsOfSameAmounts(a: seq<ExpenseEntry>, b: seq<ExpenseEntry>)
    requires |a| == |b| && forall i :: 0 <= i < |a| ==> a[i].amount == b[i].amount
    ensures SumAmounts(a) == SumAmounts(b)
    decreases |a|
  {
    if |a| > 0 {
      SumAmountsOfSameAmounts(a[..|a| - 1], b[..|b| - 1]);
    }
  }

  /** A share of a positive total, scaled back by that total. */
  lemma ShareTimesTotal(a: real, t: real)
    requires t > 0.0
    ensures (a * 100.0 / t) * t == a * 100.0
  {
  }

  /** The percentage pass only touches percentages: nothing at all when the
      total is not positive, and otherwise each entry gets its share of the
      total; when the entries account for the whole total, the shares add up
      to 100. */
  lemma PercentagePass(groups: seq<ExpenseEntry>, totalExpenses: Cents)
    ensures var w := WithPercentages(groups, totalExpenses);
            (forall i :: 0 <= i < |w| ==> w[i].category == groups[i].category && w[i].amount == groups[i].amount)
            && SumAmounts(w) == SumAmounts(groups)
            && (totalExpenses <= 0 ==> w == groups)
            && (totalExpenses > 0 ==>
                  forall i :: 0 <= i < |w| ==>
                    w[i].percentage * (totalExpenses as real) == (w[i].amount as real) * 100.0)
            && (totalExpenses > 0 && SumAmounts(groups) == totalExpenses ==> SumPercentages(w) == 100.0)
  {
    var w := WithPercentages(groups, totalExpenses);
    SumAmountsOfSameAmounts(w, groups);
    if totalExpenses > 0 {
      PercentageShares(groups, totalExpenses);
      if SumAmounts(groups) == totalExpenses {
        PercentagesSumTo100(groups, totalExpenses);
      }
    }
  }

  /** Each percentage, scaled back by the total, is its amount times 100. */
  lemma PercentageShares(groups: seq<ExpenseEntry>, totalExpenses: Cents)
    requires totalExpenses > 0
    ensures var w := WithPercentages(groups, totalExpenses);
            forall i :: 0 <= i < |w| ==> w[i].percentage * (totalExpenses as real) == (w[i].amount as real) * 100.0
  {
    var w := WithPercentages(groups, totalExpenses);
    forall i | 0 <= i < |w|
      ensures w[i].percentage * (totalExpenses as real) == (w[i].amount as real) * 100.0
    {
      ShareTimesTotal(groups[i].amount as real, totalExpenses as real);
    }
  }

  /** The entries of a summary: the expense groups with their percentages
      filled in, so their amounts add up to the total expenses, their
      percentages are 0 when there are no expenses and otherwise add up to
      100. */
  lemma SummaryExpenses(period: Period, window: seq<Row<Transaction>>, categories: seq<Row<Category>>)
    ensures var s := SummaryOf(period, window, categories);
            var groups := ExpensesByCategory(Filter(window, TypeIs(categories, Expense)), categories);
            s.expensesByCategory == WithPercentages(groups, s.totalExpenses)
            && SumAmounts(s.expensesByCategory) == s.totalExpenses
            && (s.totalExpenses <= 0 ==>
                  forall i :: 0 <= i < |s.expensesByCategory| ==> s.expensesByCategory[i].percentage == 0.0)
            && (s.totalExpenses > 0 ==> SumPercentages(s.expensesByCategory) == 100.0)
  {
    var expenses := Filter(window, TypeIs(categories, Expense));
    var groups := ExpensesByCategory(expenses, categories);
    ExpenseGroups(expenses, categories);
    PercentagePass(groups, Total(expenses));
  }

  /** The savings rate is 0 without positive income, and otherwise the net
      cashflow as a percentage of the income. */
  lemma SavingsRateMeaning(totalIncome: Cents, netCashflow: Cents)
    ensures totalIncome <= 0 ==> SavingsRate(totalIncome, netCashflow) == 0.0
    ensures totalIncome > 0 ==>
              SavingsRate(totalIncome, netCashflow) * (totalIncome as real) == (netCashflow as real) * 100.0
  {
    if totalIncome > 0 {
      var i, n := totalIncome as real, netCashflow as real;
      assert (n * 100.0 / i) * i == n * 100.0;
    }
  }

  /** The `foreach ($expensesByCategory as &$category)` pass: when the
      expenses are positive, each entry's percentage is rewritten in place,
      one entry at a time. */
  method FillPercentages(groups: seq<ExpenseEntry>, totalExpenses: Cents) returns (entries: seq<ExpenseEntry>)
    ensures entries == WithPercentages(groups, totalExpenses)
  {
    entries := groups;
    if totalExpenses > 0 {
      var i := 0;
      while i < |entries|
        invariant 0 <= i <= |entries| == |groups|
        invariant forall j :: 0 <= j < i ==>
                    entries[j] == groups[j].(percentage := Percentage(groups[j].amount, totalExpenses))
        invariant forall j :: i <= j < |entries| ==> entries[j] == groups[j]
      {
        entries := entries[i := entries[i].(percentage := Percentage(entries[i].amount, totalExpenses))];
        i := i + 1;
      }
    }
  }

  /** `getTransactionSummary`: the totals and groups are folds over the
      window, then the percentages are filled in. */
  method GetTransactionSummary(
    transactions: Repository<Transaction>, categories: Repository<Category>, userId: Id,
    startDate: Option<Date>, endDate: Option<Date>, today: Date)
    returns (r: Result<Summary, SummaryError>)
    requires ValidDate(today)
    ensures r == Summarize(transactions.rows, categories.rows, userId, startDate, endDate, today)
  {
    var period := ResolvePeriod(startDate, endDate, today);
    var window := Window(transactions.rows, userId, period);
    if !CategoriesResolve(window, categories.rows) {
      return Err(MissingCategory);
    }
    var s := FoldWindow(period, window, categories.rows);
    var entries := FillPercentages(s.expensesByCategory, s.totalExpenses);
    r := Ok(s.(expensesByCategory := entries));
  }

  /** The store of the service's summary test, in cents: an income, an
      expense and an investment category; income 1000, expenses 300 and 200
      in the one expense category, investment 100, all in January 2025. */
  const ScenarioCategories: seq<Row<Category>> :=
    [Row(1, Category("Salary", Income, None, false, None)),
     Row(2, Category("Food", Expense, None, false, None)),
     Row(3, Category("Stocks", Investment, None, false, None))]

  const ScenarioTransactions: seq<Row<Transaction>> :=
    [Row(1, Transaction(100000, Date(2025, 1, 10), None, "cash", None, false, None, 7, 1)),
     Row(2, Transaction(30000, Date(2025, 1, 15), None, "cash", None, false, None, 7, 2)),
     Row(3, Transaction(20000, Date(2025, 1, 20), None, "cash", None, false, None, 7, 2)),
     Row(4, Transaction(10000, Date(2025, 1, 25), None, "cash", None, false, None, 7, 3))]

  lemma ScenarioTypes()
    ensures CategoryTypeOf(ScenarioCategories, ScenarioTransactions[0].data) == Some(Income)
    ensures CategoryTypeOf(ScenarioCategories, ScenarioTransactions[1].data) == Some(Expense)
    ensures CategoryTypeOf(ScenarioCategories, ScenarioTransactions[2].data) == Some(Expense)
    ensures CategoryTypeOf(ScenarioCategories, ScenarioTransactions[3].data) == Some(Investment)
  {
    var c := ScenarioCategories;
    assert c[1..][1..] == [c[2]];
    assert Find(c, 1) == Some(c[0]);
    assert Find(c, 2) == Some(c[1]);
    assert Find(c, 3) == Some(c[2]);
  }

  /** Filtering four transactions of an income, two expense and an
      investment category by category type. */
  lemma FilterFourByType(t: seq<Row<Transaction>>, c: seq<Row<Category>>, ty: CategoryType)
    requires |t| == 4
    requires CategoryTypeOf(c, t[0].data) == Some(Income) && CategoryTypeOf(c, t[1].data) == Some(Expense)
    requires CategoryTypeOf(c, t[2].data) == Some(Expense) && CategoryTypeOf(c, t[3].data) == Some(Investment)
    ensures Filter(t, TypeIs(c, ty))
            == match ty
               case Income => [t[0]]
               case Expense => t[1..3]
               case Investment => [t[3]]
  {
    var p := TypeIs(c, ty);
    assert t[1..][1..] == t[2..] && t[2..][1..] == t[3..] && t[3..][1..] == [];
    assert Filter(t[3..], p) == if ty == Investment then [t[3]] else [];
    assert Filter(t[2..], p) == (if ty == Expense then [t[2]] else []) + Filter(t[3..], p);
    assert Filter(t[1..], p) == (if ty == Expense then [t[1]] else []) + Filter(t[2..], p);
    assert t[1..3] == [t[1], t[2]];
  }

  /** The total of two transactions. */
  lemma TotalOfTwo(rows: seq<Row<Transaction>>)
    requires |rows| == 2
    ensures Total(rows) == rows[0].data.amount + rows[1].data.amount
  {
    assert rows[1..][1..] == [];
    assert Total(rows[1..]) == rows[1].data.amount + Total(rows[1..][1..]);
  }

  /** Two transactions of the same category form a single group. */
  lemma OneGroup(rows: seq<Row<Transaction>>)
    requires |rows| == 2 && rows[0].data.categoryId == rows[1].data.categoryId
    ensures |Unique(CategoryIds(rows))| == 1
  {
    var ids := CategoryIds(rows);
    var one := ids[..1];
    assert one[..0] == [] && ids[..|ids| - 1] == one;
    assert Unique(one) == [ids[0]];
  }

  /** Four transactions whose categories all have a type all resolve. */
  lemma ResolvesFour(t: seq<Row<Transaction>>, c: seq<Row<Category>>)
    requires |t| == 4
    requires CategoryTypeOf(c, t[0].data).Some? && CategoryTypeOf(c, t[1].data).Some?
    requires CategoryTypeOf(c, t[2].data).Some? && CategoryTypeOf(c, t[3].data).Some?
    ensures CategoriesResolve(t, c)
  {
    forall i | 0 <= i < |t| ensures HasId(c, t[i].data.categoryId) {
      assert CategoryTypeOf(c, t[i].data).Some?;
    }
  }

  /** Filtering the scenario's transactions by category type. */
  lemma ScenarioFilter(ty: CategoryType)
    ensures Filter(ScenarioTransactions, TypeIs(ScenarioCategories, ty))
            == match ty
               case Income => [ScenarioTransactions[0]]
               case Expense => ScenarioTransactions[1..3]
               case Investment => [ScenarioTransactions[3]]
  {
    ScenarioTypes();
    FilterFourByType(ScenarioTransactions, ScenarioCategories, ty);
  }

  /** The scenario's totals per category type. */
  lemma ScenarioIncome()
    ensures Total(Filter(ScenarioTransactions, TypeIs(ScenarioCategories, Income))) == 100000
  {
    var t := ScenarioTransactions;
    ScenarioFilter(Income);
    assert [t[0]][1..] == [];
  }

  lemma ScenarioInvestments()
    ensures Total(Filter(ScenarioTransactions, TypeIs(ScenarioCategories, Investment))) == 10000
  {
    var t := ScenarioTransactions;
    ScenarioFilter(Investment);
    assert [t[3]][1..] == [];
  }

  lemma ScenarioExpenses()
    ensures Total(Filter(ScenarioTransactions, TypeIs(ScenarioCategories, Expense))) == 50000
  {
    var t := ScenarioTransactions;
    ScenarioFilter(Expense);
    TotalOfTwo(t[1..3]);
  }

  /** The scenario's expenses form a single group. */
  lemma ScenarioGroups()
    ensures |ExpensesByCategory(Filter(ScenarioTransactions, TypeIs(ScenarioCategories, Expense)), ScenarioCategories)| == 1
  {
    ScenarioFilter(Expense);
    OneGroup(ScenarioTransactions[1..3]);
  }

  /** The folds over the scenario's January 2025 window. */
  lemma ScenarioFold()
    ensures var f := FoldWindow(Period(Date(2025, 1, 1), Date(2025, 1, 31)), ScenarioTransactions, ScenarioCategories);
            f.totalIncome == 100000 && f.totalExpenses == 50000
            && f.totalInvestments == 10000 && |f.expensesByCategory| == 1
  {
    ScenarioIncome();
    ScenarioInvestments();
    ScenarioExpenses();
    ScenarioGroups();
  }

  /** The scenario's summary: income 1000, expenses 500, investments 100,
      net cashflow 400, savings rate 40, four transactions and one expense
      group. */
  lemma SummaryScenario()
    ensures var s := SummaryOf(Period(Date(2025, 1, 1), Date(2025, 1, 31)), ScenarioTransactions, ScenarioCategories);
            s.totalIncome == 100000 && s.totalExpenses == 50000
            && s.totalInvestments == 10000 && s.netCashflow == 40000
            && s.savingsRate == 40.0 && s.transactionCount == 4
            && |s.expensesByCategory| == 1
  {
    ScenarioFold();
    assert SavingsRate(100000, 40000) == 40.0;
  }

  /** The scenario's window for January 2025 is the whole table: every
      transaction is the user's and falls in the period. */
  lemma ScenarioWindow(today: Date)
    requires ValidDate(today)
    ensures Window(ScenarioTransactions, 7, ResolvePeriod(Some(Date(2025, 1, 1)), Some(Date(2025, 1, 31)), today))
            == ScenarioTransactions
  {
    var t := ScenarioTransactions;
    var start, end := Date(2025, 1, 1), Date(2025, 1, 31);
    FilterAll(t, (x: Row<Transaction>) => BetweenDates(x.data, start, end));
    FilterAll(t, (x: Row<Transaction>) => ForUser(x.data, 7));
  }

  /** Every transaction of the scenario has its category. */
  lemma ScenarioResolves()
    ensures CategoriesResolve(ScenarioTransactions, ScenarioCategories)
  {
    ScenarioTypes();
    ResolvesFour(ScenarioTransactions, ScenarioCategories);
  }

  /** With every category present, the scenario's summary call succeeds
      with the summary above. */
  lemma ScenarioSummarize(today: Date)
    requires ValidDate(today)
    ensures Summarize(ScenarioTransactions, ScenarioCategories, 7, Some(Date(2025, 1, 1)), Some(Date(2025, 1, 31)), today)
            == Ok(SummaryOf(Period(Date(2025, 1, 1), Date(2025, 1, 31)), ScenarioTransactions, ScenarioCategories))
  {
    var period := Period(Date(2025, 1, 1), Date(2025, 1, 31));
    assert ResolvePeriod(Some(period.startDate), Some(period.endDate), today) == period;
    ScenarioWindow(today);
    ScenarioResolves();
  }

  datatype ServiceError = TransactionNotFound(transactionId: Id)

  /** `addTagsToTransaction`: not-found for a missing transaction, otherwise
      one pivot row per listed tag and true. */
  method AddTagsToTransaction(
    transactions: Repository<Transaction>, pivot: TagTransactionPivot, transactionId: Id, tagIds: seq<Id>)
    returns (r: Result<bool, ServiceError>)
    modifies pivot
    ensures r.Err? <==> !HasId(transactions.rows, transactionId)
    ensures r.Err? ==> r.error == TransactionNotFound(transactionId) && pivot.links == old(pivot.links)
    ensures r.Ok? ==> r.value && pivot.links == old(pivot.links) + LinksFor(transactionId, tagIds)
  {
    if Find(transactions.rows, transactionId).None? {
      return Err(TransactionNotFound(transactionId));
    }
    pivot.Attach(transactionId, tagIds);
    r := Ok(true);
  }

  /** `removeTagsFromTransaction`: not-found for a missing transaction,
      otherwise the listed tags (all of them for null) are detached and the
      result is true. */
  method RemoveTagsFromTransaction(
    transactions: Repository<Transaction>, pivot: TagTransactionPivot, transactionId: Id, tagIds: Option<seq<Id>>)
    returns (r: Result<bool, ServiceError>)
    modifies pivot
    ensures r.Err? <==> !HasId(transactions.rows, transactionId)
    ensures r.Err? ==> r.error == TransactionNotFound(transactionId) && pivot.links == old(pivot.links)
    ensures r.Ok? ==> r.value && pivot.links == Detached(old(pivot.links), transactionId, tagIds)
  {
    if Find(transactions.rows, transactionId).None? {
      return Err(TransactionNotFound(transactionId));
    }
    pivot.Detach(transactionId, tagIds);
    r := Ok(true);
  }
}
