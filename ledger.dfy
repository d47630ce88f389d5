/**
 * The transaction records of the dashboard and the computations over a
 * transaction list: the per-type summary, the date filter, the removal by
 * id, the expense totals per category and the twelve monthly buckets.
 */
module Ledger {

  datatype TxnType = Income | Expense | Savings

  /** A month index as `Date.getMonth` returns it (0 = January). */
  type Month = m: int | 0 <= m < 12

  /** A calendar instant; instants compare by year, month, day, then time of day. */
  datatype Date = Date(year: int, month: Month, day: int, millis: int)

  /** `a >= b` on dates. */
  predicate NotBefore(a: Date, b: Date)
  {
    || a.year > b.year
    || (a.year == b.year && a.month > b.month)
    || (a.year == b.year && a.month == b.month && a.day > b.day)
    || (a.year == b.year && a.month == b.month && a.day == b.day && a.millis >= b.millis)
  }

  datatype Transaction = Transaction(
    id: string, date: Date, description: string, amount: real, category: string, kind: TxnType)

  // ---------------------------------------------------------------------
  // Sums of amounts over a selection of transactions
  // ---------------------------------------------------------------------

  /** Which transactions a total counts. */
  datatype Selector =
    | All
    | OfType(kind: TxnType)
    | ExpenseIn(category: string)
    | InYear(year: int, kind: TxnType)
    | InMonth(year: int, month: Month, kind: TxnType)

  predicate Selects(sel: Selector, t: Transaction)
  {
    match sel
    case All => true
    case OfType(k) => t.kind == k
    case ExpenseIn(c) => t.kind == Expense && t.category == c
    case InYear(y, k) => t.kind == k && t.date.year == y
    case InMonth(y, m, k) => t.kind == k && t.date.year == y && t.date.month == m
  }

  /** What one transaction adds to a total. */
  function Share(sel: Selector, t: Transaction): real
  {
    if Selects(sel, t) then t.amount else 0.0
  }

  /** The sum of the amounts of the selected transactions. */
  function Total(txns: seq<Transaction>, sel: Selector): real
  {
    if txns == [] then 0.0 else Share(sel, txns[0]) + Total(txns[1..], sel)
  }

  lemma {:induction false} TotalConcat(xs: seq<Transaction>, ys: seq<Transaction>, sel: Selector)
    ensures Total(xs + ys, sel) == Total(xs, sel) + Total(ys, sel)
  {
    if xs == [] {
      assert xs + ys == ys;
    } else {
      assert (xs + ys)[1..] == xs[1..] + ys;
      TotalConcat(xs[1..], ys, sel);
    }
  }

  /** A transaction appended to a list adds exactly its own share to a total. */
  lemma TotalAppend(xs: seq<Transaction>, t: Transaction, sel: Selector)
    ensures Total(xs + [t], sel) == Total(xs, sel) + Share(sel, t)
  {
    TotalConcat(xs, [t], sel);
  }

  /** Every transaction falls in exactly one of the three type totals. */
  lemma {:induction false} TypeTotalsPartition(txns: seq<Transaction>)
    ensures Total(txns, OfType(Income)) + Total(txns, OfType(Expense)) + Total(txns, OfType(Savings))
            == Total(txns, All)
  {
    if txns != [] {
      TypeTotalsPartition(txns[1..]);
    }
  }

  // ---------------------------------------------------------------------
  // The summary cards (calculateSummary)
  // ---------------------------------------------------------------------

  datatype Summary = Summary(income: real, expenses: real, savings: real, balance: real)

  /** The summary the dashboard shows for a list. */
  function Summarize(txns: seq<Transaction>): (s: Summary)
    ensures s.balance == s.income - s.expenses - s.savings
  {
    var income := Total(txns, OfType(Income));
    var expenses := Total(txns, OfType(Expense));
    var savings := Total(txns, OfType(Savings));
    Summary(income, expenses, savings, income - expenses - savings)
  }

  /** A summary with one more transaction added to the bucket of its type. */
  function Credit(s: Summary, t: Transaction): (r: Summary)
    ensures r.balance == r.income - r.expenses - r.savings
  {
    var income := s.income + (if t.kind == Income then t.amount else 0.0);
    var expenses := s.expenses + (if t.kind == Expense then t.amount else 0.0);
    var savings := s.savings + (if t.kind == Savings then t.amount else 0.0);
    Summary(income, expenses, savings, income - expenses - savings)
  }

  /** The summary of a list with t appended is the old summary credited with t. */
  lemma SummarizeAppend(txns: seq<Transaction>, t: Transaction)
    ensures Summarize(txns + [t]) == Credit(Summarize(txns), t)
  {
    TotalAppend(txns, t, OfType(Income));
    TotalAppend(txns, t, OfType(Expense));
    TotalAppend(txns, t, OfType(Savings));
  }

  /** `calculateSummary`: the reduce over the list, then the balance. */
  method CalculateSummary(txns: seq<Transaction>) returns (summary: Summary)
    ensures summary == Summarize(txns)
    ensures summary.balance == summary.income - summary.expenses - summary.savings
  {
    var income, expenses, savings := 0.0, 0.0, 0.0;
    for i := 0 to |txns|
      invariant income == Total(txns[..i], OfType(Income))
      invariant expenses == Total(txns[..i], OfType(Expense))
      invariant savings == Total(txns[..i], OfType(Savings))
    {
      var txn := txns[i];
      assert txns[..i + 1] == txns[..i] + [txn];
      SummarizeAppend(txns[..i], txn);
      if txn.kind == Income {
        income := income + txn.amount;
      } else if txn.kind == Expense {
        expenses := expenses + txn.amount;
      } else if txn.kind == Savings {
        savings := savings + txn.amount;
      }
    }
    assert txns[..|txns|] == txns;
    summary := Summary(income, expenses, savings, income - expenses - savings);
  }

  // ---------------------------------------------------------------------
  // Filters: removal by id and the date-range filter
  // ---------------------------------------------------------------------

  /** The condition a filter keeps transactions by. */
  datatype Keep = IdOtherThan(id: string) | DatedFrom(start: Date)

  predicate Keeps(k: Keep, t: Transaction)
  {
    match k
    case IdOtherThan(id) => t.id != id
    case DatedFrom(start) => NotBefore(t.date, start)
  }

  /** `txns.filter(...)`. */
  function Filter(txns: seq<Transaction>, k: Keep): (r: seq<Transaction>)
    ensures |r| <= |txns|
    ensures forall t :: t in r ==> t in txns && Keeps(k, t)
  {
    if txns == [] then []
    else (if Keeps(k, txns[0]) then [txns[0]] else []) + Filter(txns[1..], k)
  }

  /** Filtering distributes over concatenation, so it keeps the original order. */
  lemma {:induction false} FilterConcat(xs: seq<Transaction>, ys: seq<Transaction>, k: Keep)
    ensures Filter(xs + ys, k) == Filter(xs, k) + Filter(ys, k)
  {
    if xs == [] {
      assert xs + ys == ys;
    } else {
      assert (xs + ys)[1..] == xs[1..] + ys;
      FilterConcat(xs[1..], ys, k);
    }
  }

  /** Exactly the kept transactions of the list are in the result. */
  lemma {:induction false} FilterMembers(txns: seq<Transaction>, k: Keep, t: Transaction)
    ensures t in Filter(txns, k) <==> t in txns && Keeps(k, t)
  {
    if txns != [] {
      FilterMembers(txns[1..], k, t);
      assert txns == [txns[0]] + txns[1..];
    }
  }

  /** b is obtained from a by deleting elements: an order-preserving subsequence. */
  predicate SubsequenceOf(b: seq<Transaction>, a: seq<Transaction>)
    decreases |a|
  {
    if b == [] then true
    else if a == [] then false
    else (a[0] == b[0] && SubsequenceOf(b[1..], a[1..])) || SubsequenceOf(b, a[1..])
  }

  lemma {:induction false} FilterSubsequence(txns: seq<Transaction>, k: Keep)
    ensures SubsequenceOf(Filter(txns, k), txns)
  {
    if txns != [] {
      FilterSubsequence(txns[1..], k);
      var rest := Filter(txns[1..], k);
      if Keeps(k, txns[0]) {
        assert Filter(txns, k) == [txns[0]] + rest;
        assert Filter(txns, k)[1..] == rest;
      } else {
        assert Filter(txns, k) == rest;
      }
    }
  }

  /** A list all of whose elements are kept is left unchanged. */
  lemma {:induction false} FilterKeepsAll(txns: seq<Transaction>, k: Keep)
    requires forall t :: t in txns ==> Keeps(k, t)
    ensures Filter(txns, k) == txns
  {
    if txns != [] {
      FilterKeepsAll(txns[1..], k);
      assert txns == [txns[0]] + txns[1..];
    }
  }

  /** Filtering twice by the same condition is filtering once. */
  lemma FilterIdempotent(txns: seq<Transaction>, k: Keep)
    ensures Filter(Filter(txns, k), k) == Filter(txns, k)
  {
    FilterKeepsAll(Filter(txns, k), k);
  }

  /** `getFilteredTransactions`, for the start date the selected range gives. */
  function FilteredTransactions(txns: seq<Transaction>, start: Date): (r: seq<Transaction>)
    ensures |r| <= |txns|
    ensures forall t :: t in r ==> t in txns && NotBefore(t.date, start)
  {
    Filter(txns, DatedFrom(start))
  }

  /** The range filter keeps, in order, exactly the transactions dated on or after the start. */
  lemma FilteredTransactionsExactly(txns: seq<Transaction>, start: Date, t: Transaction)
    ensures t in FilteredTransactions(txns, start) <==> t in txns && NotBefore(t.date, start)
    ensures SubsequenceOf(FilteredTransactions(txns, start), txns)
  {
    FilterMembers(txns, DatedFrom(start), t);
    FilterSubsequence(txns, DatedFrom(start));
  }

  // ---------------------------------------------------------------------
  // Expense totals per category (getExpenseCategoryData)
  // ---------------------------------------------------------------------

  /** The categories of the expense transactions of a list. */
  function ExpenseCategories(txns: seq<Transaction>): set<string>
  {
    set t | t in txns && t.kind == Expense :: t.category
  }

  predicate Distinct(labels: seq<string>)
  {
    forall i, j :: 0 <= i < j < |labels| ==> labels[i] != labels[j]
  }

  /** The sum of the values a map holds for the given labels. */
  function SumOver(labels: seq<string>, m: map<string, real>): real
  {
    if labels == [] then 0.0
    else (if labels[0] in m then m[labels[0]] else 0.0) + SumOver(labels[1..], m)
  }

  function Sum(xs: seq<real>): real
  {
    if xs == [] then 0.0 else xs[0] + Sum(xs[1..])
  }

  lemma {:induction false} SumOverAppend(labels: seq<string>, c: string, m: map<string, real>)
    ensures SumOver(labels + [c], m) == SumOver(labels, m) + (if c in m then m[c] else 0.0)
  {
    if labels != [] {
      assert (labels + [c])[1..] == labels[1..] + [c];
      SumOverAppend(labels[1..], c, m);
    }
  }

  lemma {:induction false} SumOverUnlisted(labels: seq<string>, m: map<string, real>, c: string, v: real)
    requires c !in labels
    ensures SumOver(labels, m[c := v]) == SumOver(labels, m)
  {
    if labels != [] {
      SumOverUnlisted(labels[1..], m, c, v);
    }
  }

  lemma {:induction false} SumOverUpdate(labels: seq<string>, m: map<string, real>, c: string, v: real)
    requires Distinct(labels) && c in labels && c in m
    ensures SumOver(labels, m[c := v]) == SumOver(labels, m) - m[c] + v
  {
    assert labels != [];
    if labels[0] == c {
      assert c !in labels[1..];
      SumOverUnlisted(labels[1..], m, c, v);
    } else {
      SumOverUpdate(labels[1..], m, c, v);
    }
  }

  lemma {:induction false} SumOfLookups(labels: seq<string>, m: map<string, real>, data: seq<real>)
    requires forall c :: c in labels ==> c in m
    requires |data| == |labels| && forall j :: 0 <= j < |labels| ==> data[j] == m[labels[j]]
    ensures Sum(data) == SumOver(labels, m)
  {
    if labels != [] {
      SumOfLookups(labels[1..], m, data[1..]);
    }
  }

  /** What the pie chart shows: category labels in first-seen order and their totals. */
  datatype CategoryChart = CategoryChart(labels: seq<string>, data: seq<real>)

  /** The invariant of the category loop after the transactions in seen. */
  ghost predicate CategoryInvariant(seen: seq<Transaction>, labels: seq<string>, totals: map<string, real>)
  {
    && Distinct(labels)
    && (forall c :: c in totals <==> c in labels)
    && (forall c :: c in labels <==> c in ExpenseCategories(seen))
    && (forall c :: c in totals ==> totals[c] == Total(seen, ExpenseIn(c)))
    && SumOver(labels, totals) == Total(seen, OfType(Expense))
  }

  /** A category without expenses totals zero. */
  lemma {:induction false} TotalOfUnseenCategory(txns: seq<Transaction>, c: string)
    requires c !in ExpenseCategories(txns)
    ensures Total(txns, ExpenseIn(c)) == 0.0
  {
    if txns != [] {
      assert ExpenseCategories(txns[1..]) <= ExpenseCategories(txns);
      TotalOfUnseenCategory(txns[1..], c);
    }
  }

  /** Appending t adds t's share to every category total. */
  lemma CategoryTotalsAppend(seen: seq<Transaction>, t: Transaction)
    ensures forall c :: Total(seen + [t], ExpenseIn(c)) == Total(seen, ExpenseIn(c)) + Share(ExpenseIn(c), t)
    ensures Total(seen + [t], OfType(Expense)) == Total(seen, OfType(Expense)) + Share(OfType(Expense), t)
    ensures ExpenseCategories(seen + [t]) == ExpenseCategories(seen) + (if t.kind == Expense then {t.category} else {})
  {
    forall c { TotalAppend(seen, t, ExpenseIn(c)); }
    TotalAppend(seen, t, OfType(Expense));
  }

  /** A step over a transaction that is not an expense keeps the invariant as it is. */
  lemma CategoryStepOther(seen: seq<Transaction>, t: Transaction, labels: seq<string>, totals: map<string, real>)
    requires CategoryInvariant(seen, labels, totals) && t.kind != Expense
    ensures CategoryInvariant(seen + [t], labels, totals)
  {
    CategoryTotalsAppend(seen, t);
  }

  /** An expense in a category already seen adds its amount to that category. */
  lemma CategoryStepKnown(seen: seq<Transaction>, t: Transaction, labels: seq<string>, totals: map<string, real>)
    requires CategoryInvariant(seen, labels, totals) && t.kind == Expense && t.category in totals
    ensures CategoryInvariant(seen + [t], labels, totals[t.category := totals[t.category] + t.amount])
  {
    var totals' := totals[t.category := totals[t.category] + t.amount];
    CategoryTotalsAppend(seen, t);
    assert ExpenseCategories(seen + [t]) == ExpenseCategories(seen);
    assert forall c :: c in totals' ==> totals'[c] == Total(seen + [t], ExpenseIn(c)) by {
      forall c | c in totals'
        ensures totals'[c] == Total(seen + [t], ExpenseIn(c))
      {
        assert Total(seen + [t], ExpenseIn(c)) == Total(seen, ExpenseIn(c)) + Share(ExpenseIn(c), t);
      }
    }
    assert totals'.Keys == totals.Keys;
    assert forall c :: c in totals' <==> c in labels;
    assert forall c :: c in labels <==> c in ExpenseCategories(seen + [t]);
    KnownSum(seen, t, labels, totals);
    CategoryInvariantIntro(seen + [t], labels, totals');
  }

  /** The expense total and the sum of the category totals grow alike. */
  lemma KnownSum(seen: seq<Transaction>, t: Transaction, labels: seq<string>, totals: map<string, real>)
    requires Distinct(labels) && t.kind == Expense && t.category in labels && t.category in totals
    requires SumOver(labels, totals) == Total(seen, OfType(Expense))
    ensures SumOver(labels, totals[t.category := totals[t.category] + t.amount]) == Total(seen + [t], OfType(Expense))
  {
    SumAfterUpdate(labels, totals, t.category, t.amount, Total(seen, OfType(Expense)));
    TotalAppend(seen, t, OfType(Expense));
  }

  lemma CategoryInvariantIntro(seen: seq<Transaction>, labels: seq<string>, totals: map<string, real>)
    requires Distinct(labels)
    requires forall c :: c in totals <==> c in labels
    requires forall c :: c in labels <==> c in ExpenseCategories(seen)
    requires forall c :: c in totals ==> totals[c] == Total(seen, ExpenseIn(c))
    requires SumOver(labels, totals) == Total(seen, OfType(Expense))
    ensures CategoryInvariant(seen, labels, totals)
  {
  }

  /** Adding to one listed total adds the same to the sum of the totals. */
  lemma SumAfterUpdate(labels: seq<string>, totals: map<string, real>, c: string, amount: real, sum: real)
    requires Distinct(labels) && c in labels && c in totals && SumOver(labels, totals) == sum
    ensures SumOver(labels, totals[c := totals[c] + amount]) == sum + amount
  {
    SumOverUpdate(labels, totals, c, totals[c] + amount);
  }

  /** An expense in a new category appends the label with the amount as its total. */
  lemma CategoryStepNew(seen: seq<Transaction>, t: Transaction, labels: seq<string>, totals: map<string, real>)
    requires CategoryInvariant(seen, labels, totals) && t.kind == Expense && t.category !in totals
    ensures CategoryInvariant(seen + [t], labels + [t.category], totals[t.category := t.amount])
  {
    CategoryTotalsAppend(seen, t);
    TotalOfUnseenCategory(seen, t.category);
    SumOverAppend(labels, t.category, totals[t.category := t.amount]);
    SumOverUnlisted(labels, totals, t.category, t.amount);
  }

  /** The labels and totals after one more transaction, case by case as the callback does it. */
  function TallyStep(labels: seq<string>, totals: map<string, real>, t: Transaction): (seq<string>, map<string, real>)
  {
    if t.kind != Expense then (labels, totals)
    else if t.category in totals then (labels, totals[t.category := totals[t.category] + t.amount])
    else (labels + [t.category], totals[t.category := t.amount])
  }

  /** The labels and totals after the callback has seen every transaction of the list, in order. */
  function TallyAll(txns: seq<Transaction>): (seq<string>, map<string, real>)
  {
    if txns == [] then ([], map[])
    else var prev := TallyAll(txns[..|txns| - 1]); TallyStep(prev.0, prev.1, txns[|txns| - 1])
  }

  /** The tally of any list satisfies the category invariant. */
  lemma {:induction false} TallyAllInvariant(txns: seq<Transaction>)
    ensures CategoryInvariant(txns, TallyAll(txns).0, TallyAll(txns).1)
  {
    if txns != [] {
      var seen, t := txns[..|txns| - 1], txns[|txns| - 1];
      assert txns == seen + [t];
      TallyAllInvariant(seen);
      var prev := TallyAll(seen);
      if t.kind != Expense {
        CategoryStepOther(seen, t, prev.0, prev.1);
      } else if t.category in prev.1 {
        CategoryStepKnown(seen, t, prev.0, prev.1);
      } else {
        CategoryStepNew(seen, t, prev.0, prev.1);
      }
    }
  }

  /** Once the loop is done, reading the totals off in label order gives the chart. */
  lemma ChartOfTotals(txns: seq<Transaction>, labels: seq<string>, totals: map<string, real>, data: seq<real>)
    requires CategoryInvariant(txns, labels, totals)
    requires |data| == |labels| && forall j :: 0 <= j < |labels| ==> data[j] == totals[labels[j]]
    ensures Distinct(labels)
    ensures forall c :: c in labels <==> c in ExpenseCategories(txns)
    ensures forall j :: 0 <= j < |labels| ==> data[j] == Total(txns, ExpenseIn(labels[j]))
    ensures Sum(data) == Total(txns, OfType(Expense))
  {
    SumOfLookups(labels, totals, data);
  }

  /** The `forEach` callback of the category loop. */
  method TallyExpense(labels: seq<string>, totals: map<string, real>, txn: Transaction)
    returns (labels': seq<string>, totals': map<string, real>)
    ensures txn.kind != Expense ==> labels' == labels && totals' == totals
    ensures txn.kind == Expense && txn.category in totals ==>
              labels' == labels && totals' == totals[txn.category := totals[txn.category] + txn.amount]
    ensures txn.kind == Expense && txn.category !in totals ==>
              labels' == labels + [txn.category] && totals' == totals[txn.category := txn.amount]
  {
    labels', totals' := labels, totals;
    if txn.kind == Expense {
      var category := txn.category;
      if category !in totals' || totals'[category] == 0.0 {
        if category !in totals' {
          labels' := labels' + [category];
        }
        totals' := totals'[category := 0.0];
      }
      totals' := totals'[category := totals'[category] + txn.amount];
      if category in totals {
        assert totals' == totals[category := totals[category] + txn.amount];
      } else {
        assert totals' == totals[category := txn.amount];
      }
    }
  }

  /** The `forEach` loop of `getExpenseCategoryData`. */
  method TallyExpenses(txns: seq<Transaction>) returns (labels: seq<string>, totals: map<string, real>)
    ensures (labels, totals) == TallyAll(txns)
  {
    totals := map[];
    labels := [];
    for i := 0 to |txns|
      invariant (labels, totals) == TallyAll(txns[..i])
    {
      labels, totals := TallyExpense(labels, totals, txns[i]);
      assert txns[..i + 1][..i] == txns[..i];
    }
    assert txns[..|txns|] == txns;
  }

  /**
   * `getExpenseCategoryData`: the expense totals per category over the
   * transactions dated from start on.
   */
  method ExpenseCategoryData(transactions: seq<Transaction>, start: Date) returns (chart: CategoryChart)
    ensures |chart.labels| == |chart.data| && Distinct(chart.labels)
    ensures forall c :: c in chart.labels <==> c in ExpenseCategories(FilteredTransactions(transactions, start))
    ensures forall j :: 0 <= j < |chart.labels| ==>
              chart.data[j] == Total(FilteredTransactions(transactions, start), ExpenseIn(chart.labels[j]))
    ensures Sum(chart.data) == Total(FilteredTransactions(transactions, start), OfType(Expense))
  {
    var filtered := FilteredTransactions(transactions, start);
    var labels, totals := TallyExpenses(filtered);
    TallyAllInvariant(filtered);
    var data := seq(|labels|, j requires 0 <= j < |labels| => totals[labels[j]]);
    ChartOfTotals(filtered, labels, totals, data);
    chart := CategoryChart(labels, data);
  }

  // ---------------------------------------------------------------------
  // The monthly bar chart (getMonthlySummaryData)
  // ---------------------------------------------------------------------

  datatype Bucket = Bucket(income: real, expense: real, savings: real)

  function Plus(a: Bucket, b: Bucket): Bucket
  {
    Bucket(a.income + b.income, a.expense + b.expense, a.savings + b.savings)
  }

  const Empty: Bucket := Bucket(0.0, 0.0, 0.0)

  /** The componentwise sum of a sequence of buckets. */
  function BucketSum(bs: seq<Bucket>): Bucket
  {
    if bs == [] then Empty else Plus(bs[0], BucketSum(bs[1..]))
  }

  lemma {:induction false} BucketSumUpdate(bs: seq<Bucket>, m: nat, b: Bucket)
    requires m < |bs|
    ensures BucketSum(bs[m := Plus(bs[m], b)]) == Plus(BucketSum(bs), b)
  {
    if m > 0 {
      assert bs[m := Plus(bs[m], b)][1..] == bs[1..][m - 1 := Plus(bs[m], b)];
      BucketSumUpdate(bs[1..], m - 1, b);
    }
  }

  lemma {:induction false} BucketSumOfEmpties(bs: seq<Bucket>)
    requires forall i :: 0 <= i < |bs| ==> bs[i] == Empty
    ensures BucketSum(bs) == Empty
  {
    if bs != [] {
      BucketSumOfEmpties(bs[1..]);
    }
  }

  /** The totals of one month of one year, per type. */
  function MonthBucket(txns: seq<Transaction>, year: int, m: Month): Bucket
  {
    Bucket(Total(txns, InMonth(year, m, Income)),
           Total(txns, InMonth(year, m, Expense)),
           Total(txns, InMonth(year, m, Savings)))
  }

  /** The totals of a whole year, per type. */
  function YearBucket(txns: seq<Transaction>, year: int): Bucket
  {
    Bucket(Total(txns, InYear(year, Income)),
           Total(txns, InYear(year, Expense)),
           Total(txns, InYear(year, Savings)))
  }

  /** What one transaction adds to the buckets of its own month. */
  function Contribution(t: Transaction): Bucket
  {
    Bucket(if t.kind == Income then t.amount else 0.0,
           if t.kind == Expense then t.amount else 0.0,
           if t.kind == Savings then t.amount else 0.0)
  }

  lemma MonthlyStep(seen: seq<Transaction>, t: Transaction, year: int)
    ensures forall m: Month :: MonthBucket(seen + [t], year, m) ==
              if t.date.year == year && t.date.month == m then Plus(MonthBucket(seen, year, m), Contribution(t))
              else MonthBucket(seen, year, m)
    ensures YearBucket(seen + [t], year) ==
              if t.date.year == year then Plus(YearBucket(seen, year), Contribution(t)) else YearBucket(seen, year)
  {
    forall m: Month, k: TxnType {
      TotalAppend(seen, t, InMonth(year, m, k));
    }
    forall k: TxnType {
      TotalAppend(seen, t, InYear(year, k));
    }
  }

  /**
   * `getMonthlySummaryData`: twelve buckets for the current year; each holds
   * the income, expense and savings totals of its month, and together they
   * add up to the year's totals.
   */
  method MonthlySummaryData(transactions: seq<Transaction>, currentYear: int) returns (buckets: seq<Bucket>)
    ensures |buckets| == 12
    ensures forall m: Month :: buckets[m] == MonthBucket(transactions, currentYear, m)
    ensures BucketSum(buckets) == YearBucket(transactions, currentYear)
  {
    buckets := seq(12, _ => Empty);
    BucketSumOfEmpties(buckets);
    for i := 0 to |transactions|
      invariant |buckets| == 12
      invariant forall m: Month :: buckets[m] == MonthBucket(transactions[..i], currentYear, m)
      invariant BucketSum(buckets) == YearBucket(transactions[..i], currentYear)
    {
      var txn := transactions[i];
      MonthlyStep(transactions[..i], txn, currentYear);
      if txn.date.year == currentYear {
        var month := txn.date.month;
        BucketSumUpdate(buckets, month, Contribution(txn));
        if txn.kind == Income {
          buckets := buckets[month := buckets[month].(income := buckets[month].income + txn.amount)];
        } else if txn.kind == Expense {
          buckets := buckets[month := buckets[month].(expense := buckets[month].expense + txn.amount)];
        } else if txn.kind == Savings {
          buckets := buckets[month := buckets[month].(savings := buckets[month].savings + txn.amount)];
        }
      }
      assert transactions[..i + 1] == transactions[..i] + [txn];
    }
    assert transactions[..|transactions|] == transactions;
  }

  /** A transaction of another year leaves every monthly bucket as it was. */
  lemma OtherYearsIgnored(txns: seq<Transaction>, t: Transaction, year: int, m: Month)
    requires t.date.year != year
    ensures MonthBucket(txns + [t], year, m) == MonthBucket(txns, year, m)
  {
    MonthlyStep(txns, t, year);
  }
}
