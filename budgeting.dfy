/**
 * The budgeting page (app/budgeting/page.tsx): money left over, the savings
 * rate, the rotating tip and the per-category progress rows.
 */
module Budgeting {
  import opened Common

  /** The page's initial income and expenses. */
  const DefaultIncome: real := 3500.0
  const DefaultExpenses: real := 2850.0

  /** `income - expenses` */
  function Remaining(income: real, expenses: real): (r: real)
    ensures r + expenses == income
    ensures r >= 0.0 <==> expenses <= income
  {
    income - expenses
  }

  /** The savings rate shown: the remainder as a percentage of income, or 0 without income. */
  function SavingsRate(income: real, expenses: real): (rate: real)
    ensures income <= 0.0 ==> rate == 0.0
    ensures income > 0.0 ==> rate * income == Remaining(income, expenses) * 100.0
  {
    if income > 0.0 then Remaining(income, expenses) / income * 100.0 else 0.0
  }

  /** With income and 0 <= expenses <= income the rate lies in 0..100. */
  lemma SavingsRateBounds(income: real, expenses: real)
    requires income > 0.0 && 0.0 <= expenses <= income
    ensures 0.0 <= SavingsRate(income, expenses) <= 100.0
  {
    var rate := SavingsRate(income, expenses);
    assert rate * income == (income - expenses) * 100.0;
    assert 0.0 <= (income - expenses) * 100.0 <= income * 100.0;
  }

  /** The initial figures: 650 left over, a rate of 130/7 percent. */
  lemma DefaultFigures()
    ensures Remaining(DefaultIncome, DefaultExpenses) == 650.0
    ensures SavingsRate(DefaultIncome, DefaultExpenses) == 130.0 / 7.0
  {
  }

  const BudgetingTips: seq<string> := [
    "Try the 50/30/20 rule: 50% for needs, 30% for wants, and 20% for savings.",
    "Track every expense for a month to identify spending patterns.",
    "Set up automatic transfers to your savings account on payday.",
    "Review and cancel unused subscriptions to reduce monthly expenses.",
    "Use cash for discretionary spending to make your budget more tangible."
  ]

  /** One rotation step of the tip index: `(prevIndex + 1) % budgetingTips.length`. */
  function NextTip(index: nat): (next: nat)
    ensures next < |BudgetingTips|
  {
    (index + 1) % |BudgetingTips|
  }

  /** k rotation steps from index. */
  function Rotate(index: nat, k: nat): nat
  {
    if k == 0 then index else NextTip(Rotate(index, k - 1))
  }

  /** k steps move a valid index k places round the ring of tips. */
  lemma {:induction false} RotateIsShift(index: nat, k: nat)
    requires index < |BudgetingTips|
    ensures Rotate(index, k) == (index + k) % |BudgetingTips|
  {
    if k > 0 {
      RotateIsShift(index, k - 1);
    }
  }

  /** As many steps as there are tips bring the index back to where it started. */
  lemma FullRotation(index: nat)
    requires index < |BudgetingTips|
    ensures Rotate(index, |BudgetingTips|) == index
  {
    RotateIsShift(index, |BudgetingTips|);
  }

  /** The rotating tip; the interval timer is left to the caller. */
  class TipRotation {
    var tipIndex: nat

    constructor ()
      ensures tipIndex == 0
    {
      tipIndex := 0;
    }

    /** One tick of the ten-second interval. */
    method Tick()
      modifies this
      ensures tipIndex == NextTip(old(tipIndex))
      ensures tipIndex < |BudgetingTips|
    {
      tipIndex := (tipIndex + 1) % |BudgetingTips|;
    }
  }

  /** A sample category: its name and the amount spent. */
  datatype Category = Category(name: string, value: real)

  const BudgetData: seq<Category> := [
    Category("Housing", 1200.0), Category("Food", 500.0), Category("Transportation", 300.0),
    Category("Utilities", 200.0), Category("Entertainment", 150.0), Category("Savings", 650.0),
    Category("Other", 200.0)
  ]

  /** A row of the category table; `percentage` has no finite value when the budget is 0. */
  datatype Row = Row(budget: real, spent: real, remaining: real, percentage: Option<real>)

  /** The table row for a category: a budget 20% over what was spent. */
  function CategoryRow(value: real): (row: Row)
    ensures row.spent == value && row.budget == value * 1.2
    ensures row.remaining == row.budget - row.spent
    ensures row.budget == 0.0 <==> row.percentage == None
    ensures row.percentage.Some? ==> row.percentage.value * row.budget == row.spent * 100.0
  {
    var budget := value * 1.2;
    var spent := value;
    Row(budget, spent, budget - spent, if budget == 0.0 then None else Some(spent / budget * 100.0))
  }

  /** A category that has spending always sits at 250/3 percent with a fifth of its budget left. */
  lemma SpentCategoryRow(value: real)
    requires value > 0.0
    ensures CategoryRow(value).remaining == value * 0.2 > 0.0
    ensures CategoryRow(value).percentage == Some(250.0 / 3.0)
  {
    var p := CategoryRow(value).percentage.value;
    assert p * (value * 1.2) == value * 100.0;
    assert (p * 1.2 - 100.0) * value == 0.0;
    assert p * 1.2 == 100.0;
  }

  datatype Band = Red | Yellow | Green

  /** The progress bar's colour; a non-finite percentage compares false and so is green. */
  function BandOf(percentage: Option<real>): (b: Band)
    ensures b == Red <==> percentage.Some? && percentage.value > 90.0
    ensures b == Yellow <==> percentage.Some? && 70.0 < percentage.value <= 90.0
    ensures b == Green <==> percentage.None? || percentage.value <= 70.0
  {
    if percentage.Some? && percentage.value > 90.0 then Red
    else if percentage.Some? && percentage.value > 70.0 then Yellow
    else Green
  }

  /** The bar width, `Math.min(percentage, 100)`. */
  function BarWidth(percentage: Option<real>): (w: Option<real>)
    ensures w.Some? <==> percentage.Some?
    ensures w.Some? ==> w.value <= 100.0 && w.value <= percentage.value
    ensures w.Some? ==> w.value == percentage.value || w.value == 100.0
  {
    if percentage.None? then None
    else if percentage.value < 100.0 then percentage
    else Some(100.0)
  }

  /** Every category with spending shows a yellow bar at 250/3 percent width. */
  lemma SpentCategoriesAreYellow(value: real)
    requires value > 0.0
    ensures BandOf(CategoryRow(value).percentage) == Yellow
    ensures BarWidth(CategoryRow(value).percentage) == Some(250.0 / 3.0)
  {
    SpentCategoryRow(value);
  }

  /** So every sample row is yellow. */
  lemma SampleRowsAreYellow()
    ensures forall i :: 0 <= i < |BudgetData| ==> BandOf(CategoryRow(BudgetData[i].value).percentage) == Yellow
  {
    forall i | 0 <= i < |BudgetData|
      ensures BandOf(CategoryRow(BudgetData[i].value).percentage) == Yellow
    {
      SpentCategoriesAreYellow(BudgetData[i].value);
    }
  }
}
