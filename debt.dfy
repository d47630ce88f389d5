/**
 * The debt payoff projector of the debt management page: a month-by-month
 * compounding loop, capped at 1000 iterations, and the totals derived from
 * its month count. Money and rates are exact reals, so the floating-point
 * round-off of the page is not reproduced.
 */
module DebtPayoff {

  /** Safety bound on the number of simulated months. */
  const Cap: nat := 1000

  /** The monthly decimal rate for an annual percentage rate. */
  function MonthlyRate(annualPercent: real): real
  {
    annualPercent / 100.0 / 12.0
  }

  /** The balance after k months of `balance := balance * (1 + r) - payment`. */
  function Balance(debt: real, annualPercent: real, payment: real, k: nat): real
  {
    if k == 0 then debt
    else Balance(debt, annualPercent, payment, k - 1) * (1.0 + MonthlyRate(annualPercent)) - payment
  }

  /**
   * m is the month count the capped loop stops at: the balance is positive
   * before every earlier month, and either the cap is reached or the balance
   * after month m is no longer positive.
   */
  predicate IsPayoffMonth(debt: real, annualPercent: real, payment: real, m: nat)
  {
    && m <= Cap
    && (forall k :: 0 <= k < m ==> Balance(debt, annualPercent, payment, k) > 0.0)
    && (m == Cap || Balance(debt, annualPercent, payment, m) <= 0.0)
  }

  /** Searches for the stopping month from month k on. */
  function SearchFrom(debt: real, annualPercent: real, payment: real, k: nat): (m: nat)
    requires k <= Cap
    requires forall j :: 0 <= j < k ==> Balance(debt, annualPercent, payment, j) > 0.0
    ensures k <= m
    ensures IsPayoffMonth(debt, annualPercent, payment, m)
    decreases Cap - k
  {
    if k == Cap || Balance(debt, annualPercent, payment, k) <= 0.0 then k
    else SearchFrom(debt, annualPercent, payment, k + 1)
  }

  /** The month count of the projector, as a function of its three inputs. */
  function MonthsToPayoff(debt: real, annualPercent: real, payment: real): (m: nat)
    ensures IsPayoffMonth(debt, annualPercent, payment, m)
  {
    SearchFrom(debt, annualPercent, payment, 0)
  }

  /** The stopping month is determined by the inputs. */
  lemma PayoffMonthUnique(debt: real, annualPercent: real, payment: real, m1: nat, m2: nat)
    requires IsPayoffMonth(debt, annualPercent, payment, m1)
    requires IsPayoffMonth(debt, annualPercent, payment, m2)
    ensures m1 == m2
  {
  }

  /** The page's `calculateMonthsToPayoff` loop. */
  method CalculateMonthsToPayoff(debtAmount: real, interestRate: real, monthlyPayment: real)
    returns (months: nat)
    ensures IsPayoffMonth(debtAmount, interestRate, monthlyPayment, months)
    ensures months == MonthsToPayoff(debtAmount, interestRate, monthlyPayment)
  {
    var monthlyInterestRate := interestRate / 100.0 / 12.0;
    var balance := debtAmount;
    months := 0;
    while balance > 0.0 && months < Cap
      invariant months <= Cap
      invariant balance == Balance(debtAmount, interestRate, monthlyPayment, months)
      invariant forall k :: 0 <= k < months ==> Balance(debtAmount, interestRate, monthlyPayment, k) > 0.0
      decreases Cap - months
    {
      balance := balance * (1.0 + monthlyInterestRate) - monthlyPayment;
      months := months + 1;
    }
    PayoffMonthUnique(debtAmount, interestRate, monthlyPayment, months,
                      MonthsToPayoff(debtAmount, interestRate, monthlyPayment));
  }

  /** What the page shows: months to payoff, total paid and total interest. */
  datatype Projection = Projection(months: nat, totalPayment: real, totalInterest: real)

  /** Total paid and total interest for a given month count. */
  function Totals(debt: real, payment: real, months: nat): (p: Projection)
    ensures p.months == months
    ensures p.totalPayment == payment * (months as real)
    ensures p.totalInterest + debt == p.totalPayment
  {
    Projection(months, payment * (months as real), payment * (months as real) - debt)
  }

  /** The projector's three outputs for its three inputs. */
  function Project(debt: real, annualPercent: real, payment: real): (p: Projection)
    ensures IsPayoffMonth(debt, annualPercent, payment, p.months)
    ensures p == Totals(debt, payment, p.months)
  {
    Totals(debt, payment, MonthsToPayoff(debt, annualPercent, payment))
  }

  /** No debt: the loop does not run, so nothing is paid. */
  lemma {:induction false} NoDebtNoPayments(debt: real, annualPercent: real, payment: real)
    requires debt <= 0.0
    ensures Project(debt, annualPercent, payment).months == 0
    ensures Project(debt, annualPercent, payment).totalPayment == 0.0
    ensures Project(debt, annualPercent, payment).totalInterest == -debt
  {
    PayoffMonthUnique(debt, annualPercent, payment, 0, MonthsToPayoff(debt, annualPercent, payment));
  }

  /** Without interest the balance falls by one payment a month. */
  lemma {:induction false} ZeroRateBalance(debt: real, payment: real, k: nat)
    ensures Balance(debt, 0.0, payment, k) == debt - (k as real) * payment
  {
    if k > 0 {
      ZeroRateBalance(debt, payment, k - 1);
    }
  }

  /** The least integer not below x. */
  function Ceil(x: real): (c: int)
    ensures x <= c as real < x + 1.0
  {
    -((-x).Floor)
  }

  /** The month count c = ceil(debt / payment) brackets the debt between c - 1 and c payments. */
  lemma CeilBrackets(debt: real, payment: real)
    requires debt > 0.0 && payment > 0.0
    ensures Ceil(debt / payment) >= 1
    ensures ((Ceil(debt / payment) - 1) as real) * payment < debt
    ensures debt <= (Ceil(debt / payment) as real) * payment
  {
    var x := debt / payment;
    var c := Ceil(x);
    assert x * payment == debt;
    var below := x - ((c - 1) as real);
    ScalePositive(below, payment);
    assert x * payment - ((c - 1) as real) * payment == below * payment;
    assert ((c - 1) as real) * payment < debt;
    var above := (c as real) - x;
    ScaleNonNegative(above, payment);
    assert (c as real) * payment - x * payment == above * payment;
  }

  lemma ScalePositive(a: real, b: real)
    requires a > 0.0 && b > 0.0
    ensures a * b > 0.0
  {
  }

  lemma PaymentsBelow(payment: real, k: nat, n: int)
    requires payment > 0.0 && k <= n
    ensures (k as real) * payment <= (n as real) * payment
  {
    var gap := (n - k) as real;
    ScaleNonNegative(gap, payment);
    assert (n as real) * payment - (k as real) * payment == gap * payment;
  }

  /** Without interest, every month before ceil(debt / payment) still leaves a balance. */
  lemma ZeroRateOwing(debt: real, payment: real, k: nat)
    requires debt > 0.0 && payment > 0.0 && k < Ceil(debt / payment)
    ensures Balance(debt, 0.0, payment, k) > 0.0
  {
    CeilBrackets(debt, payment);
    PaymentsBelow(payment, k, Ceil(debt / payment) - 1);
    ZeroRateBalance(debt, payment, k);
  }

  /** Without interest, the balance after ceil(debt / payment) months is settled. */
  lemma ZeroRateSettled(debt: real, payment: real)
    requires debt > 0.0 && payment > 0.0
    ensures Balance(debt, 0.0, payment, Ceil(debt / payment)) <= 0.0
  {
    CeilBrackets(debt, payment);
    ZeroRateBalance(debt, payment, Ceil(debt / payment));
  }

  /** At a 0% rate with a positive payment the loop stops after ceil(debt / payment) months, if within the cap. */
  lemma ZeroRateMonths(debt: real, payment: real)
    requires debt > 0.0 && payment > 0.0
    requires Ceil(debt / payment) <= Cap
    ensures MonthsToPayoff(debt, 0.0, payment) == Ceil(debt / payment)
  {
    var c := Ceil(debt / payment);
    forall k | 0 <= k < c
      ensures Balance(debt, 0.0, payment, k) > 0.0
    {
      ZeroRateOwing(debt, payment, k);
    }
    ZeroRateSettled(debt, payment);
    assert IsPayoffMonth(debt, 0.0, payment, c);
    PayoffMonthUnique(debt, 0.0, payment, c, MonthsToPayoff(debt, 0.0, payment));
  }

  /**
   * At a 0% rate with a positive payment, the debt is paid in
   * ceil(debt / payment) months whenever that is within the cap, and the
   * total paid is not less than the debt.
   */
  lemma ZeroRatePayoff(debt: real, payment: real)
    requires debt > 0.0 && payment > 0.0
    requires Ceil(debt / payment) <= Cap
    ensures MonthsToPayoff(debt, 0.0, payment) == Ceil(debt / payment)
    ensures Project(debt, 0.0, payment).totalInterest >= 0.0
  {
    ZeroRateMonths(debt, payment);
    CeilBrackets(debt, payment);
    var p := Project(debt, 0.0, payment);
    assert p.totalPayment == payment * (Ceil(debt / payment) as real);
  }

  /** The worked figures: $1000 at 0% paid $100 a month takes 10 months. */
  lemma ZeroRateExample()
    ensures Project(1000.0, 0.0, 100.0) == Projection(10, 1000.0, 0.0)
  {
    assert Ceil(1000.0 / 100.0) == 10;
    ZeroRatePayoff(1000.0, 100.0);
  }

  lemma ScaleNonNegative(a: real, b: real)
    requires a >= 0.0 && b >= 0.0
    ensures a * b >= 0.0
  {
  }

  /** When the payment does not exceed the first month's interest, the balance never drops below the debt. */
  lemma {:induction false} BalanceNeverDrops(debt: real, annualPercent: real, payment: real, k: nat)
    requires debt > 0.0 && annualPercent >= 0.0
    requires payment <= debt * MonthlyRate(annualPercent)
    ensures Balance(debt, annualPercent, payment, k) >= debt
  {
    if k > 0 {
      BalanceNeverDrops(debt, annualPercent, payment, k - 1);
      var b := Balance(debt, annualPercent, payment, k - 1);
      var r := MonthlyRate(annualPercent);
      ScaleNonNegative(r, b - debt);
      assert b * (1.0 + r) - payment == b + r * (b - debt) + (debt * r - payment);
    }
  }

  /** Non-convergence: such a payment runs the loop to the cap. */
  lemma {:induction false} NonConvergentHitsCap(debt: real, annualPercent: real, payment: real)
    requires debt > 0.0 && annualPercent >= 0.0
    requires payment <= debt * MonthlyRate(annualPercent)
    ensures MonthsToPayoff(debt, annualPercent, payment) == Cap
  {
    var m := MonthsToPayoff(debt, annualPercent, payment);
    if m < Cap {
      BalanceNeverDrops(debt, annualPercent, payment, m);
    }
  }

  lemma ScaleMonotone(a: real, b: real, f: real)
    requires a <= b && f >= 0.0
    ensures a * f <= b * f
  {
  }

  /** A larger payment leaves a balance no larger, month by month. */
  lemma {:induction false} BalanceAntitoneInPayment(debt: real, annualPercent: real, p1: real, p2: real, k: nat)
    requires annualPercent >= 0.0 && p1 <= p2
    ensures Balance(debt, annualPercent, p2, k) <= Balance(debt, annualPercent, p1, k)
  {
    if k > 0 {
      BalanceAntitoneInPayment(debt, annualPercent, p1, p2, k - 1);
      ScaleMonotone(Balance(debt, annualPercent, p2, k - 1), Balance(debt, annualPercent, p1, k - 1),
                    1.0 + MonthlyRate(annualPercent));
    }
  }

  /** Raising the monthly payment never increases the months to payoff. */
  lemma {:induction false} MonthsAntitoneInPayment(debt: real, annualPercent: real, p1: real, p2: real)
    requires annualPercent >= 0.0 && p1 <= p2
    ensures MonthsToPayoff(debt, annualPercent, p2) <= MonthsToPayoff(debt, annualPercent, p1)
  {
    var m1 := MonthsToPayoff(debt, annualPercent, p1);
    var m2 := MonthsToPayoff(debt, annualPercent, p2);
    if m1 < m2 {
      BalanceAntitoneInPayment(debt, annualPercent, p1, p2, m1);
    }
  }

  /** While the lower-rate balance stays positive, the higher-rate balance is at least as large. */
  lemma {:induction false} BalanceMonotoneInRate(debt: real, r1: real, r2: real, payment: real, k: nat)
    requires 0.0 <= r1 <= r2
    requires forall j :: 0 <= j < k ==> Balance(debt, r1, payment, j) > 0.0
    ensures Balance(debt, r1, payment, k) <= Balance(debt, r2, payment, k)
  {
    if k > 0 {
      BalanceMonotoneInRate(debt, r1, r2, payment, k - 1);
      var b1 := Balance(debt, r1, payment, k - 1);
      var b2 := Balance(debt, r2, payment, k - 1);
      assert b1 > 0.0;
      ScaleMonotone(b1, b2, 1.0 + MonthlyRate(r2));
      ScaleMonotone(1.0 + MonthlyRate(r1), 1.0 + MonthlyRate(r2), b1);
    }
  }

  /** Raising the interest rate never decreases the months to payoff. */
  lemma {:induction false} MonthsMonotoneInRate(debt: real, r1: real, r2: real, payment: real)
    requires 0.0 <= r1 <= r2
    ensures MonthsToPayoff(debt, r1, payment) <= MonthsToPayoff(debt, r2, payment)
  {
    var m1 := MonthsToPayoff(debt, r1, payment);
    var m2 := MonthsToPayoff(debt, r2, payment);
    if m2 < m1 {
      BalanceMonotoneInRate(debt, r1, r2, payment, m2);
    }
  }

  /** The "N years, M months" split of the month count. */
  function YearsAndMonths(months: nat): (split: (nat, nat))
    ensures split.0 * 12 + split.1 == months
    ensures split.1 < 12
  {
    (months / 12, months % 12)
  }

  /** One slice of the sample debt breakdown. */
  datatype DebtSlice = DebtSlice(name: string, value: nat)

  const SampleDebts: seq<DebtSlice> := [
    DebtSlice("Credit Card", 5000),
    DebtSlice("Student Loan", 15000),
    DebtSlice("Car Loan", 8000),
    DebtSlice("Personal Loan", 3000)
  ]

  /** The `reduce` that sums the breakdown into the total debt. */
  function TotalDebt(slices: seq<DebtSlice>): (total: nat)
    ensures forall i :: 0 <= i < |slices| ==> slices[i].value <= total
  {
    if slices == [] then 0 else slices[0].value + TotalDebt(slices[1..])
  }

  /** The total of two breakdowns side by side is the sum of their totals. */
  lemma {:induction false} TotalDebtConcat(a: seq<DebtSlice>, b: seq<DebtSlice>)
    ensures TotalDebt(a + b) == TotalDebt(a) + TotalDebt(b)
  {
    if a == [] {
      assert a + b == b;
    } else {
      assert (a + b)[1..] == a[1..] + b;
      TotalDebtConcat(a[1..], b);
    }
  }

  /** The total shown on the page. */
  lemma SampleTotalDebt()
    ensures TotalDebt(SampleDebts) == 31000
  {
  }
}
