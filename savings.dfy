/**
 * The savings calculator (app/services/savings/page.tsx): the monthly amount
 * a goal needs, the progress towards it, and the 52-week challenge series.
 */
module Savings {
  import opened Common

  /** The page's initial inputs. */
  const DefaultTarget: real := 10000.0
  const DefaultCurrent: real := 2000.0
  const DefaultMonths: real := 24.0

  /**
   * `(targetAmount - currentAmount) / months`; no finite value when months
   * is 0. The field is read with `Number`, so months may be fractional.
   */
  function MonthlySavingsRequired(targetAmount: real, currentAmount: real, months: real): (r: Option<real>)
    ensures months == 0.0 <==> r == None
    ensures r.Some? ==> r.value * months == targetAmount - currentAmount
  {
    if months == 0.0 then None else Some((targetAmount - currentAmount) / months)
  }

  /** `(currentAmount / targetAmount) * 100`; no finite value when the target is 0. */
  function ProgressPercentage(currentAmount: real, targetAmount: real): (r: Option<real>)
    ensures targetAmount == 0.0 <==> r == None
    ensures r.Some? ==> r.value * targetAmount == currentAmount * 100.0
  {
    if targetAmount == 0.0 then None else Some(currentAmount / targetAmount * 100.0)
  }

  /** A goal that is met shows 100%. */
  lemma GoalMetIsHundred(amount: real)
    requires amount != 0.0
    ensures ProgressPercentage(amount, amount) == Some(100.0)
  {
  }

  /** With the initial inputs: 8000 over 24 months and 20% done. */
  lemma DefaultInputs()
    ensures MonthlySavingsRequired(DefaultTarget, DefaultCurrent, DefaultMonths) == Some(1000.0 / 3.0)
    ensures ProgressPercentage(DefaultCurrent, DefaultTarget) == Some(20.0)
  {
  }

  /** Fractional months divide as they are: 8000 over 1.5 months. */
  lemma FractionalMonths()
    ensures MonthlySavingsRequired(DefaultTarget, DefaultCurrent, 1.5) == Some(16000.0 / 3.0)
  {
  }

  /** One row of the challenge chart. */
  datatype WeekRow = WeekRow(week: nat, amount: nat, total: nat)

  /** What week n of the challenge saves. */
  function WeekAmount(week: nat): nat
  {
    5 * week
  }

  /** Everything saved by the end of week n. */
  function ChallengeTotal(n: nat): nat
  {
    if n == 0 then 0 else ChallengeTotal(n - 1) + WeekAmount(n)
  }

  /** The running total in closed form: 5·n·(n+1)/2. */
  lemma {:induction false} ChallengeTotalClosedForm(n: nat)
    ensures 2 * ChallengeTotal(n) == 5 * n * (n + 1)
  {
    if n > 0 {
      ChallengeTotalClosedForm(n - 1);
    }
  }

  /** The running total grows every week. */
  lemma {:induction false} ChallengeTotalIncreasing(m: nat, n: nat)
    requires m < n
    ensures ChallengeTotal(m) < ChallengeTotal(n)
  {
    if m < n - 1 {
      ChallengeTotalIncreasing(m, n - 1);
    }
  }

  /** `generateWeeklySavingsData` */
  method GenerateWeeklySavingsData() returns (data: seq<WeekRow>)
    ensures |data| == 52
    ensures forall i :: 0 <= i < 52 ==>
              data[i].week == i + 1 && data[i].amount == 5 * (i + 1) && 2 * data[i].total == 5 * (i + 1) * (i + 2)
    ensures forall i, j :: 0 <= i < j < 52 ==> data[i].total < data[j].total
    ensures data[51].amount == 260 && data[51].total == 6890
  {
    data := [];
    var total: nat := 0;
    for week := 1 to 53
      invariant |data| == week - 1
      invariant total == ChallengeTotal(week - 1)
      invariant forall i :: 0 <= i < |data| ==> data[i] == WeekRow(i + 1, WeekAmount(i + 1), ChallengeTotal(i + 1))
    {
      var amount := week * 5;
      total := total + amount;
      data := data + [WeekRow(week, amount, total)];
    }
    forall i | 0 <= i < 52
      ensures 2 * data[i].total == 5 * (i + 1) * (i + 2)
    {
      ChallengeTotalClosedForm(i + 1);
    }
    forall i, j | 0 <= i < j < 52
      ensures data[i].total < data[j].total
    {
      ChallengeTotalIncreasing(i + 1, j + 1);
    }
    ChallengeTotalClosedForm(52);
  }
}
