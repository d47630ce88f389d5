/**
 * The investing page (app/services/investing/page.tsx): the risk score to
 * profile mapping and the growth table behind its chart.
 */
module Investing {

  datatype RiskProfile = Conservative | Moderate | Aggressive

  /** The profiles ordered by how much risk they take. */
  function Rank(p: RiskProfile): nat
  {
    match p
    case Conservative => 0
    case Moderate => 1
    case Aggressive => 2
  }

  /** The slider's range. */
  const MinScore: int := 1
  const MaxScore: int := 10

  /** The profile `handleRiskCalculation` assigns to a score. */
  function ProfileFor(score: int): (p: RiskProfile)
    ensures p == Conservative <==> score <= 3
    ensures p == Aggressive <==> score >= 8
    ensures p == Moderate <==> 4 <= score <= 7
  {
    if score <= 3 then Conservative
    else if score >= 8 then Aggressive
    else Moderate
  }

  /** A riskier score never gets a more cautious profile. */
  lemma ProfileMonotone(a: int, b: int)
    requires a <= b
    ensures Rank(ProfileFor(a)) <= Rank(ProfileFor(b))
  {
  }

  /** Over the slider's range every profile is reached. */
  lemma ProfilesOnSlider()
    ensures ProfileFor(MinScore) == Conservative
    ensures ProfileFor(5) == Moderate
    ensures ProfileFor(MaxScore) == Aggressive
  {
  }

  class InvestingPage {
    var riskScore: int
    var riskProfile: RiskProfile

    constructor ()
      ensures riskScore == 5 && riskProfile == Moderate
      ensures riskProfile == ProfileFor(riskScore)
    {
      riskScore := 5;
      riskProfile := Moderate;
    }

    /** Moving the slider. */
    method SetRiskScore(score: int)
      modifies this
      ensures riskScore == score && riskProfile == old(riskProfile)
    {
      riskScore := score;
    }

    /** `handleRiskCalculation` */
    method HandleRiskCalculation()
      modifies this
      ensures riskScore == old(riskScore)
      ensures riskProfile == ProfileFor(riskScore)
    {
      var score := riskScore;
      var profile := Moderate;
      if score <= 3 {
        profile := Conservative;
      } else if score >= 8 {
        profile := Aggressive;
      }
      riskProfile := profile;
    }
  }

  /** One year of the growth chart, in dollars. */
  datatype GrowthRow = GrowthRow(year: int, conservative: int, moderate: int, aggressive: int)

  const InvestmentData: seq<GrowthRow> := [
    GrowthRow(2023, 10500, 11000, 11500),
    GrowthRow(2024, 11025, 12100, 13225),
    GrowthRow(2025, 11576, 13310, 15209),
    GrowthRow(2026, 12155, 14641, 17490),
    GrowthRow(2027, 12763, 16105, 20114),
    GrowthRow(2028, 13401, 17716, 23131),
    GrowthRow(2029, 14071, 19487, 26600),
    GrowthRow(2030, 14775, 21436, 30590)
  ]

  function Pow(b: nat, e: nat): (r: nat)
    ensures b > 0 ==> r > 0
  {
    if e == 0 then 1 else b * Pow(b, e - 1)
  }

  /** n/d rounded to the nearest whole number, halves up. */
  function RoundDiv(n: nat, d: nat): (r: nat)
    requires d > 0
    ensures r * d <= n + d / 2 && n + d / 2 < (r + 1) * d
  {
    (n + d / 2) / d
  }

  /** $10,000 grown for some years at a yearly rate in percent, to the nearest dollar. */
  function Projected(ratePercent: nat, years: nat): nat
  {
    RoundDiv(10000 * Pow(100 + ratePercent, years), Pow(100, years))
  }

  lemma ConservativeColumn()
    ensures forall i :: 0 <= i < |InvestmentData| ==>
              InvestmentData[i].conservative == Projected(5, InvestmentData[i].year - 2022)
  {
    assert Projected(5, 1) == 10500 && Projected(5, 2) == 11025 && Projected(5, 3) == 11576;
    assert Projected(5, 4) == 12155 && Projected(5, 5) == 12763 && Projected(5, 6) == 13401;
    assert Projected(5, 7) == 14071 && Projected(5, 8) == 14775;
  }

  lemma ModerateColumn()
    ensures forall i :: 0 <= i < |InvestmentData| ==>
              InvestmentData[i].moderate == Projected(10, InvestmentData[i].year - 2022)
  {
    assert Projected(10, 1) == 11000 && Projected(10, 2) == 12100 && Projected(10, 3) == 13310;
    assert Projected(10, 4) == 14641 && Projected(10, 5) == 16105 && Projected(10, 6) == 17716;
    assert Projected(10, 7) == 19487 && Projected(10, 8) == 21436;
  }

  lemma AggressiveColumn()
    ensures forall i :: 0 <= i < |InvestmentData| ==>
              InvestmentData[i].aggressive == Projected(15, InvestmentData[i].year - 2022)
  {
    assert Projected(15, 1) == 11500 && Projected(15, 2) == 13225 && Projected(15, 3) == 15209;
    assert Projected(15, 4) == 17490 && Projected(15, 5) == 20114 && Projected(15, 6) == 23131;
    assert Projected(15, 7) == 26600 && Projected(15, 8) == 30590;
  }
}
