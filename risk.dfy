/**
 * `calculateOverallRisk` (src/utils/healthAnalyzer.js): the counts of the
 * critical, attention and normal groups give two ratios, and the first of
 * four tiers whose condition holds fixes the risk label and its score.
 * Ratios are JavaScript divisions: with no classified parameter at all both
 * are `0/0`, which is NaN, and every comparison with NaN is false.
 */
module Risk {
  import opened JsNumber
  import opened Extraction

  datatype RiskAssessment = RiskAssessment(risk: string, riskScore: int, criticalRatio: Number, abnormalRatio: Number)

  /** `count / total` for a group that is part of the total. */
  function Ratio(count: nat, total: nat): (r: Number)
    requires count <= total
    ensures r.NaN? <==> total == 0
    ensures r.Num? ==> 0.0 <= r.r <= 1.0
  {
    if total == 0 then NaN else Num(count as real / total as real)
  }

  /** Which group a tier counts. */
  datatype Basis = OnCritical | OnAbnormal

  /** A tier holds when its group's ratio is above `ratioAbove` or its count is at least `countAtLeast`. */
  datatype Tier = Tier(risk: string, score: int, basis: Basis, ratioAbove: real, countAtLeast: nat)

  /** The tiers in the order the if-chain tests them. */
  const Tiers: seq<Tier> := [
    Tier("high", 8, OnCritical, 0.3, 3),
    Tier("moderate", 6, OnCritical, 0.1, 1),
    Tier("moderate", 5, OnAbnormal, 0.5, 4),
    Tier("low-moderate", 3, OnAbnormal, 0.2, 2)
  ]

  predicate Applies(t: Tier, critical: nat, abnormal: nat, normal: nat) {
    var total := critical + abnormal + normal;
    var count := if t.basis == OnCritical then critical else abnormal;
    Greater(Ratio(count, total), Num(t.ratioAbove)) || count >= t.countAtLeast
  }

  /** The label and score of the first tier that holds, or `low` and 0. */
  function FirstTier(tiers: seq<Tier>, critical: nat, abnormal: nat, normal: nat): (string, int) {
    if tiers == [] then ("low", 0)
    else if Applies(tiers[0], critical, abnormal, normal) then (tiers[0].risk, tiers[0].score)
    else FirstTier(tiers[1..], critical, abnormal, normal)
  }

  /** The assessment of the given group sizes. */
  function Assess(critical: nat, abnormal: nat, normal: nat): RiskAssessment {
    var total := critical + abnormal + normal;
    var tier := FirstTier(Tiers, critical, abnormal, normal);
    RiskAssessment(tier.0, tier.1, Ratio(critical, total), Ratio(abnormal, total))
  }

  lemma TiersInOrder(critical: nat, abnormal: nat, normal: nat)
    ensures FirstTier(Tiers, critical, abnormal, normal) ==
      if Applies(Tiers[0], critical, abnormal, normal) then ("high", 8)
      else if Applies(Tiers[1], critical, abnormal, normal) then ("moderate", 6)
      else if Applies(Tiers[2], critical, abnormal, normal) then ("moderate", 5)
      else if Applies(Tiers[3], critical, abnormal, normal) then ("low-moderate", 3)
      else ("low", 0)
  {
    var c, a, n := critical, abnormal, normal;
    assert Tiers[1..][0] == Tiers[1] && Tiers[1..][1..] == Tiers[2..];
    assert Tiers[2..][0] == Tiers[2] && Tiers[2..][1..] == Tiers[3..];
    assert Tiers[3..][0] == Tiers[3] && Tiers[3..][1..] == [];
    assert FirstTier(Tiers[3..], c, a, n) == if Applies(Tiers[3], c, a, n) then ("low-moderate", 3) else ("low", 0);
    assert FirstTier(Tiers[2..], c, a, n) ==
      if Applies(Tiers[2], c, a, n) then ("moderate", 5) else FirstTier(Tiers[3..], c, a, n);
    assert FirstTier(Tiers[1..], c, a, n) ==
      if Applies(Tiers[1], c, a, n) then ("moderate", 6) else FirstTier(Tiers[2..], c, a, n);
  }

  /** `calculateOverallRisk(criticalParams, abnormalParams, normalParams)`. */
  method CalculateOverallRisk(criticalParams: seq<Parameter>, abnormalParams: seq<Parameter>, normalParams: seq<Parameter>)
    returns (assessment: RiskAssessment)
    ensures assessment == Assess(|criticalParams|, |abnormalParams|, |normalParams|)
  {
    var total := |criticalParams| + |abnormalParams| + |normalParams|;
    var criticalRatio := Ratio(|criticalParams|, total);
    var abnormalRatio := Ratio(|abnormalParams|, total);
    var risk := "low";
    var riskScore := 0;
    if Greater(criticalRatio, Num(0.3)) || |criticalParams| >= 3 {
      risk := "high";
      riskScore := 8;
    } else if Greater(criticalRatio, Num(0.1)) || |criticalParams| >= 1 {
      risk := "moderate";
      riskScore := 6;
    } else if Greater(abnormalRatio, Num(0.5)) || |abnormalParams| >= 4 {
      risk := "moderate";
      riskScore := 5;
    } else if Greater(abnormalRatio, Num(0.2)) || |abnormalParams| >= 2 {
      risk := "low-moderate";
      riskScore := 3;
    }
    TiersInOrder(|criticalParams|, |abnormalParams|, |normalParams|);
    assessment := RiskAssessment(risk, riskScore, criticalRatio, abnormalRatio);
  }

  // ---- Properties of the tiers ----

  /** A ratio exceeds a threshold exactly when the count exceeds the threshold times the total. */
  lemma RatioAbove(count: nat, total: nat, k: real)
    requires count <= total
    ensures Greater(Ratio(count, total), Num(k)) <==> total > 0 && count as real > k * total as real
  {
    if total > 0 {
      var q := count as real / total as real;
      assert q * total as real == count as real;
      if q > k {
        assert q * total as real > k * total as real;
      }
      if count as real > k * total as real {
        assert q * total as real > k * total as real;
      }
    }
  }

  /** The score names the tier: each score goes with one label. */
  lemma ScoreNamesRisk(critical: nat, abnormal: nat, normal: nat)
    ensures var a := Assess(critical, abnormal, normal);
            || (a.riskScore == 8 && a.risk == "high")
            || (a.riskScore == 6 && a.risk == "moderate")
            || (a.riskScore == 5 && a.risk == "moderate")
            || (a.riskScore == 3 && a.risk == "low-moderate")
            || (a.riskScore == 0 && a.risk == "low")
  {
    TiersInOrder(critical, abnormal, normal);
  }

  /** Three critical values, or a critical share above 30%, give `high`. */
  lemma HighTier(critical: nat, abnormal: nat, normal: nat)
    ensures Assess(critical, abnormal, normal).risk == "high" <==>
              critical >= 3 || 10 * critical > 3 * (critical + abnormal + normal)
  {
    TiersInOrder(critical, abnormal, normal);
    RatioAbove(critical, critical + abnormal + normal, 0.3);
  }

  /** Any critical value gives at least `moderate` with score 6. */
  lemma AnyCriticalAtLeastModerate(critical: nat, abnormal: nat, normal: nat)
    requires critical >= 1
    ensures Assess(critical, abnormal, normal).riskScore >= 6
    ensures Assess(critical, abnormal, normal).risk in {"high", "moderate"}
  {
    TiersInOrder(critical, abnormal, normal);
  }

  /** Without critical values the score is at most 5: only the attention tiers apply. */
  lemma NoCriticalAtMostFive(abnormal: nat, normal: nat)
    ensures Assess(0, abnormal, normal).riskScore <= 5
  {
    TiersInOrder(0, abnormal, normal);
    RatioAbove(0, abnormal + normal, 0.3);
    RatioAbove(0, abnormal + normal, 0.1);
  }

  /** With nothing classified both ratios are NaN and the risk is `low`. */
  lemma NothingClassifiedIsLow()
    ensures Assess(0, 0, 0) == RiskAssessment("low", 0, NaN, NaN)
  {
    TiersInOrder(0, 0, 0);
  }

  /** One more critical value never lowers the score. */
  lemma MoreCriticalNeverLowers(critical: nat, abnormal: nat, normal: nat)
    ensures Assess(critical + 1, abnormal, normal).riskScore >= Assess(critical, abnormal, normal).riskScore
  {
    var before := Assess(critical, abnormal, normal);
    var after := Assess(critical + 1, abnormal, normal);
    AnyCriticalAtLeastModerate(critical + 1, abnormal, normal);
    if critical == 0 {
      NoCriticalAtMostFive(abnormal, normal);
    } else if before.risk == "high" {
      HighTier(critical, abnormal, normal);
      assert critical + 1 >= 3 || 10 * (critical + 1) > 3 * (critical + 1 + abnormal + normal);
      HighTier(critical + 1, abnormal, normal);
      ScoreNamesRisk(critical + 1, abnormal, normal);
      ScoreNamesRisk(critical, abnormal, normal);
    } else {
      ScoreNamesRisk(critical, abnormal, normal);
      AnyCriticalAtLeastModerate(critical, abnormal, normal);
      assert before.riskScore == 6;
    }
  }

  /** More attention values can lower the risk: they dilute the critical share.
      One critical among three is `high`; one critical among four is `moderate`. */
  lemma MoreAttentionCanLowerRisk()
    ensures Assess(1, 2, 0).risk == "high"
    ensures Assess(1, 3, 0).risk == "moderate" && Assess(1, 3, 0).riskScore == 6
  {
    HighTier(1, 2, 0);
    HighTier(1, 3, 0);
    AnyCriticalAtLeastModerate(1, 3, 0);
    ScoreNamesRisk(1, 3, 0);
  }
}
