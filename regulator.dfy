/**
 * The regulator's overview: per-region figures summed into state-wide
 * totals, the overall compliance rate derived from them, the compliance
 * badges on region and drug rows, and the colour of each alert's severity
 * badge.
 */
module Regulator {
  import opened Types
  import opened Calendar
  import PowerBI

  /** `RegionStats`: one region's farm, violation and treatment figures. */
  datatype RegionStats = RegionStats(
    region: string,
    totalFarms: int,
    activeFarms: int,
    complianceRate: int,
    violations: int,
    totalTreatments: int)

  /** `DrugUsageStats`: one drug's usage and compliance figures. */
  datatype DrugUsageStats = DrugUsageStats(
    drugName: string,
    usageCount: int,
    complianceRate: int,
    violations: int)

  /** `regionStats.reduce((sum, region) => sum + f(region), 0)`, folding from the left. */
  function Sum(rs: seq<RegionStats>, f: RegionStats -> int): int
    decreases |rs|
  {
    if |rs| == 0 then 0 else Sum(rs[..|rs| - 1], f) + f(rs[|rs| - 1])
  }

  /** The four totals of the overview cards. */
  function TotalFarms(rs: seq<RegionStats>): int { Sum(rs, (r: RegionStats) => r.totalFarms) }
  function TotalActiveFarms(rs: seq<RegionStats>): int { Sum(rs, (r: RegionStats) => r.activeFarms) }
  function TotalViolations(rs: seq<RegionStats>): int { Sum(rs, (r: RegionStats) => r.violations) }
  function TotalTreatments(rs: seq<RegionStats>): int { Sum(rs, (r: RegionStats) => r.totalTreatments) }

  /** A sum over two lists of regions is the sum of the two sums. */
  lemma {:induction false} SumAppend(a: seq<RegionStats>, b: seq<RegionStats>, f: RegionStats -> int)
    ensures Sum(a + b, f) == Sum(a, f) + Sum(b, f)
    decreases |b|
  {
    if |b| == 0 {
      assert a + b == a;
    } else {
      var b' := b[..|b| - 1];
      assert (a + b)[..|a + b| - 1] == a + b';
      SumAppend(a, b', f);
    }
  }

  /** A sum is monotone in the summed field. */
  lemma {:induction false} SumMonotone(rs: seq<RegionStats>, f: RegionStats -> int, g: RegionStats -> int)
    requires forall i :: 0 <= i < |rs| ==> f(rs[i]) <= g(rs[i])
    ensures Sum(rs, f) <= Sum(rs, g)
    decreases |rs|
  {
    if |rs| > 0 {
      var init := rs[..|rs| - 1];
      assert forall i :: 0 <= i < |init| ==> init[i] == rs[i];
      SumMonotone(init, f, g);
    }
  }

  /** A sum of non-negative figures is non-negative. */
  lemma {:induction false} SumNonNegative(rs: seq<RegionStats>, f: RegionStats -> int)
    requires forall i :: 0 <= i < |rs| ==> 0 <= f(rs[i])
    ensures 0 <= Sum(rs, f)
    decreases |rs|
  {
    if |rs| > 0 {
      var init := rs[..|rs| - 1];
      assert forall i :: 0 <= i < |init| ==> init[i] == rs[i];
      SumNonNegative(init, f);
    }
  }

  /**
   * `overallComplianceRate`: 0 with no treatments, otherwise the share of
   * treatments without a violation, as a rounded percentage.
   */
  function OverallComplianceRate(rs: seq<RegionStats>): (rate: int)
    ensures TotalTreatments(rs) <= 0 ==> rate == 0
    ensures TotalTreatments(rs) > 0 ==>
      var t := TotalTreatments(rs);
      var ok := t - TotalViolations(rs);
      2 * t * rate - t <= 200 * ok < 2 * t * rate + t
  {
    var t := TotalTreatments(rs);
    if t > 0 then PowerBI.RoundPercent(t - TotalViolations(rs), t) else 0
  }

  /**
   * When no region records negative violations or more violations than
   * treatments, the overall rate is a percentage in [0, 100].
   */
  lemma OverallRateIsPercentage(rs: seq<RegionStats>)
    requires forall i :: 0 <= i < |rs| ==> 0 <= rs[i].violations <= rs[i].totalTreatments
    ensures 0 <= OverallComplianceRate(rs) <= 100
  {
    var v := (r: RegionStats) => r.violations;
    var t := (r: RegionStats) => r.totalTreatments;
    SumNonNegative(rs, v);
    SumMonotone(rs, v, t);
    assert 0 <= TotalViolations(rs) <= TotalTreatments(rs);
  }

  /** A region list with no violations at all has an overall rate of 100 (or 0 with no treatments). */
  lemma NoViolationsFullRate(rs: seq<RegionStats>)
    requires forall i :: 0 <= i < |rs| ==> rs[i].violations == 0
    ensures TotalTreatments(rs) > 0 ==> OverallComplianceRate(rs) == 100
  {
    var v := (r: RegionStats) => r.violations;
    var zero := (r: RegionStats) => 0;
    SumMonotone(rs, v, zero);
    SumMonotone(rs, zero, v);
    SumZero(rs);
    if TotalTreatments(rs) > 0 {
      PowerBI.RoundPercentFull(TotalTreatments(rs));
    }
  }

  /** Summing a constant zero gives zero. */
  lemma {:induction false} SumZero(rs: seq<RegionStats>)
    ensures Sum(rs, (r: RegionStats) => 0) == 0
    decreases |rs|
  {
    if |rs| > 0 {
      SumZero(rs[..|rs| - 1]);
    }
  }

  /** `getSeverityColor`: the badge variant for a severity string. */
  function SeverityColor(severity: string): (variant: string)
    ensures severity == "critical" || severity == "high" ==> variant == "destructive"
    ensures severity == "medium" ==> variant == "default"
    ensures severity == "low" ==> variant == "secondary"
    ensures severity !in {"critical", "high", "medium", "low"} ==> variant == "default"
  {
    if severity == "critical" || severity == "high" then "destructive"
    else if severity == "medium" then "default"
    else if severity == "low" then "secondary"
    else "default"
  }

  /**
   * On the severities an alert can carry, the badge is destructive exactly
   * for high and critical alerts and secondary exactly for low ones.
   */
  lemma SeverityColorOfAlert(s: Severity)
    ensures SeverityColor(SeverityValue(s)) == "destructive" <==> s == High || s == Critical
    ensures SeverityColor(SeverityValue(s)) == "secondary" <==> s == Low
    ensures SeverityColor(SeverityValue(s)) == "default" <==> s == Medium
  {
  }

  /** The region and drug compliance badges: `default` from 90 % up, `secondary` below. */
  function ComplianceBadge(rate: int): (variant: string)
    ensures variant == "default" <==> rate >= 90
    ensures variant == "secondary" <==> rate < 90
  {
    if rate >= 90 then "default" else "secondary"
  }

  /** The "Active Alerts" card counts every listed alert. */
  function ActiveAlertCount(alerts: seq<ComplianceAlert>): (n: nat)
    ensures n == 0 <==> alerts == []
  {
    |alerts|
  }

  /** The alert panel shows "No Active Alerts" instead of the list when there are none. */
  predicate ShowsNoActiveAlerts(alerts: seq<ComplianceAlert>) {
    ActiveAlertCount(alerts) == 0
  }

  /** The mock regions the screen loads. */
  function MockRegionStats(): seq<RegionStats> {
    [ RegionStats("Punjab", 145, 123, 89, 12, 1247),
      RegionStats("Haryana", 98, 87, 92, 7, 856),
      RegionStats("Uttar Pradesh", 234, 198, 85, 23, 2134) ]
  }

  /** The mock drug figures the screen loads. */
  function MockDrugStats(): seq<DrugUsageStats> {
    [ DrugUsageStats("Oxytetracycline", 456, 88, 8),
      DrugUsageStats("Amoxicillin", 324, 94, 3),
      DrugUsageStats("Enrofloxacin", 189, 91, 5) ]
  }

  /** The mock alerts the screen loads. */
  function MockAlerts(): seq<ComplianceAlert> {
    [ ComplianceAlert("1", MrlViolation, High, "Potential MRL Violation",
        "Farm FARM001 may have MRL violation in dairy products", "1", "FARM001",
        DayNumber(2024, 1, 20), false, DayNumber(2024, 1, 18) * DayMs + 10 * 3_600_000),
      ComplianceAlert("2", MissingApproval, Medium, "Missing Veterinary Approval",
        "Treatment at Farm FARM003 lacks veterinary approval", "3", "FARM003",
        DayNumber(2024, 1, 19), false, DayNumber(2024, 1, 17) * DayMs + 14 * 3_600_000 + 30 * 60_000) ]
  }

  /**
   * With the mock data the overview shows 477 farms, 408 active, 42
   * violations in 4237 treatments and an overall rate of 99 %; only Haryana
   * gets the `default` badge, Amoxicillin and Enrofloxacin do among the
   * drugs, and the two alerts are listed with a destructive and a default
   * badge.
   */
  lemma MockOverview()
    ensures TotalFarms(MockRegionStats()) == 477
    ensures TotalActiveFarms(MockRegionStats()) == 408
    ensures TotalViolations(MockRegionStats()) == 42
    ensures TotalTreatments(MockRegionStats()) == 4237
    ensures OverallComplianceRate(MockRegionStats()) == 99
    ensures forall i :: 0 <= i < |MockRegionStats()| ==>
      (ComplianceBadge(MockRegionStats()[i].complianceRate) == "default" <==> MockRegionStats()[i].region == "Haryana")
    ensures forall i :: 0 <= i < |MockDrugStats()| ==>
      (ComplianceBadge(MockDrugStats()[i].complianceRate) == "default" <==> MockDrugStats()[i].drugName != "Oxytetracycline")
    ensures ActiveAlertCount(MockAlerts()) == 2 && !ShowsNoActiveAlerts(MockAlerts())
    ensures SeverityColor(SeverityValue(MockAlerts()[0].severity)) == "destructive"
    ensures SeverityColor(SeverityValue(MockAlerts()[1].severity)) == "default"
  {
    var rs := MockRegionStats();
    assert rs[..|rs| - 1] == rs[..2];
    assert rs[..2][..1] == rs[..1] && rs[..1][..0] == [];
    MockSums(rs, (r: RegionStats) => r.totalFarms);
    MockSums(rs, (r: RegionStats) => r.activeFarms);
    MockSums(rs, (r: RegionStats) => r.violations);
    MockSums(rs, (r: RegionStats) => r.totalTreatments);
  }

  /** A sum over three regions, written out. */
  lemma MockSums(rs: seq<RegionStats>, f: RegionStats -> int)
    requires |rs| == 3
    ensures Sum(rs, f) == f(rs[0]) + f(rs[1]) + f(rs[2])
  {
    assert rs[..2][..|rs[..2]| - 1] == rs[..1];
    assert rs[..1][..0] == [];
    assert Sum(rs[..1], f) == f(rs[0]);
    assert Sum(rs[..2], f) == f(rs[0]) + f(rs[1]);
  }
}
