/**
 * The analytics screen's figures: status and compliance counts with their
 * rounded rates, the per-drug usage tally and the per-farm performance tally,
 * and the colour a farm's compliance rate earns.
 *
 * `Math.round(p / q * 100)` is taken as exact half-up rounding of the
 * rational `100p/q`; floating-point error is not modelled.
 */
module PowerBI {
  import opened Wrappers
  import opened Seqs
  import opened Types

  /** `Math.round((p / q) * 100)` for a positive `q`: the integer nearest `100p/q`, halves rounded up. */
  function RoundPercent(p: int, q: int): (r: int)
    requires q > 0
    ensures 2 * q * r - q <= 200 * p < 2 * q * r + q
    ensures 0 <= p <= q ==> 0 <= r <= 100
  {
    var x, d := 200 * p + q, 2 * q;
    var r, m := x / d, x % d;
    assert x == d * r + m && 0 <= m < d;
    assert 0 <= p <= q ==> 0 <= r <= 100 by {
      if 0 <= p <= q {
        PercentBounds(p, q, r);
      }
    }
    r
  }

  /** A half-up rounding of `100p/q` with `0 <= p <= q` lies in [0, 100]. */
  lemma PercentBounds(p: int, q: int, r: int)
    requires q > 0 && 0 <= p <= q
    requires 2 * q * r - q <= 200 * p < 2 * q * r + q
    ensures 0 <= r <= 100
  {
    PositiveFactor(q, 2 * r + 1);
    PositiveFactor(q, 2 * r - 201);
  }

  /** All out of all is 100 per cent. */
  lemma RoundPercentFull(q: int)
    requires q > 0
    ensures RoundPercent(q, q) == 100
  {
    var r := RoundPercent(q, q);
    PercentBounds(q, q, r);
    PositiveFactor(q, 2 * r - 199);
  }

  /** With a positive factor, a product is positive exactly when the other factor is. */
  lemma PositiveFactor(q: int, k: int)
    requires q > 0
    ensures q * k > 0 <==> k > 0
  {
  }

  /** The number of records in a given treatment status. */
  function StatusCount(ts: seq<TreatmentRecord>, status: TreatmentStatus): nat {
    Count(ts, (t: TreatmentRecord) => t.status == status)
  }

  /** The number of records in a given compliance status. */
  function ComplianceCount(ts: seq<TreatmentRecord>, status: ComplianceStatus): nat {
    Count(ts, (t: TreatmentRecord) => t.complianceStatus == status)
  }

  /** The number of vet-approved records. */
  function ApprovedCount(ts: seq<TreatmentRecord>): nat {
    Count(ts, (t: TreatmentRecord) => t.veterinarianApproved)
  }

  lemma CountsStep(ts: seq<TreatmentRecord>, status: TreatmentStatus, compliance: ComplianceStatus)
    requires |ts| > 0
    ensures StatusCount(ts, status) == (if ts[0].status == status then 1 else 0) + StatusCount(ts[1..], status)
    ensures ComplianceCount(ts, compliance)
         == (if ts[0].complianceStatus == compliance then 1 else 0) + ComplianceCount(ts[1..], compliance)
  {
  }

  /** Every record is in exactly one treatment status and exactly one compliance status. */
  lemma {:induction false} CountsPartition(ts: seq<TreatmentRecord>)
    ensures StatusCount(ts, Active) + StatusCount(ts, Completed) + StatusCount(ts, Withdrawn) == |ts|
    ensures ComplianceCount(ts, Pending) + ComplianceCount(ts, Compliant) + ComplianceCount(ts, Violation) == |ts|
    decreases |ts|
  {
    if |ts| > 0 {
      CountsPartition(ts[1..]);
      CountsStep(ts, Active, Pending);
      CountsStep(ts, Completed, Compliant);
      CountsStep(ts, Withdrawn, Violation);
    }
  }

  /** `analytics`: the counts and rates the screen's cards and pie charts show. */
  datatype Analytics = Analytics(
    total: nat,
    active: nat,
    completed: nat,
    withdrawn: nat,
    pending: nat,
    compliant: nat,
    violations: nat,
    approved: nat,
    complianceRate: int,
    approvalRate: int)

  /** A rate out of `total`: 0 for no records, otherwise the rounded percentage. */
  function Rate(part: nat, total: nat): (r: int)
    requires part <= total
    ensures 0 <= r <= 100
    ensures total == 0 ==> r == 0
    ensures total > 0 ==> 2 * total * r - total <= 200 * part < 2 * total * r + total
  {
    if total > 0 then RoundPercent(part, total) else 0
  }

  /**
   * The figures for a list of records: each count is the number of records
   * in its status, the status counts and the compliance counts each add up
   * to the total, and each rate is 0 for no records and otherwise the
   * rounded percentage of compliant (or approved) records.
   */
  function ComputeAnalytics(ts: seq<TreatmentRecord>): (a: Analytics)
    ensures a.total == |ts|
    ensures a.active == StatusCount(ts, Active) && a.completed == StatusCount(ts, Completed)
         && a.withdrawn == StatusCount(ts, Withdrawn)
    ensures a.pending == ComplianceCount(ts, Pending) && a.compliant == ComplianceCount(ts, Compliant)
         && a.violations == ComplianceCount(ts, Violation)
    ensures a.approved == ApprovedCount(ts)
    ensures a.total > 0 ==>
      2 * a.total * a.complianceRate - a.total <= 200 * a.compliant < 2 * a.total * a.complianceRate + a.total
    ensures a.total > 0 ==>
      2 * a.total * a.approvalRate - a.total <= 200 * a.approved < 2 * a.total * a.approvalRate + a.total
    ensures a.active + a.completed + a.withdrawn == a.total
    ensures a.pending + a.compliant + a.violations == a.total
    ensures a.approved <= a.total
    ensures 0 <= a.complianceRate <= 100 && 0 <= a.approvalRate <= 100
    ensures a.total == 0 ==> a.complianceRate == 0 && a.approvalRate == 0
  {
    CountsPartition(ts);
    var compliant := ComplianceCount(ts, Compliant);
    var approved := ApprovedCount(ts);
    Analytics(
      total := |ts|,
      active := StatusCount(ts, Active),
      completed := StatusCount(ts, Completed),
      withdrawn := StatusCount(ts, Withdrawn),
      pending := ComplianceCount(ts, Pending),
      compliant := compliant,
      violations := ComplianceCount(ts, Violation),
      approved := approved,
      complianceRate := Rate(compliant, |ts|),
      approvalRate := Rate(approved, |ts|))
  }

  /** A list where every record is compliant and approved scores 100 on both rates. */
  lemma AllCompliantScoresFull(ts: seq<TreatmentRecord>)
    requires |ts| > 0
    requires forall j :: 0 <= j < |ts| ==> ts[j].complianceStatus == Compliant && ts[j].veterinarianApproved
    ensures ComputeAnalytics(ts).complianceRate == 100 && ComputeAnalytics(ts).approvalRate == 100
  {
    FilterAll(ts, (t: TreatmentRecord) => t.complianceStatus == Compliant);
    FilterAll(ts, (t: TreatmentRecord) => t.veterinarianApproved);
    assert ComplianceCount(ts, Compliant) == |ts| && ApprovedCount(ts) == |ts|;
    RoundPercentFull(|ts|);
  }

  /** The distinct keys of `keys`, in the order they first appear (a JavaScript object's key order). */
  function FirstSeen(keys: seq<string>): (order: seq<string>)
    ensures forall i, j :: 0 <= i < j < |order| ==> order[i] != order[j]
    ensures forall x :: x in order <==> x in keys
  {
    if |keys| == 0 then []
    else
      var prev := FirstSeen(keys[..|keys| - 1]);
      var last := keys[|keys| - 1];
      if last in prev then prev else prev + [last]
  }

  /** The sum of the multiplicities in `m` of the keys listed in `order`. */
  function SumCounts(order: seq<string>, m: multiset<string>): nat {
    if |order| == 0 then 0 else SumCounts(order[..|order| - 1], m) + m[order[|order| - 1]]
  }

  /** Adding one occurrence of a key raises the sum by one when the key is listed once, and not at all when it is not listed. */
  lemma {:induction false} SumCountsAdd(order: seq<string>, m: multiset<string>, x: string)
    requires forall i, j :: 0 <= i < j < |order| ==> order[i] != order[j]
    ensures SumCounts(order, m + multiset{x}) == SumCounts(order, m) + (if x in order then 1 else 0)
    decreases |order|
  {
    if |order| > 0 {
      var prev := order[..|order| - 1];
      SumCountsAdd(prev, m, x);
      assert x in order <==> x in prev || x == order[|order| - 1];
      if x == order[|order| - 1] {
        assert x !in prev;
      }
    }
  }

  /** Tallying every key under its first appearance accounts for every key exactly once. */
  lemma {:induction false} FirstSeenSum(keys: seq<string>)
    ensures SumCounts(FirstSeen(keys), multiset(keys)) == |keys|
    decreases |keys|
  {
    if |keys| > 0 {
      var p := keys[..|keys| - 1];
      var x := keys[|keys| - 1];
      assert keys == p + [x];
      FirstSeenSum(p);
      var prev := FirstSeen(p);
      SumCountsAdd(prev, multiset(p), x);
      if x !in prev {
        assert x !in p;
        assert multiset(p)[x] == 0;
        assert SumCounts(prev + [x], multiset(keys)) == SumCounts(prev, multiset(keys)) + multiset(keys)[x] by {
          assert (prev + [x])[..|prev|] == prev;
        }
      }
    }
  }

  /** Appending a key extends the first-appearance order by it exactly when it is new. */
  lemma FirstSeenSnoc(keys: seq<string>, x: string)
    ensures FirstSeen(keys + [x]) == if x in FirstSeen(keys) then FirstSeen(keys) else FirstSeen(keys) + [x]
  {
    assert (keys + [x])[..|keys|] == keys;
  }

  /** `drug?.name || 'Unknown'`: the name a record's drug is tallied under. */
  function DrugName(t: TreatmentRecord): (name: string)
    ensures FindDrug(t.drugId).None? ==> name == "Unknown"
    ensures FindDrug(t.drugId).Some? && FindDrug(t.drugId).value.name != "" ==> name == FindDrug(t.drugId).value.name
  {
    match FindDrug(t.drugId)
    case Some(drug) => if drug.name != "" then drug.name else "Unknown"
    case None => "Unknown"
  }

  /** The drug name of every record, in list order. */
  function DrugNames(ts: seq<TreatmentRecord>): (names: seq<string>)
    ensures |names| == |ts| && forall j :: 0 <= j < |ts| ==> names[j] == DrugName(ts[j])
  {
    seq(|ts|, j requires 0 <= j < |ts| => DrugName(ts[j]))
  }

  /** `order` and `counts` are the per-key tally of `keys`: keys by first appearance, and their occurrences. */
  ghost predicate IsTally(keys: seq<string>, order: seq<string>, counts: map<string, nat>) {
    && order == FirstSeen(keys)
    && (forall k :: k in counts <==> k in order)
    && forall k :: k in counts ==> counts[k] == multiset(keys)[k]
  }

  /** Counting one more key: a new key joins the order with a count of one, a known key's count grows by one. */
  lemma IsTallySnoc(keys: seq<string>, order: seq<string>, counts: map<string, nat>, x: string)
    requires IsTally(keys, order, counts)
    ensures x in counts ==> IsTally(keys + [x], order, counts[x := counts[x] + 1])
    ensures x !in counts ==> IsTally(keys + [x], order + [x], counts[x := 1])
  {
    FirstSeenSnoc(keys, x);
    MultisetSnoc(keys, x);
    if x in counts {
      KnownKeySnoc(keys, order, counts, x);
    } else {
      NewKeySnoc(keys, order, counts, x);
    }
  }

  /** One more occurrence of `x` raises its multiplicity by one and no other. */
  lemma MultisetSnoc(keys: seq<string>, x: string)
    ensures multiset(keys + [x])[x] == multiset(keys)[x] + 1
    ensures forall k :: k != x ==> multiset(keys + [x])[k] == multiset(keys)[k]
  {
    assert multiset(keys + [x]) == multiset(keys) + multiset{x};
  }

  /** The counts after a key already tallied. */
  lemma KnownKeySnoc(keys: seq<string>, order: seq<string>, counts: map<string, nat>, x: string)
    requires IsTally(keys, order, counts) && x in counts
    requires FirstSeen(keys + [x]) == order
    requires multiset(keys + [x])[x] == multiset(keys)[x] + 1
    requires forall k :: k != x ==> multiset(keys + [x])[k] == multiset(keys)[k]
    ensures IsTally(keys + [x], order, counts[x := counts[x] + 1])
  {
  }

  /** The order and counts after a key not seen before. */
  lemma NewKeySnoc(keys: seq<string>, order: seq<string>, counts: map<string, nat>, x: string)
    requires IsTally(keys, order, counts) && x !in counts
    requires FirstSeen(keys + [x]) == order + [x]
    requires multiset(keys + [x])[x] == multiset(keys)[x] + 1
    requires forall k :: k != x ==> multiset(keys + [x])[k] == multiset(keys)[k]
    ensures IsTally(keys + [x], order + [x], counts[x := 1])
  {
    assert x !in keys;
    assert multiset(keys)[x] == 0;
  }

  /**
   * The `reduce` that counts records per key into an object: the keys in the
   * order they were first added, and each key's number of occurrences.
   */
  method Tally(keys: seq<string>) returns (order: seq<string>, counts: map<string, nat>)
    ensures order == FirstSeen(keys)
    ensures forall k :: k in counts <==> k in order
    ensures forall k :: k in counts ==> counts[k] == multiset(keys)[k]
  {
    order, counts := [], map[];
    var i := 0;
    while i < |keys|
      invariant 0 <= i <= |keys|
      invariant IsTally(keys[..i], order, counts)
    {
      var key := keys[i];
      assert keys[..i + 1] == keys[..i] + [key];
      IsTallySnoc(keys[..i], order, counts, key);
      if key in counts {
        counts := counts[key := counts[key] + 1];
      } else {
        order := order + [key];
        counts := counts[key := 1];
      }
      i := i + 1;
    }
    assert keys[..i] == keys;
  }

  /** A row of `drugUsageData`. */
  datatype DrugUsageRow = DrugUsageRow(name: string, count: nat, percentage: int)

  /** The row for a key of `names`: its number of occurrences and their share of all entries. */
  function UsageRow(names: seq<string>, name: string): DrugUsageRow
    requires name in names
  {
    var count := multiset(names)[name];
    assert count <= |names| by {
      assert multiset(names)[name] <= |multiset(names)|;
    }
    DrugUsageRow(name, count, RoundPercent(count, |names|))
  }

  /**
   * A drug's row counts the records of that drug, at least one, and its
   * percentage is the share of all records they make, rounded half up.
   */
  lemma UsageRowMeaning(names: seq<string>, name: string)
    requires name in names
    ensures var row := UsageRow(names, name);
      && row.name == name
      && 1 <= row.count == multiset(names)[name] <= |names|
      && 0 <= row.percentage <= 100
      && 2 * |names| * row.percentage - |names| <= 200 * row.count < 2 * |names| * row.percentage + |names|
  {
    assert multiset(names)[name] <= |multiset(names)|;
  }

  /**
   * The `Object.entries(...).map(...)` of `drugUsageData`: the tally of the
   * drug names turned into rows, in the object's key order.
   */
  method UsageRows(names: seq<string>) returns (rows: seq<DrugUsageRow>)
    ensures |rows| == |FirstSeen(names)|
    ensures forall k :: 0 <= k < |rows| ==> rows[k] == UsageRow(names, FirstSeen(names)[k])
  {
    var order, counts := Tally(names);
    rows := [];
    var k := 0;
    while k < |order|
      invariant 0 <= k <= |order|
      invariant |rows| == k
      invariant forall j :: 0 <= j < k ==> rows[j] == UsageRow(names, order[j])
    {
      var name := order[k];
      assert name in counts;
      var count := counts[name];
      rows := rows + [DrugUsageRow(name, count, RoundPercent(count, |names|))];
      k := k + 1;
    }
  }

  /**
   * `drugUsageData`: one row per drug name in order of first use, with the
   * number of records of that drug and its share of all records, rounded.
   */
  method DrugUsageData(ts: seq<TreatmentRecord>) returns (rows: seq<DrugUsageRow>)
    ensures |rows| == |FirstSeen(DrugNames(ts))|
    ensures forall k :: 0 <= k < |rows| ==> rows[k] == UsageRow(DrugNames(ts), FirstSeen(DrugNames(ts))[k])
  {
    rows := UsageRows(DrugNames(ts));
  }

  /** The sum of the counts of a list of usage rows. */
  function UsageTotal(rows: seq<DrugUsageRow>): nat {
    if |rows| == 0 then 0 else UsageTotal(rows[..|rows| - 1]) + rows[|rows| - 1].count
  }

  lemma {:induction false} UsageTotalIsSum(names: seq<string>, rows: seq<DrugUsageRow>, order: seq<string>)
    requires |rows| == |order|
    requires forall k :: 0 <= k < |order| ==> order[k] in names
    requires forall k :: 0 <= k < |rows| ==> rows[k] == UsageRow(names, order[k])
    ensures UsageTotal(rows) == SumCounts(order, multiset(names))
    decreases |rows|
  {
    if |rows| > 0 {
      UsageTotalIsSum(names, rows[..|rows| - 1], order[..|order| - 1]);
    }
  }

  /** The usage rows of a list of names account for every entry exactly once. */
  lemma UsageRowsAccountForAll(names: seq<string>, rows: seq<DrugUsageRow>)
    requires |rows| == |FirstSeen(names)|
    requires forall k :: 0 <= k < |rows| ==> rows[k] == UsageRow(names, FirstSeen(names)[k])
    ensures UsageTotal(rows) == |names|
    ensures forall x :: x in names <==> exists k :: 0 <= k < |rows| && rows[k].name == x
  {
    var order := FirstSeen(names);
    FirstSeenSum(names);
    UsageTotalIsSum(names, rows, order);
    forall x | x in names ensures exists k :: 0 <= k < |rows| && rows[k].name == x {
      var k :| 0 <= k < |order| && order[k] == x;
      assert rows[k].name == x;
    }
  }

  /**
   * The drug-usage rows account for every record exactly once, and a record
   * whose drug is not in the table is counted under "Unknown".
   */
  lemma DrugUsageAccountsForAll(ts: seq<TreatmentRecord>, rows: seq<DrugUsageRow>)
    requires |rows| == |FirstSeen(DrugNames(ts))|
    requires forall k :: 0 <= k < |rows| ==> rows[k] == UsageRow(DrugNames(ts), FirstSeen(DrugNames(ts))[k])
    ensures UsageTotal(rows) == |ts|
    ensures (exists j :: 0 <= j < |ts| && FindDrug(ts[j].drugId).None?) ==>
      exists k :: 0 <= k < |rows| && rows[k].name == "Unknown"
  {
    var names := DrugNames(ts);
    UsageRowsAccountForAll(names, rows);
    if exists j :: 0 <= j < |ts| && FindDrug(ts[j].drugId).None? {
      var j :| 0 <= j < |ts| && FindDrug(ts[j].drugId).None?;
      assert names[j] == "Unknown";
      assert "Unknown" in names;
    }
  }

  /** The farm of every record, in list order. */
  function FarmIds(ts: seq<TreatmentRecord>): (ids: seq<string>)
    ensures |ids| == |ts| && forall j :: 0 <= j < |ts| ==> ids[j] == ts[j].farmId
  {
    seq(|ts|, j requires 0 <= j < |ts| => ts[j].farmId)
  }

  /** The farm of every record in the compliance status `status`, in list order. */
  function FarmIdsWith(ts: seq<TreatmentRecord>, status: ComplianceStatus): (ids: seq<string>)
    ensures |ids| <= |ts|
  {
    if |ts| == 0 then []
    else FarmIdsWith(ts[..|ts| - 1], status)
         + (if ts[|ts| - 1].complianceStatus == status then [ts[|ts| - 1].farmId] else [])
  }

  /** A farm's running tally in the `farmPerformanceData` reduce. */
  datatype FarmTally = FarmTally(total: nat, compliant: nat, violations: nat)

  /** A tally after counting one more record of its farm. */
  function Bump(tally: FarmTally, t: TreatmentRecord): FarmTally {
    FarmTally(tally.total + 1,
              tally.compliant + (if t.complianceStatus == Compliant then 1 else 0),
              tally.violations + (if t.complianceStatus == Violation then 1 else 0))
  }

  /** A farm's tally after the records `ts`, counted one record at a time as the `reduce` does. */
  function TallyOf(ts: seq<TreatmentRecord>, farm: string): FarmTally {
    if |ts| == 0 then FarmTally(0, 0, 0)
    else
      var prev := TallyOf(ts[..|ts| - 1], farm);
      if ts[|ts| - 1].farmId == farm then Bump(prev, ts[|ts| - 1]) else prev
  }

  /**
   * A farm's tally holds its number of records, of compliant records and of
   * violations; the last two together never exceed the first.
   */
  lemma TallyOfMeaning(ts: seq<TreatmentRecord>, farm: string)
    ensures TallyOf(ts, farm) == FarmTally(multiset(FarmIds(ts))[farm],
                                           multiset(FarmIdsWith(ts, Compliant))[farm],
                                           multiset(FarmIdsWith(ts, Violation))[farm])
    ensures TallyOf(ts, farm).compliant + TallyOf(ts, farm).violations <= TallyOf(ts, farm).total
  {
    TallyTotal(ts, farm);
    TallyByStatus(ts, farm, Compliant);
    TallyByStatus(ts, farm, Violation);
    TallyBounded(ts, farm);
  }

  lemma {:induction false} TallyTotal(ts: seq<TreatmentRecord>, farm: string)
    ensures TallyOf(ts, farm).total == multiset(FarmIds(ts))[farm]
    decreases |ts|
  {
    if |ts| > 0 {
      var p := ts[..|ts| - 1];
      TallyTotal(p, farm);
      assert FarmIds(ts) == FarmIds(p) + [ts[|ts| - 1].farmId];
    }
  }

  lemma {:induction false} TallyByStatus(ts: seq<TreatmentRecord>, farm: string, status: ComplianceStatus)
    requires status != Pending
    ensures multiset(FarmIdsWith(ts, status))[farm]
         == if status == Compliant then TallyOf(ts, farm).compliant else TallyOf(ts, farm).violations
    decreases |ts|
  {
    if |ts| > 0 {
      TallyByStatus(ts[..|ts| - 1], farm, status);
    }
  }

  lemma {:induction false} TallyBounded(ts: seq<TreatmentRecord>, farm: string)
    ensures TallyOf(ts, farm).compliant + TallyOf(ts, farm).violations <= TallyOf(ts, farm).total
    decreases |ts|
  {
    if |ts| > 0 {
      TallyBounded(ts[..|ts| - 1], farm);
    }
  }

  /** A farm with no records has an empty tally. */
  lemma {:induction false} TallyOfAbsent(ts: seq<TreatmentRecord>, farm: string)
    requires farm !in FarmIds(ts)
    ensures TallyOf(ts, farm) == FarmTally(0, 0, 0)
    decreases |ts|
  {
    if |ts| > 0 {
      var p := ts[..|ts| - 1];
      assert FarmIds(ts) == FarmIds(p) + [ts[|ts| - 1].farmId];
      TallyOfAbsent(p, farm);
    }
  }

  /** A farm with a record has counted at least one. */
  lemma {:induction false} TallyOfPresent(ts: seq<TreatmentRecord>, farm: string)
    requires farm in FarmIds(ts)
    ensures TallyOf(ts, farm).total >= 1
    decreases |ts|
  {
    var p := ts[..|ts| - 1];
    assert FarmIds(ts) == FarmIds(p) + [ts[|ts| - 1].farmId];
    if ts[|ts| - 1].farmId != farm {
      TallyOfPresent(p, farm);
    }
  }

  /** `order` and `acc` are the per-farm tallies of `ts`: farms by first appearance, and their counts. */
  ghost predicate IsFarmTally(ts: seq<TreatmentRecord>, order: seq<string>, acc: map<string, FarmTally>) {
    && order == FirstSeen(FarmIds(ts))
    && (forall f :: f in acc <==> f in order)
    && forall f :: f in acc ==> acc[f] == TallyOf(ts, f)
  }

  /** One more record: its farm's tally takes one step, every other farm's stays. */
  lemma TallyOfSnoc(ts: seq<TreatmentRecord>, t: TreatmentRecord)
    ensures FarmIds(ts + [t]) == FarmIds(ts) + [t.farmId]
    ensures forall f :: TallyOf(ts + [t], f) == if f == t.farmId then Bump(TallyOf(ts, f), t) else TallyOf(ts, f)
  {
    assert (ts + [t])[..|ts|] == ts;
    assert FarmIds(ts + [t]) == FarmIds(ts) + [t.farmId];
  }

  /** Counting one more record: a new farm joins the order, and the record's farm's tally takes one step. */
  lemma IsFarmTallySnoc(ts: seq<TreatmentRecord>, order: seq<string>, acc: map<string, FarmTally>, t: TreatmentRecord)
    requires IsFarmTally(ts, order, acc)
    ensures t.farmId in acc ==> IsFarmTally(ts + [t], order, acc[t.farmId := Bump(acc[t.farmId], t)])
    ensures t.farmId !in acc ==> IsFarmTally(ts + [t], order + [t.farmId], acc[t.farmId := Bump(FarmTally(0, 0, 0), t)])
  {
    TallyOfSnoc(ts, t);
    FirstSeenSnoc(FarmIds(ts), t.farmId);
    if t.farmId in acc {
      KnownFarmSnoc(ts, order, acc, t);
    } else {
      TallyOfAbsent(ts, t.farmId);
      NewFarmSnoc(ts, order, acc, t);
    }
  }

  /** The tallies after a record of a farm already counted. */
  lemma KnownFarmSnoc(ts: seq<TreatmentRecord>, order: seq<string>, acc: map<string, FarmTally>, t: TreatmentRecord)
    requires IsFarmTally(ts, order, acc) && t.farmId in acc
    requires FirstSeen(FarmIds(ts + [t])) == order
    requires forall f :: TallyOf(ts + [t], f) == if f == t.farmId then Bump(TallyOf(ts, f), t) else TallyOf(ts, f)
    ensures IsFarmTally(ts + [t], order, acc[t.farmId := Bump(acc[t.farmId], t)])
  {
  }

  /** The order and tallies after a record of a farm not seen before. */
  lemma NewFarmSnoc(ts: seq<TreatmentRecord>, order: seq<string>, acc: map<string, FarmTally>, t: TreatmentRecord)
    requires IsFarmTally(ts, order, acc) && t.farmId !in acc
    requires FirstSeen(FarmIds(ts + [t])) == order + [t.farmId]
    requires TallyOf(ts, t.farmId) == FarmTally(0, 0, 0)
    requires forall f :: TallyOf(ts + [t], f) == if f == t.farmId then Bump(TallyOf(ts, f), t) else TallyOf(ts, f)
    ensures IsFarmTally(ts + [t], order + [t.farmId], acc[t.farmId := Bump(FarmTally(0, 0, 0), t)])
  {
  }

  /** `IsFarmTallySnoc` stated over the state a loop step leaves behind: one more record of `ts` counted. */
  lemma FarmTallyStep(ts: seq<TreatmentRecord>, i: int, order: seq<string>, acc: map<string, FarmTally>,
                      order': seq<string>, acc': map<string, FarmTally>)
    requires 0 <= i < |ts|
    requires IsFarmTally(ts[..i], order, acc)
    requires order' == if ts[i].farmId in acc then order else order + [ts[i].farmId]
    requires acc' == acc[ts[i].farmId := Bump(if ts[i].farmId in acc then acc[ts[i].farmId] else FarmTally(0, 0, 0), ts[i])]
    ensures IsFarmTally(ts[..i + 1], order', acc')
  {
    assert ts[..i + 1] == ts[..i] + [ts[i]];
    IsFarmTallySnoc(ts[..i], order, acc, ts[i]);
  }

  /** Nothing counted yet: no farms and no tallies. */
  lemma FarmTallyStart(ts: seq<TreatmentRecord>)
    ensures IsFarmTally(ts[..0], [], map[])
  {
    assert ts[..0] == [];
  }

  /**
   * The `reduce` of `farmPerformanceData`: the farms in order of first
   * appearance and, for each, its number of records, of compliant records and
   * of violations.
   */
  method FarmTallies(ts: seq<TreatmentRecord>) returns (order: seq<string>, acc: map<string, FarmTally>)
    ensures order == FirstSeen(FarmIds(ts))
    ensures forall f :: f in acc <==> f in order
    ensures forall f :: f in acc ==> acc[f] == TallyOf(ts, f)
  {
    order, acc := [], map[];
    var i := 0;
    FarmTallyStart(ts);
    while i < |ts|
      invariant 0 <= i <= |ts|
      invariant IsFarmTally(ts[..i], order, acc)
    {
      ghost var order0, acc0 := order, acc;
      order, acc := CountRecord(order, acc, ts[i]);
      FarmTallyStep(ts, i, order0, acc0, order, acc);
      i := i + 1;
    }
    assert ts[..i] == ts;
  }

  /**
   * The `reduce` callback: opens an empty tally for a farm not seen yet, then
   * counts the record in its farm's tally.
   */
  method CountRecord(order: seq<string>, acc: map<string, FarmTally>, t: TreatmentRecord)
    returns (order': seq<string>, acc': map<string, FarmTally>)
    ensures order' == if t.farmId in acc then order else order + [t.farmId]
    ensures acc' == acc[t.farmId := Bump(if t.farmId in acc then acc[t.farmId] else FarmTally(0, 0, 0), t)]
  {
    order', acc' := order, acc;
    if t.farmId !in acc' {
      order' := order' + [t.farmId];
      acc' := acc'[t.farmId := FarmTally(0, 0, 0)];
    }
    var tally := acc'[t.farmId];
    tally := tally.(total := tally.total + 1);
    if t.complianceStatus == Compliant {
      tally := tally.(compliant := tally.compliant + 1);
    }
    if t.complianceStatus == Violation {
      tally := tally.(violations := tally.violations + 1);
    }
    acc' := acc'[t.farmId := tally];
  }

  /** A row of `farmPerformanceData`. */
  datatype FarmRow = FarmRow(farmId: string, total: nat, compliant: nat, violations: nat, complianceRate: int)

  /** The row `farmPerformanceData` holds for a farm of `ts`: its tally and its compliance rate. */
  function FarmRowOf(ts: seq<TreatmentRecord>, farm: string): FarmRow
    requires farm in FarmIds(ts)
  {
    var tally := TallyOf(ts, farm);
    TallyOfPresent(ts, farm);
    FarmRow(farm, tally.total, tally.compliant, tally.violations, RoundPercent(tally.compliant, tally.total))
  }

  /**
   * A farm's row counts its records (at least one), its compliant records and
   * its violations, the last two at most the first, and its compliance rate
   * is the compliant share rounded half up, a percentage.
   */
  lemma FarmRowMeaning(ts: seq<TreatmentRecord>, farm: string)
    requires farm in FarmIds(ts)
    ensures var row := FarmRowOf(ts, farm);
      && row.farmId == farm
      && row.total == multiset(FarmIds(ts))[farm] >= 1
      && row.compliant == multiset(FarmIdsWith(ts, Compliant))[farm]
      && row.violations == multiset(FarmIdsWith(ts, Violation))[farm]
      && row.compliant + row.violations <= row.total
      && 0 <= row.complianceRate <= 100
      && 2 * row.total * row.complianceRate - row.total <= 200 * row.compliant
                                                      < 2 * row.total * row.complianceRate + row.total
  {
    TallyOfMeaning(ts, farm);
  }

  /**
   * `farmPerformanceData`: one row per farm in order of first appearance,
   * with its number of records, how many of them are compliant and how many
   * are violations, and its compliance rate, rounded.
   */
  method FarmPerformanceData(ts: seq<TreatmentRecord>) returns (rows: seq<FarmRow>)
    ensures |rows| == |FirstSeen(FarmIds(ts))|
    ensures forall k :: 0 <= k < |rows| ==> rows[k] == FarmRowOf(ts, FirstSeen(FarmIds(ts))[k])
  {
    var order, acc := FarmTallies(ts);
    rows := [];
    var k := 0;
    while k < |order|
      invariant 0 <= k <= |order|
      invariant |rows| == k
      invariant forall j :: 0 <= j < k ==> rows[j] == FarmRowOf(ts, order[j])
    {
      var farm := order[k];
      assert farm in acc;
      var tally := acc[farm];
      TallyOfPresent(ts, farm);
      rows := rows + [FarmRow(farm, tally.total, tally.compliant, tally.violations,
                              RoundPercent(tally.compliant, tally.total))];
      k := k + 1;
    }
  }

  /** The sum of the totals of a list of farm rows. */
  function FarmTotal(rows: seq<FarmRow>): nat {
    if |rows| == 0 then 0 else FarmTotal(rows[..|rows| - 1]) + rows[|rows| - 1].total
  }

  lemma {:induction false} FarmTotalIsSum(ts: seq<TreatmentRecord>, rows: seq<FarmRow>, order: seq<string>)
    requires |rows| == |order|
    requires forall k :: 0 <= k < |order| ==> order[k] in FarmIds(ts)
    requires forall k :: 0 <= k < |rows| ==> rows[k] == FarmRowOf(ts, order[k])
    ensures FarmTotal(rows) == SumCounts(order, multiset(FarmIds(ts)))
    decreases |rows|
  {
    if |rows| > 0 {
      FarmTotalIsSum(ts, rows[..|rows| - 1], order[..|order| - 1]);
      TallyOfMeaning(ts, order[|order| - 1]);
    }
  }

  /** The farm totals add up to the number of records. */
  lemma FarmTotalsAccountForAll(ts: seq<TreatmentRecord>, rows: seq<FarmRow>)
    requires |rows| == |FirstSeen(FarmIds(ts))|
    requires forall k :: 0 <= k < |rows| ==> rows[k] == FarmRowOf(ts, FirstSeen(FarmIds(ts))[k])
    ensures FarmTotal(rows) == |ts|
  {
    var ids := FarmIds(ts);
    FirstSeenSum(ids);
    FarmTotalIsSum(ts, rows, FirstSeen(ids));
  }

  /** `COLORS.success`, `COLORS.warning` and `COLORS.danger`. */
  const SuccessColor := "#10b981"
  const WarningColor := "#f59e0b"
  const DangerColor := "#ef4444"

  /** A farm card's side stripe: green from 90, amber from 70, red below. */
  function FarmColor(complianceRate: int): (color: string)
    ensures color == SuccessColor <==> complianceRate >= 90
    ensures color == WarningColor <==> 70 <= complianceRate < 90
    ensures color == DangerColor <==> complianceRate < 70
  {
    if complianceRate >= 90 then SuccessColor
    else if complianceRate >= 70 then WarningColor
    else DangerColor
  }
}
