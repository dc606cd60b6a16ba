/**
 * The treatment card: the whole-day differences between a record's three
 * dates and today, the clamped withdrawal progress, the three display
 * conditions that depend on the days left, the species the card infers from
 * the animal's tag, and the colour of the compliance badge.
 *
 * The stored dates are UTC day numbers, so `new Date(d).getTime()` is
 * `d * DayMs`; "today" is the instant `nowMs`.
 */
module TreatmentCardView {
  import opened Wrappers
  import opened Seqs
  import opened Types
  import opened JsText
  import opened Calendar

  /** `Math.ceil(diffMs / (1000 * 60 * 60 * 24))` on a whole number of milliseconds. */
  function CeilDays(diffMs: int): (days: int)
    ensures (days - 1) * DayMs < diffMs <= days * DayMs
  {
    var q, r := (-diffMs) / DayMs, (-diffMs) % DayMs;
    assert -diffMs == q * DayMs + r && 0 <= r < DayMs;
    -q
  }

  /** The number of whole days from one stored date to another: exactly their difference. */
  function DaysBetween(fromDay: int, toDay: int): (days: int)
    ensures days == toDay - fromDay
  {
    var d := CeilDays(toDay * DayMs - fromDay * DayMs);
    assert toDay * DayMs - fromDay * DayMs == (toDay - fromDay) * DayMs;
    d
  }

  /** `treatmentDays`: the length of the course in days. */
  function TreatmentDays(t: TreatmentRecord): (days: int)
    ensures days == t.endDate - t.startDate
  {
    DaysBetween(t.startDate, t.endDate)
  }

  /** `withdrawalDays`: the length of the withdrawal period in days. */
  function WithdrawalDays(t: TreatmentRecord): (days: int)
    ensures days == t.withdrawalEndDate - t.endDate
  {
    DaysBetween(t.endDate, t.withdrawalEndDate)
  }

  /**
   * `daysUntilWithdrawalEnd`: whole days from the instant `nowMs` to the
   * midnight that ends the withdrawal period, rounded up, which is the
   * difference between that date and today's UTC date.
   */
  function DaysUntilWithdrawalEnd(t: TreatmentRecord, nowMs: int): (days: int)
    ensures days == t.withdrawalEndDate - DayOf(nowMs)
  {
    var today, sinceMidnight := nowMs / DayMs, nowMs % DayMs;
    assert nowMs == today * DayMs + sinceMidnight && 0 <= sinceMidnight < DayMs;
    assert t.withdrawalEndDate * DayMs - nowMs == (t.withdrawalEndDate - today) * DayMs - sinceMidnight;
    CeilDays(t.withdrawalEndDate * DayMs - nowMs)
  }

  /** `Math.max(0, Math.min(100, x))` on a number. */
  function Clamp(x: real): (r: real)
    ensures 0.0 <= r <= 100.0
    ensures 0.0 <= x <= 100.0 ==> r == x
    ensures x < 0.0 ==> r == 0.0
    ensures x > 100.0 ==> r == 100.0
  {
    if x < 0.0 then 0.0 else if x > 100.0 then 100.0 else x
  }

  /**
   * `withdrawalProgress` from `withdrawalDays` and `daysUntilWithdrawalEnd`:
   * the share of the withdrawal period already served, clamped to [0, 100].
   * A zero-day period divides by zero: a non-zero numerator gives an infinity
   * the clamp turns into 0 or 100, and a zero one gives `NaN` (None).
   */
  function Progress(withdrawalDays: int, daysLeft: int): (p: Option<real>)
    ensures p.Some? ==> 0.0 <= p.value <= 100.0
    ensures p.None? <==> withdrawalDays == 0 && daysLeft == 0
  {
    if withdrawalDays == 0 then
      if daysLeft > 0 then Some(0.0)
      else if daysLeft < 0 then Some(100.0)
      else None
    else
      Some(Clamp((withdrawalDays - daysLeft) as real / withdrawalDays as real * 100.0))
  }

  /** The progress of a card for `t` seen at the instant `nowMs`. */
  function WithdrawalProgress(t: TreatmentRecord, nowMs: int): Option<real> {
    Progress(WithdrawalDays(t), DaysUntilWithdrawalEnd(t, nowMs))
  }

  lemma ProgressNotStarted(withdrawalDays: int, daysLeft: int)
    requires withdrawalDays > 0 && daysLeft >= withdrawalDays
    ensures Progress(withdrawalDays, daysLeft) == Some(0.0)
  {
    var x := (withdrawalDays - daysLeft) as real;
    var w := withdrawalDays as real;
    assert x <= 0.0 && w > 0.0;
    assert x / w <= 0.0;
  }

  lemma ProgressFinished(withdrawalDays: int, daysLeft: int)
    requires withdrawalDays > 0 && daysLeft <= 0
    ensures Progress(withdrawalDays, daysLeft) == Some(100.0)
  {
    var x := (withdrawalDays - daysLeft) as real;
    var w := withdrawalDays as real;
    assert x >= w && w > 0.0;
    assert x / w >= 1.0;
  }

  lemma ProgressServing(withdrawalDays: int, daysLeft: int)
    requires 0 < daysLeft < withdrawalDays
    ensures Progress(withdrawalDays, daysLeft)
         == Some((withdrawalDays - daysLeft) as real / withdrawalDays as real * 100.0)
    ensures 0.0 < Progress(withdrawalDays, daysLeft).value < 100.0
  {
    var x := (withdrawalDays - daysLeft) as real;
    var w := withdrawalDays as real;
    assert 0.0 < x < w;
    assert 0.0 < x / w < 1.0;
  }

  /**
   * For a withdrawal period of at least a day, the progress is 0 up to and
   * including the day the course ends, 100 from the day the period ends, and
   * strictly in between, growing linearly with today's date, during the period.
   */
  lemma WithdrawalProgressByDay(t: TreatmentRecord, nowMs: int)
    requires t.withdrawalEndDate > t.endDate
    ensures DayOf(nowMs) <= t.endDate ==> WithdrawalProgress(t, nowMs) == Some(0.0)
    ensures DayOf(nowMs) >= t.withdrawalEndDate ==> WithdrawalProgress(t, nowMs) == Some(100.0)
    ensures t.endDate < DayOf(nowMs) < t.withdrawalEndDate ==>
      WithdrawalProgress(t, nowMs)
      == Some((DayOf(nowMs) - t.endDate) as real / (t.withdrawalEndDate - t.endDate) as real * 100.0)
    ensures WithdrawalProgress(t, nowMs).Some?
  {
    var wd, du := WithdrawalDays(t), DaysUntilWithdrawalEnd(t, nowMs);
    if DayOf(nowMs) <= t.endDate {
      ProgressNotStarted(wd, du);
    } else if DayOf(nowMs) >= t.withdrawalEndDate {
      ProgressFinished(wd, du);
    } else {
      ProgressServing(wd, du);
      assert wd - du == DayOf(nowMs) - t.endDate;
    }
  }

  /** The withdrawal badge: `${n} days left` or `Complete`. */
  datatype WithdrawalBadge = DaysLeft(n: int) | Complete

  function BadgeOf(t: TreatmentRecord, nowMs: int): WithdrawalBadge {
    var days := DaysUntilWithdrawalEnd(t, nowMs);
    if days > 0 then DaysLeft(days) else Complete
  }

  /** The badge counts days exactly while today is before the withdrawal end date, and counts the right number. */
  lemma BadgeByDay(t: TreatmentRecord, nowMs: int)
    ensures BadgeOf(t, nowMs).DaysLeft? <==> DayOf(nowMs) < t.withdrawalEndDate
    ensures BadgeOf(t, nowMs).DaysLeft? ==> BadgeOf(t, nowMs).n == t.withdrawalEndDate - DayOf(nowMs) > 0
    ensures BadgeOf(t, nowMs) == Complete <==> DayOf(nowMs) >= t.withdrawalEndDate
  {
  }

  /** The "Withdrawal Period Ending Soon" alert condition. */
  predicate EndingSoon(t: TreatmentRecord, nowMs: int) {
    var days := DaysUntilWithdrawalEnd(t, nowMs);
    days <= 2 && days > 0
  }

  /** The "Mark Safe for Sale" button condition. */
  predicate SafeForSale(t: TreatmentRecord, nowMs: int) {
    DaysUntilWithdrawalEnd(t, nowMs) <= 0 && t.veterinarianApproved
  }

  /**
   * The alert shows on the last two days of the withdrawal period only; the
   * button shows from its end date on, and only for an approved treatment.
   * The two never show together, and the button only beside a Complete badge.
   */
  lemma DisplayConditionsByDay(t: TreatmentRecord, nowMs: int)
    ensures EndingSoon(t, nowMs) <==> t.withdrawalEndDate - 2 <= DayOf(nowMs) < t.withdrawalEndDate
    ensures SafeForSale(t, nowMs) <==> DayOf(nowMs) >= t.withdrawalEndDate && t.veterinarianApproved
    ensures !(EndingSoon(t, nowMs) && SafeForSale(t, nowMs))
    ensures SafeForSale(t, nowMs) ==> BadgeOf(t, nowMs) == Complete
    ensures EndingSoon(t, nowMs) ==> BadgeOf(t, nowMs).DaysLeft?
  {
  }

  /** The species option value the tag suggests: `cow`, then `buf`, then `goat`, else cattle. */
  function InferredValue(animalId: string): (v: string)
    ensures v in {"cattle", "buffalo", "goat"}
  {
    var tag := ToLowerCase(animalId);
    if Includes(tag, "cow") then "cattle"
    else if Includes(tag, "buf") then "buffalo"
    else if Includes(tag, "goat") then "goat"
    else "cattle"
  }

  /** `species`: the entry of `SPECIES_OPTIONS` the card shows for the animal. */
  function InferSpecies(animalId: string): (r: Option<SpeciesOption>)
    ensures r.Some? ==> r.value in SpeciesOptions && r.value.value == InferredValue(animalId)
  {
    var target := InferredValue(animalId);
    Find(SpeciesOptions, (s: SpeciesOption) => s.value == target)
  }

  /**
   * The card always finds a species, and it is cattle, buffalo or goat: the
   * first of `cow`, `buf`, `goat` the lower-cased tag contains decides, and a
   * tag with none of them is taken for cattle.
   */
  lemma InferSpeciesRules(animalId: string)
    ensures InferSpecies(animalId).Some?
    ensures var tag := ToLowerCase(animalId);
      && (Includes(tag, "cow") ==> InferSpecies(animalId).value == SpeciesOptions[0])
      && (!Includes(tag, "cow") && Includes(tag, "buf") ==> InferSpecies(animalId).value == SpeciesOptions[1])
      && (!Includes(tag, "cow") && !Includes(tag, "buf") && Includes(tag, "goat")
          ==> InferSpecies(animalId).value == SpeciesOptions[2])
      && (!Includes(tag, "cow") && !Includes(tag, "buf") && !Includes(tag, "goat")
          ==> InferSpecies(animalId).value == SpeciesOptions[0])
  {
    var target := InferredValue(animalId);
    var k := if target == "cattle" then 0 else if target == "buffalo" then 1 else 2;
    assert SpeciesOptions[k].value == target;
    var r := InferSpecies(animalId);
    assert r.Some?;
    assert r.value == SpeciesOptions[k] by {
      forall j | 0 <= j < |SpeciesOptions| && SpeciesOptions[j].value == target
        ensures j == k
      {
      }
    }
  }

  /** The case of the tag does not matter: "BUF-7" reads as a buffalo, "Cow-12" as cattle. */
  lemma InferSpeciesExamples()
    ensures InferSpecies("BUF-7") == Some(SpeciesOptions[1])
    ensures InferSpecies("Cow-12") == Some(SpeciesOptions[0])
  {
    var buf := ToLowerCase("BUF-7");
    assert buf == "buf-7";
    assert OccursAt(buf, "buf", 0);
    assert !Includes(buf, "cow") by {
      forall i | 0 <= i <= |buf| - 3 ensures !OccursAt(buf, "cow", i) {
        assert buf[i] != 'c';
      }
    }
    InferSpeciesRules("BUF-7");
    var cow := ToLowerCase("Cow-12");
    assert cow == "cow-12";
    assert OccursAt(cow, "cow", 0);
    InferSpeciesRules("Cow-12");
  }

  /** `drug?.name || 'Unknown Drug'`: the card's title. */
  function DrugTitle(drugId: string): (title: string)
    ensures FindDrug(drugId).None? ==> title == "Unknown Drug"
    ensures FindDrug(drugId).Some? && FindDrug(drugId).value.name != "" ==> title == FindDrug(drugId).value.name
  {
    match FindDrug(drugId)
    case Some(drug) => if drug.name != "" then drug.name else "Unknown Drug"
    case None => "Unknown Drug"
  }

  /** A record of a table drug is titled with that drug's name. */
  lemma DrugTitleOfTable(i: nat)
    requires i < |CommonDrugs|
    ensures DrugTitle(CommonDrugs[i].id) == CommonDrugs[i].name
  {
    FindDrugById(i);
  }

  /** `getStatusColor()`: the badge variant for a compliance status. */
  function StatusColor(status: ComplianceStatus): (variant: string)
    ensures variant == "success" <==> status == Compliant
    ensures variant == "destructive" <==> status == Violation
    ensures variant == "default" <==> status == Pending
  {
    match status
    case Compliant => "success"
    case Violation => "destructive"
    case _ => "default"
  }
}
