/**
 * The farmer's home screen: the farm's treatment records and alerts, the two
 * derived lists it shows (active treatments, records awaiting approval), and
 * the add-treatment dialog that appends new records.
 */
module FarmerDashboard {
  import opened Wrappers
  import opened Seqs
  import opened Types
  import opened Calendar
  import AddTreatment
  import TreatmentCardView

  /** `treatments.filter(t => t.status === 'active')` */
  function ActiveTreatments(treatments: seq<TreatmentRecord>): (r: seq<TreatmentRecord>)
    ensures forall j :: 0 <= j < |r| ==> r[j] in treatments && r[j].status == Active
    ensures forall j :: 0 <= j < |treatments| && treatments[j].status == Active ==> treatments[j] in r
  {
    Filter(treatments, (t: TreatmentRecord) => t.status == Active)
  }

  /** `treatments.filter(t => !t.veterinarianApproved)` */
  function PendingApprovals(treatments: seq<TreatmentRecord>): (r: seq<TreatmentRecord>)
    ensures forall j :: 0 <= j < |r| ==> r[j] in treatments && !r[j].veterinarianApproved
    ensures forall j :: 0 <= j < |treatments| && !treatments[j].veterinarianApproved ==> treatments[j] in r
  {
    Filter(treatments, (t: TreatmentRecord) => !t.veterinarianApproved)
  }

  /** The "No Active Treatments" panel replaces the list when nothing is active. */
  predicate ShowsEmptyState(treatments: seq<TreatmentRecord>) {
    |ActiveTreatments(treatments)| == 0
  }

  /** The "Active Alerts" card is rendered only for a non-empty alert list. */
  predicate ShowsAlertsCard(alerts: seq<ComplianceAlert>) {
    |alerts| > 0
  }

  /**
   * The alerts card shows exactly for a non-empty alert list, and with the
   * mock data it shows.
   */
  lemma AlertsCardIffAlerts(alerts: seq<ComplianceAlert>)
    ensures ShowsAlertsCard(alerts) <==> alerts != []
    ensures ShowsAlertsCard(MockAlerts())
  {
  }

  /** An alert's severity badge: destructive for a critical alert, default otherwise. */
  function AlertBadgeVariant(a: ComplianceAlert): (variant: string)
    ensures variant == "destructive" <==> a.severity == Critical
    ensures variant == "default" <==> a.severity != Critical
  {
    if a.severity == Critical then "destructive" else "default"
  }

  /** The empty-state panel shows exactly when no record is active. */
  lemma EmptyStateIffNoneActive(treatments: seq<TreatmentRecord>)
    ensures ShowsEmptyState(treatments) <==> forall j :: 0 <= j < |treatments| ==> treatments[j].status != Active
  {
    if !ShowsEmptyState(treatments) {
      var r := ActiveTreatments(treatments);
      assert r[0] in treatments && r[0].status == Active;
    }
  }

  /**
   * Appending a record extends each derived list at its end, by that record
   * when it qualifies and by nothing otherwise: earlier entries keep their
   * order and nothing else changes.
   */
  lemma AppendExtendsViews(treatments: seq<TreatmentRecord>, t: TreatmentRecord)
    ensures ActiveTreatments(treatments + [t])
         == ActiveTreatments(treatments) + (if t.status == Active then [t] else [])
    ensures PendingApprovals(treatments + [t])
         == PendingApprovals(treatments) + (if !t.veterinarianApproved then [t] else [])
  {
    FilterAppend(treatments, [t], (r: TreatmentRecord) => r.status == Active);
    FilterAppend(treatments, [t], (r: TreatmentRecord) => !r.veterinarianApproved);
  }

  /**
   * A record the dialog creates shows up at the end of both lists, and the
   * empty-state panel is gone once it is added.
   */
  lemma CreatedRecordIsListed(treatments: seq<TreatmentRecord>, form: AddTreatment.FormData, nowMs: int)
    requires IsTimeValue(nowMs)
    requires AddTreatment.SubmitResult(form, nowMs).Created?
    ensures var t := AddTreatment.SubmitResult(form, nowMs).record;
      && ActiveTreatments(treatments + [t]) == ActiveTreatments(treatments) + [t]
      && PendingApprovals(treatments + [t]) == PendingApprovals(treatments) + [t]
      && !ShowsEmptyState(treatments + [t])
  {
    var t := AddTreatment.SubmitResult(form, nowMs).record;
    AddTreatment.SubmitCreatesPendingRecord(form, nowMs);
    AppendExtendsViews(treatments, t);
  }

  /** The mock treatment the screen loads: the cow's oxytetracycline course. */
  function MockTreatments(): seq<TreatmentRecord> {
    [ TreatmentRecord("1", "FARM001", "COW_001", "oxytetracycline", Some(10.0), Some(2), 7,
        "Mastitis treatment",
        DayNumber(2024, 1, 15), DayNumber(2024, 1, 22), DayNumber(2024, 2, 13),
        Active, Pending, false, None, None,
        DayNumber(2024, 1, 15) * DayMs + 8 * 3_600_000, DayNumber(2024, 1, 15) * DayMs + 8 * 3_600_000) ]
  }

  /** The mock alert: the reminder that the withdrawal period ends soon. */
  function MockAlerts(): seq<ComplianceAlert> {
    [ ComplianceAlert("1", WithdrawalReminder, Medium, "Withdrawal Period Ending Soon",
        "Milk from Cow #001 will be safe for sale in 2 days", "1", "FARM001",
        DayNumber(2024, 2, 11), false, DayNumber(2024, 1, 15) * DayMs + 8 * 3_600_000) ]
  }

  /**
   * The mock data agree with the rest of the model: the course ends `duration`
   * days after it starts, its withdrawal ends 22 days later (the table's meat
   * period for oxytetracycline on cattle), and on the alert's due date the
   * card shows the ending-soon warning with 2 days left, as the alert says.
   */
  lemma MockDataConsistent(nowMs: int)
    requires DayOf(nowMs) == MockAlerts()[0].dueDate
    ensures MockTreatments()[0].endDate == MockTreatments()[0].startDate + MockTreatments()[0].duration
    ensures MockTreatments()[0].withdrawalEndDate
         == MockTreatments()[0].endDate + AddTreatment.MeatWithdrawalDays(CommonDrugs[0], "cattle")
    ensures MockAlerts()[0].treatmentId == MockTreatments()[0].id
    ensures TreatmentCardView.EndingSoon(MockTreatments()[0], nowMs)
    ensures TreatmentCardView.BadgeOf(MockTreatments()[0], nowMs) == TreatmentCardView.DaysLeft(2)
  {
    MonthRollover(2024, 1);
    AddTreatment.MeatWithdrawalOfTable(0, Cattle);
    TreatmentCardView.DisplayConditionsByDay(MockTreatments()[0], nowMs);
    TreatmentCardView.BadgeByDay(MockTreatments()[0], nowMs);
  }

  /** `FarmerDashboard`: the farm's records, its alerts and whether the dialog is open. */
  class FarmerDashboard {
    var treatments: seq<TreatmentRecord>
    var alerts: seq<ComplianceAlert>
    var showAddDialog: bool

    constructor ()
      ensures treatments == [] && alerts == [] && !showAddDialog
    {
      treatments := [];
      alerts := [];
      showAddDialog := false;
    }

    /** The mount effect: loads the mock treatment and alert. */
    method LoadMockData()
      modifies this
      ensures treatments == MockTreatments() && alerts == MockAlerts()
      ensures showAddDialog == old(showAddDialog)
    {
      treatments := MockTreatments();
      alerts := MockAlerts();
    }

    /** `setShowAddDialog`: the "Add Treatment" buttons and the dialog's `onOpenChange`. */
    method SetAddDialogOpen(open: bool)
      modifies this
      ensures showAddDialog == open
      ensures treatments == old(treatments) && alerts == old(alerts)
    {
      showAddDialog := open;
    }

    /** `onTreatmentAdded`: appends the new record and closes the dialog. */
    method TreatmentAdded(t: TreatmentRecord)
      modifies this
      ensures treatments == old(treatments) + [t]
      ensures ActiveTreatments(treatments) == ActiveTreatments(old(treatments)) + (if t.status == Active then [t] else [])
      ensures PendingApprovals(treatments) == PendingApprovals(old(treatments)) + (if !t.veterinarianApproved then [t] else [])
      ensures !showAddDialog && alerts == old(alerts)
    {
      AppendExtendsViews(treatments, t);
      treatments := treatments + [t];
      showAddDialog := false;
    }
  }
}
