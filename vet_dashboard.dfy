/**
 * The veterinarian's review screen: treatments waiting for review, the ones
 * already approved, the treatment under review and the notes being written
 * for it. Approving moves a record from one list to the other; rejecting
 * drops it, and needs notes.
 */
module VetDashboard {
  import opened Wrappers
  import opened Seqs
  import opened Types
  import opened JsText
  import opened Calendar
  import AddTreatment

  /** No two records of `s` share an id. */
  predicate UniqueIds(s: seq<TreatmentRecord>) {
    forall i, j :: 0 <= i < j < |s| ==> s[i].id != s[j].id
  }

  /** Some record of `s` has the id `id`. */
  predicate HasId(s: seq<TreatmentRecord>, id: string) {
    exists k :: 0 <= k < |s| && s[k].id == id
  }

  /** `s.find(t => t.id === id)` */
  function FindById(s: seq<TreatmentRecord>, id: string): (r: Option<TreatmentRecord>)
    ensures r.Some? <==> HasId(s, id)
    ensures r.Some? ==> r.value in s && r.value.id == id
  {
    Find(s, (t: TreatmentRecord) => t.id == id)
  }

  /** `s.filter(t => t.id !== id)` */
  function Without(s: seq<TreatmentRecord>, id: string): (r: seq<TreatmentRecord>)
    ensures forall j :: 0 <= j < |r| ==> r[j] in s && r[j].id != id
    ensures forall j :: 0 <= j < |s| && s[j].id != id ==> s[j] in r
    ensures |r| <= |s|
  {
    Filter(s, (t: TreatmentRecord) => t.id != id)
  }

  /** Removing an id no record has leaves the list as it was. */
  lemma WithoutAbsent(s: seq<TreatmentRecord>, id: string)
    requires !HasId(s, id)
    ensures Without(s, id) == s
  {
    FilterAll(s, (t: TreatmentRecord) => t.id != id);
  }

  /** Removing an id that occurs exactly once drops exactly that one record. */
  lemma {:induction false} WithoutUnique(s: seq<TreatmentRecord>, id: string)
    requires UniqueIds(s) && HasId(s, id)
    ensures |Without(s, id)| == |s| - 1
    decreases |s|
  {
    var tail := s[1..];
    assert UniqueIds(tail) by {
      forall i, j | 0 <= i < j < |tail| ensures tail[i].id != tail[j].id {
        assert tail[i] == s[i + 1] && tail[j] == s[j + 1];
      }
    }
    if s[0].id == id {
      assert !HasId(tail, id) by {
        forall k | 0 <= k < |tail| ensures tail[k].id != id {
          assert tail[k] == s[k + 1];
        }
      }
      WithoutAbsent(tail, id);
    } else {
      var k :| 0 <= k < |s| && s[k].id == id;
      assert tail[k - 1] == s[k];
      WithoutUnique(tail, id);
    }
  }

  /** Removing records keeps the remaining ids distinct. */
  lemma {:induction false} WithoutKeepsUnique(s: seq<TreatmentRecord>, id: string)
    requires UniqueIds(s)
    ensures UniqueIds(Without(s, id))
    decreases |s|
  {
    if |s| > 0 {
      var tail := s[1..];
      assert UniqueIds(tail) by {
        forall i, j | 0 <= i < j < |tail| ensures tail[i].id != tail[j].id {
          assert tail[i] == s[i + 1] && tail[j] == s[j + 1];
        }
      }
      WithoutKeepsUnique(tail, id);
      var rest := Without(tail, id);
      assert Without(s, id) == (if s[0].id != id then [s[0]] else []) + rest;
      forall j | 0 <= j < |rest| ensures rest[j].id != s[0].id {
        var k :| 0 <= k < |tail| && tail[k] == rest[j];
        assert tail[k] == s[k + 1];
      }
    }
  }

  /**
   * The record `handleApprove` puts on the approved list: the pending one,
   * approved and compliant, signed with the veterinarian's id and notes and
   * stamped with the approval instant.
   */
  function Approved(t: TreatmentRecord, vetId: Option<string>, notes: string, nowMs: int): (a: TreatmentRecord)
    ensures a.veterinarianApproved && a.complianceStatus == Compliant
    ensures a.veterinarianId == vetId && a.veterinarianNotes == Some(notes) && a.updatedAt == nowMs
    ensures a.(veterinarianApproved := t.veterinarianApproved, complianceStatus := t.complianceStatus,
               veterinarianId := t.veterinarianId, veterinarianNotes := t.veterinarianNotes,
               updatedAt := t.updatedAt) == t
  {
    t.(veterinarianApproved := true, veterinarianId := vetId, veterinarianNotes := Some(notes),
       complianceStatus := Compliant, updatedAt := nowMs)
  }

  /** `showActions && !treatment.veterinarianApproved`: whether a card offers "Review & Approve". */
  predicate ShowsReviewAction(showActions: bool, t: TreatmentRecord) {
    showActions && !t.veterinarianApproved
  }

  /** The two mock treatments waiting for review when the screen opens. */
  function MockPending(): seq<TreatmentRecord> {
    [ TreatmentRecord("1", "FARM001", "COW_001", "oxytetracycline", Some(10.0), Some(2), 7,
        "Mastitis treatment",
        DayNumber(2024, 1, 15), DayNumber(2024, 1, 22), DayNumber(2024, 2, 13),
        Active, Pending, false, None, None,
        DayNumber(2024, 1, 15) * DayMs + 8 * 3_600_000, DayNumber(2024, 1, 15) * DayMs + 8 * 3_600_000),
      TreatmentRecord("2", "FARM002", "BUF_005", "amoxicillin", Some(15.0), Some(3), 5,
        "Respiratory infection",
        DayNumber(2024, 1, 16), DayNumber(2024, 1, 21), DayNumber(2024, 2, 4),
        Active, Pending, false, None, None,
        DayNumber(2024, 1, 16) * DayMs + 10 * 3_600_000, DayNumber(2024, 1, 16) * DayMs + 10 * 3_600_000) ]
  }

  /**
   * The mock records keep the dialog's date rule: each withdrawal ends the
   * drug's meat period for the animal's species after the course (22 days
   * for oxytetracycline on a cow, 14 for amoxicillin on a buffalo), across
   * the January-February month boundary.
   */
  lemma MockPendingDates()
    ensures MockPending()[0].withdrawalEndDate
         == MockPending()[0].endDate + AddTreatment.MeatWithdrawalDays(CommonDrugs[0], "cattle")
    ensures MockPending()[1].withdrawalEndDate
         == MockPending()[1].endDate + AddTreatment.MeatWithdrawalDays(CommonDrugs[1], "buffalo")
  {
    MonthRollover(2024, 1);
    assert MockPending()[0].withdrawalEndDate == MockPending()[0].endDate + 22;
    assert MockPending()[1].withdrawalEndDate == MockPending()[1].endDate + 14;
    AddTreatment.MeatWithdrawalOfTable(0, Cattle);
    AddTreatment.MeatWithdrawalOfTable(1, Buffalo);
  }

  /** Each mock course ends `duration` days after it starts. */
  lemma MockPendingCourses()
    ensures forall k :: 0 <= k < |MockPending()| ==>
      MockPending()[k].endDate == MockPending()[k].startDate + MockPending()[k].duration
  {
  }

  /** The mock records name the table's first two drugs. */
  lemma MockPendingDrugs()
    ensures FindDrug(MockPending()[0].drugId) == Some(CommonDrugs[0])
    ensures FindDrug(MockPending()[1].drugId) == Some(CommonDrugs[1])
  {
    FindDrugById(0);
    FindDrugById(1);
  }

  /** The mock records have distinct ids and none is approved yet. */
  lemma MockPendingValid()
    ensures UniqueIds(MockPending())
    ensures forall k :: 0 <= k < |MockPending()| ==> !MockPending()[k].veterinarianApproved
  {
  }

  /** `VeterinarianDashboard`: the review lists and the review panel's state. */
  class VeterinarianDashboard {
    var pending: seq<TreatmentRecord>
    var approved: seq<TreatmentRecord>
    var selected: Option<TreatmentRecord>
    var notes: string
    /** `user?.id` of the signed-in veterinarian. */
    const vetId: Option<string>

    /**
     * Every record appears once across both lists, everything waiting for
     * review is unapproved and everything approved is approved.
     */
    ghost predicate Valid()
      reads this
    {
      && UniqueIds(pending + approved)
      && (forall k :: 0 <= k < |pending| ==> !pending[k].veterinarianApproved)
      && (forall k :: 0 <= k < |approved| ==> approved[k].veterinarianApproved)
    }

    /** The screen before its effect runs: empty lists, nothing selected, no notes. */
    constructor (vetId: Option<string>)
      ensures Valid()
      ensures pending == [] && approved == [] && selected == None && notes == ""
      ensures this.vetId == vetId
    {
      pending := [];
      approved := [];
      selected := None;
      notes := "";
      this.vetId := vetId;
    }

    /** The mount effect: loads the mock treatments waiting for review. */
    method LoadMockData()
      requires Valid() && approved == []
      modifies this
      ensures Valid()
      ensures pending == MockPending()
      ensures approved == old(approved) && selected == old(selected) && notes == old(notes)
    {
      MockPendingValid();
      assert MockPending() + approved == MockPending();
      pending := MockPending();
    }

    /**
     * `handleApprove`: when a pending record has the id, moves its approved
     * copy to the end of the approved list, and clears the selection and the
     * notes; otherwise nothing changes.
     */
    method Approve(id: string, nowMs: int)
      requires Valid()
      modifies this
      ensures Valid()
      ensures !HasId(old(pending), id) ==>
        pending == old(pending) && approved == old(approved) && selected == old(selected) && notes == old(notes)
      ensures HasId(old(pending), id) ==>
        && pending == Without(old(pending), id)
        && approved == old(approved) + [Approved(FindById(old(pending), id).value, vetId, old(notes), nowMs)]
        && selected == None && notes == ""
    {
      var found := FindById(pending, id);
      if found.None? {
        return;
      }
      var record := Approved(found.value, vetId, notes, nowMs);
      ApproveKeepsValid(pending, approved, found.value, record);
      pending := Without(pending, id);
      approved := approved + [record];
      selected := None;
      notes := "";
    }

    /**
     * `handleReject`: with blank notes, nothing changes (a notice asks for
     * them); otherwise drops every pending record with the id and clears the
     * selection and the notes. The approved list is never touched.
     */
    method Reject(id: string)
      requires Valid()
      modifies this
      ensures Valid()
      ensures approved == old(approved)
      ensures IsBlank(old(notes)) ==> pending == old(pending) && selected == old(selected) && notes == old(notes)
      ensures !IsBlank(old(notes)) ==> pending == Without(old(pending), id) && selected == None && notes == ""
    {
      if IsBlank(notes) {
        return;
      }
      RejectKeepsValid(pending, approved, id);
      pending := Without(pending, id);
      selected := None;
      notes := "";
    }

    /** "Review & Approve": opens the review panel for a treatment. */
    method SelectForReview(t: TreatmentRecord)
      requires Valid()
      modifies this
      ensures Valid()
      ensures selected == Some(t)
      ensures pending == old(pending) && approved == old(approved) && notes == old(notes)
    {
      selected := Some(t);
    }

    /** The notes box's `onChange`. */
    method EditNotes(value: string)
      requires Valid()
      modifies this
      ensures Valid()
      ensures notes == value
      ensures pending == old(pending) && approved == old(approved) && selected == old(selected)
    {
      notes := value;
    }

    /** "Cancel": closes the review panel and discards the notes. */
    method Cancel()
      requires Valid()
      modifies this
      ensures Valid()
      ensures selected == None && notes == ""
      ensures pending == old(pending) && approved == old(approved)
    {
      selected := None;
      notes := "";
    }
  }

  /** Moving a pending record's approved copy to the approved list keeps the lists' invariant. */
  lemma ApproveKeepsValid(pending: seq<TreatmentRecord>, approved: seq<TreatmentRecord>,
                          t: TreatmentRecord, a: TreatmentRecord)
    requires UniqueIds(pending + approved)
    requires forall k :: 0 <= k < |approved| ==> approved[k].veterinarianApproved
    requires forall k :: 0 <= k < |pending| ==> !pending[k].veterinarianApproved
    requires t in pending && a.id == t.id && a.veterinarianApproved
    ensures UniqueIds(Without(pending, t.id) + (approved + [a]))
    ensures forall k :: 0 <= k < |Without(pending, t.id)| ==> !Without(pending, t.id)[k].veterinarianApproved
    ensures forall k :: 0 <= k < |approved + [a]| ==> (approved + [a])[k].veterinarianApproved
  {
    var both := pending + approved;
    var rest: seq<TreatmentRecord> := Without(pending, t.id);
    var after: seq<TreatmentRecord> := approved + [a];
    assert UniqueIds(pending) by {
      forall i, j | 0 <= i < j < |pending| ensures pending[i].id != pending[j].id {
        assert pending[i] == both[i] && pending[j] == both[j];
      }
    }
    WithoutKeepsUnique(pending, t.id);
    var p :| 0 <= p < |pending| && pending[p] == t;
    assert forall m :: 0 <= m < |approved| ==> approved[m].id != t.id by {
      forall m | 0 <= m < |approved| ensures approved[m].id != t.id {
        assert both[p] == t && both[|pending| + m] == approved[m];
      }
    }
    forall i, j | 0 <= i < j < |rest + after| ensures (rest + after)[i].id != (rest + after)[j].id {
      var all := rest + after;
      if j < |rest| {
      } else if i >= |rest| {
        if j - |rest| < |approved| {
          assert all[i] == both[|pending| + (i - |rest|)] && all[j] == both[|pending| + (j - |rest|)];
        }
      } else {
        var k :| 0 <= k < |pending| && pending[k] == rest[i];
        if j - |rest| < |approved| {
          assert all[i] == both[k] && all[j] == both[|pending| + (j - |rest|)];
        }
      }
    }
    forall k | 0 <= k < |rest| ensures !rest[k].veterinarianApproved {
      var m :| 0 <= m < |pending| && pending[m] == rest[k];
    }
  }

  /** Dropping pending records keeps the lists' invariant. */
  lemma RejectKeepsValid(pending: seq<TreatmentRecord>, approved: seq<TreatmentRecord>, id: string)
    requires UniqueIds(pending + approved)
    requires forall k :: 0 <= k < |pending| ==> !pending[k].veterinarianApproved
    ensures UniqueIds(Without(pending, id) + approved)
    ensures forall k :: 0 <= k < |Without(pending, id)| ==> !Without(pending, id)[k].veterinarianApproved
  {
    var both := pending + approved;
    var rest: seq<TreatmentRecord> := Without(pending, id);
    assert UniqueIds(pending) by {
      forall i, j | 0 <= i < j < |pending| ensures pending[i].id != pending[j].id {
        assert pending[i] == both[i] && pending[j] == both[j];
      }
    }
    WithoutKeepsUnique(pending, id);
    forall i, j | 0 <= i < j < |rest + approved|
      ensures (rest + approved)[i].id != (rest + approved)[j].id
    {
      var all := rest + approved;
      if j < |rest| {
      } else if i >= |rest| {
        assert all[i] == both[|pending| + (i - |rest|)] && all[j] == both[|pending| + (j - |rest|)];
      } else {
        var k :| 0 <= k < |pending| && pending[k] == rest[i];
        assert all[i] == both[k] && all[j] == both[|pending| + (j - |rest|)];
      }
    }
    forall k | 0 <= k < |rest| ensures !rest[k].veterinarianApproved {
      var m :| 0 <= m < |pending| && pending[m] == rest[k];
    }
  }

  /**
   * With distinct ids, approving a pending record moves it without losing or
   * duplicating anything: the two lists together keep their length.
   */
  lemma ApprovePreservesTotal(pending: seq<TreatmentRecord>, approved: seq<TreatmentRecord>,
                              id: string, a: TreatmentRecord)
    requires UniqueIds(pending) && HasId(pending, id)
    ensures |Without(pending, id)| + |approved + [a]| == |pending| + |approved|
  {
    WithoutUnique(pending, id);
  }

  /**
   * Under the screen's invariant, every card on the pending tab offers the
   * review action and no card on the approved tab (shown without actions) does.
   */
  lemma ReviewActionPlacement(pending: seq<TreatmentRecord>, approved: seq<TreatmentRecord>)
    requires forall k :: 0 <= k < |pending| ==> !pending[k].veterinarianApproved
    requires forall k :: 0 <= k < |approved| ==> approved[k].veterinarianApproved
    ensures forall k :: 0 <= k < |pending| ==> ShowsReviewAction(true, pending[k])
    ensures forall k :: 0 <= k < |approved| ==> !ShowsReviewAction(false, approved[k])
    ensures forall k :: 0 <= k < |approved| ==> !ShowsReviewAction(true, approved[k])
  {
  }
}
