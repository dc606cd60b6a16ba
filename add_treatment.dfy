/**
 * The "add treatment" dialog: the form a farmer fills in, the withdrawal
 * panel it shows, dictation into the purpose field, and the submit handler
 * that turns the form into a new treatment record.
 */
module AddTreatment {
  import opened Wrappers
  import opened Types
  import opened JsText
  import opened Calendar
  import opened Language

  /** `formData`: the seven text fields of the form. */
  datatype FormData = FormData(
    animalTagId: string,
    species: string,
    drugId: string,
    dosage: string,
    frequency: string,
    duration: string,
    purpose: string)

  /** The form as it starts and as a successful submit leaves it. */
  const EmptyForm := FormData("", "", "", "", "", "", "")

  /** No drug in the table has an empty id, so the empty form selects none. */
  lemma EmptyFormSelectsNoDrug()
    ensures FindDrug(EmptyForm.drugId) == None
  {
    assert CommonDrugs[0].id != "" && CommonDrugs[1].id != "" && CommonDrugs[2].id != "";
  }

  /** The fields the user edits directly; the drug is chosen through `SelectDrug`. */
  datatype Field = AnimalTagIdField | SpeciesField | DosageField | FrequencyField | DurationField | PurposeField

  /** The submit guard: a required field (tag, species, drug, dosage) is empty. */
  predicate MissingRequired(form: FormData) {
    form.animalTagId == "" || form.species == "" || form.drugId == "" || form.dosage == ""
  }

  /** The farm every record created by the dialog belongs to. */
  const DialogFarmId := "FARM001"

  /** The withdrawal period the submit handler uses when the entry is missing or zero. */
  const DefaultWithdrawalDays := 14

  /**
   * `drug.withdrawalPeriods[species]?.meat || 14`: the meat period of the
   * entry the species names, or 14 days when there is no such entry or its
   * meat period is 0. The milk and egg periods are never consulted.
   */
  function MeatWithdrawalDays(drug: Drug, species: string): (days: int)
    ensures days != 0
    ensures days == DefaultWithdrawalDays
         || (ParseSpecies(species).Some? && ParseSpecies(species).value in drug.withdrawalPeriods
             && days == drug.withdrawalPeriods[ParseSpecies(species).value].meat)
    ensures ParseSpecies(species).None? ==> days == DefaultWithdrawalDays
    ensures ParseSpecies(species).Some? && ParseSpecies(species).value in drug.withdrawalPeriods
         && drug.withdrawalPeriods[ParseSpecies(species).value].meat != 0
         ==> days == drug.withdrawalPeriods[ParseSpecies(species).value].meat
    ensures ParseSpecies(species).Some?
         && (ParseSpecies(species).value !in drug.withdrawalPeriods
             || drug.withdrawalPeriods[ParseSpecies(species).value].meat == 0)
         ==> days == DefaultWithdrawalDays
  {
    match ParseSpecies(species)
    case None => DefaultWithdrawalDays
    case Some(s) =>
      if s in drug.withdrawalPeriods && drug.withdrawalPeriods[s].meat != 0
      then drug.withdrawalPeriods[s].meat
      else DefaultWithdrawalDays
  }

  /** For the drugs and species the form offers, the period used is the table's own meat period. */
  lemma MeatWithdrawalOfTable(i: nat, s: Species)
    requires i < |CommonDrugs|
    ensures MeatWithdrawalDays(CommonDrugs[i], SpeciesValue(s)) == CommonDrugs[i].withdrawalPeriods[s].meat
  {
    CommonDrugsWellFormed();
    ParseSpeciesValue(s);
  }

  /** Oxytetracycline and amoxicillin on cattle: 22 and 14 meat days. */
  lemma MeatWithdrawalFigures()
    ensures MeatWithdrawalDays(CommonDrugs[0], "cattle") == 22
    ensures MeatWithdrawalDays(CommonDrugs[1], "cattle") == 14
  {
    assert MeatWithdrawalDays(CommonDrugs[0], "cattle") == 22 by { MeatWithdrawalOfTable(0, Cattle); }
    assert MeatWithdrawalDays(CommonDrugs[1], "cattle") == 14 by { MeatWithdrawalOfTable(1, Cattle); }
  }

  /**
   * `getWithdrawalInfo()`: the selected drug's entry for the chosen species,
   * or nothing when no drug is selected, no species is chosen or the drug's
   * table has no entry for it.
   */
  function WithdrawalInfo(selectedDrug: Option<Drug>, species: string): (r: Option<Periods>)
    ensures r.Some? <==> selectedDrug.Some? && species != "" && ParseSpecies(species).Some?
                         && ParseSpecies(species).value in selectedDrug.value.withdrawalPeriods
    ensures r.Some? ==> r.value == selectedDrug.value.withdrawalPeriods[ParseSpecies(species).value]
  {
    if selectedDrug.None? || species == "" then None
    else match ParseSpecies(species)
      case None => None
      case Some(s) =>
        if s in selectedDrug.value.withdrawalPeriods then Some(selectedDrug.value.withdrawalPeriods[s]) else None
  }

  /**
   * With a table drug selected and an offered species chosen, the panel always
   * appears, with a milk line exactly for cattle, buffalo and goat and an egg
   * line exactly for poultry.
   */
  lemma WithdrawalInfoOfTable(i: nat, s: Species)
    requires i < |CommonDrugs|
    ensures WithdrawalInfo(Some(CommonDrugs[i]), SpeciesValue(s)).Some?
    ensures WithdrawalInfo(Some(CommonDrugs[i]), SpeciesValue(s)).value.milk.Some? <==> GivesMilk(s)
    ensures WithdrawalInfo(Some(CommonDrugs[i]), SpeciesValue(s)).value.egg.Some? <==> s == Poultry
  {
    CommonDrugsWellFormed();
    ParseSpeciesValue(s);
    assert WellFormedPeriods(CommonDrugs[i]);
  }

  /** `speechLang`: Telugu speech for the Telugu interface, Indian English otherwise. */
  function SpeechLang(lang: Lang): (tag: string)
    ensures tag == "te-IN" <==> lang == Te
    ensures tag == "en-IN" <==> lang != Te
  {
    if lang == Te then "te-IN" else "en-IN"
  }

  /**
   * The `onresult` update of `purpose`: the transcript after one space, or the
   * transcript alone when the purpose was empty.
   */
  function AppendTranscript(purpose: string, transcript: string): (r: string)
    ensures purpose == "" ==> r == transcript
    ensures purpose != "" ==> |r| == |purpose| + 1 + |transcript|
    ensures purpose != "" ==> r[..|purpose|] == purpose && r[|purpose|] == ' ' && r[|purpose| + 1..] == transcript
  {
    if purpose != "" then purpose + " " + transcript else transcript
  }

  /** What `handleSubmit` did: refused, returned early, threw, or created a record. */
  datatype SubmitOutcome =
    | MissingFields             // a required field is empty: a notice, nothing else
    | UnknownDrug               // no drug has the chosen id: silent return
    | InvalidDate               // `toISOString` throws on a NaN or out-of-range date
    | Created(record: TreatmentRecord)

  /**
   * What `handleSubmit` does with `form` at the instant `nowMs` (every
   * `Date.now()` it reads): checks the required fields, looks the drug up,
   * ends the course `duration` days after today and the withdrawal period the
   * drug's meat period (or 14 days) after that, and builds the new record.
   */
  function SubmitResult(form: FormData, nowMs: int): (outcome: SubmitOutcome)
    requires IsTimeValue(nowMs)
    ensures outcome == MissingFields <==> MissingRequired(form)
    ensures outcome == UnknownDrug <==> !MissingRequired(form) && FindDrug(form.drugId).None?
    ensures outcome.Created? ==>
      && FindDrug(form.drugId).Some?
      && Some(outcome.record.duration) == ParseInt(form.duration)
      && outcome.record.startDate == DayOf(nowMs)
      && outcome.record.endDate == outcome.record.startDate + outcome.record.duration
      && outcome.record.withdrawalEndDate
         == outcome.record.endDate + MeatWithdrawalDays(FindDrug(form.drugId).value, form.species)
  {
    if MissingRequired(form) then MissingFields
    else
      var duration := ParseInt(form.duration);
      var drug := FindDrug(form.drugId);
      if drug.None? then UnknownDrug
      else
        if duration.None? then InvalidDate
        else Schedule(form, nowMs, duration.value, MeatWithdrawalDays(drug.value, form.species))
  }

  /**
   * The dates of `handleSubmit` once the duration is read: the course ends
   * `duration` days after `nowMs` and the withdrawal period `withdrawalDays`
   * days after that; either end outside the `Date` range makes
   * `toISOString` throw, and otherwise the record is built.
   */
  function Schedule(form: FormData, nowMs: int, duration: int, withdrawalDays: int): (outcome: SubmitOutcome)
    requires IsTimeValue(nowMs)
    ensures outcome == InvalidDate <==>
      !IsTimeValue(nowMs + duration * DayMs) || !IsTimeValue(nowMs + duration * DayMs + withdrawalDays * DayMs)
    ensures outcome != InvalidDate ==> outcome == Created(NewRecord(form, nowMs, duration, withdrawalDays))
  {
    var endMs := nowMs + duration * DayMs;
    var withdrawalEndMs := endMs + withdrawalDays * DayMs;
    if !IsTimeValue(endMs) || !IsTimeValue(withdrawalEndMs) then InvalidDate
    else Created(NewRecord(form, nowMs, duration, withdrawalDays))
  }

  /**
   * The record `handleSubmit` builds once the course of `duration` days and
   * the withdrawal period of `withdrawalDays` days after it are known to end
   * inside the `Date` range.
   */
  function NewRecord(form: FormData, nowMs: int, duration: int, withdrawalDays: int): (r: TreatmentRecord)
    requires IsTimeValue(nowMs)
    requires IsTimeValue(nowMs + duration * DayMs)
    requires IsTimeValue(nowMs + duration * DayMs + withdrawalDays * DayMs)
    ensures r.duration == duration
    ensures r.startDate == DayOf(nowMs)
    ensures r.endDate == r.startDate + duration
    ensures r.withdrawalEndDate == r.endDate + withdrawalDays
  {
    var endMs := nowMs + duration * DayMs;
    var withdrawalEndMs := endMs + withdrawalDays * DayMs;
    DayOfShift(nowMs, duration);
    DayOfShift(endMs, withdrawalDays);
    TreatmentRecord(
      id := IntToString(nowMs),
      farmId := DialogFarmId,
      animalId := form.animalTagId,
      drugId := form.drugId,
      dosage := ParseFloat(form.dosage),
      frequency := ParseInt(form.frequency),
      duration := duration,
      purpose := form.purpose,
      startDate := DayOf(nowMs),
      endDate := DayOf(endMs),
      withdrawalEndDate := DayOf(withdrawalEndMs),
      status := Active,
      complianceStatus := Pending,
      veterinarianApproved := false,
      veterinarianId := None,
      veterinarianNotes := None,
      createdAt := nowMs,
      updatedAt := nowMs)
  }

  /**
   * The submit throws exactly when, past the guards, the duration is not a
   * number or the end or withdrawal-end date falls outside the `Date` range.
   */
  lemma SubmitInvalidDateIff(form: FormData, nowMs: int)
    requires IsTimeValue(nowMs)
    ensures SubmitResult(form, nowMs) == InvalidDate <==>
      && !MissingRequired(form) && FindDrug(form.drugId).Some?
      && (|| ParseInt(form.duration).None?
          || !IsTimeValue(nowMs + ParseInt(form.duration).value * DayMs)
          || !IsTimeValue(nowMs + ParseInt(form.duration).value * DayMs
                                + MeatWithdrawalDays(FindDrug(form.drugId).value, form.species) * DayMs))
  {
  }

  /**
   * Every record the dialog creates is an active course on FARM001, awaiting
   * compliance review and veterinary approval, stamped with the submit instant,
   * whose id reads back as that instant and whose text fields are the form's.
   */
  lemma SubmitCreatesPendingRecord(form: FormData, nowMs: int)
    requires IsTimeValue(nowMs)
    requires SubmitResult(form, nowMs).Created?
    ensures var r := SubmitResult(form, nowMs).record;
      && ParseInt(r.id) == Some(nowMs)
      && r.farmId == DialogFarmId
      && r.animalId == form.animalTagId && r.drugId == form.drugId && r.purpose == form.purpose
      && r.status == Active && r.complianceStatus == Pending && !r.veterinarianApproved
      && r.veterinarianId.None? && r.veterinarianNotes.None?
      && r.createdAt == nowMs && r.updatedAt == nowMs
  {
    ParseIntOfIntToString(nowMs);
  }

  /**
   * The withdrawal period of a created record ends strictly after the course
   * does: a table drug's meat period is at least a day, and the fallback is 14.
   */
  lemma SubmitWithdrawalAfterEnd(form: FormData, nowMs: int)
    requires IsTimeValue(nowMs)
    requires SubmitResult(form, nowMs).Created?
    ensures SubmitResult(form, nowMs).record.withdrawalEndDate > SubmitResult(form, nowMs).record.endDate
  {
    var drug := FindDrug(form.drugId).value;
    var i :| 0 <= i < |CommonDrugs| && CommonDrugs[i] == drug;
    CommonDrugsWellFormed();
  }

  /**
   * A dosage typed as a whole number is stored as that number, and a non-negative
   * duration puts the withdrawal end at least a day past the start of the course.
   */
  lemma SubmitReadsNumbers(form: FormData, nowMs: int, dose: int, days: nat)
    requires IsTimeValue(nowMs)
    requires form.dosage == IntToString(dose) && form.duration == IntToString(days)
    requires SubmitResult(form, nowMs).Created?
    ensures SubmitResult(form, nowMs).record.dosage == Some(dose as real)
    ensures SubmitResult(form, nowMs).record.duration == days
    ensures SubmitResult(form, nowMs).record.endDate == DayOf(nowMs) + days
  {
    ParseFloatOfIntToString(dose);
    ParseIntOfIntToString(days);
  }

  /** `AddTreatmentDialog`: the form state and its handlers. */
  class AddTreatmentDialog {
    var form: FormData
    var selectedDrug: Option<Drug>

    /** The selected drug is always the table entry for the form's drug id. */
    ghost predicate Valid()
      reads this
    {
      selectedDrug == FindDrug(form.drugId)
    }

    constructor ()
      ensures Valid()
      ensures form == EmptyForm && selectedDrug == None
    {
      form := EmptyForm;
      selectedDrug := None;
      EmptyFormSelectsNoDrug();
    }

    /** An `onChange`/`onValueChange` of one of the directly edited fields. */
    method Edit(field: Field, value: string)
      requires Valid()
      modifies this
      ensures Valid()
      ensures selectedDrug == old(selectedDrug)
      ensures form == match field
        case AnimalTagIdField => old(form).(animalTagId := value)
        case SpeciesField => old(form).(species := value)
        case DosageField => old(form).(dosage := value)
        case FrequencyField => old(form).(frequency := value)
        case DurationField => old(form).(duration := value)
        case PurposeField => old(form).(purpose := value)
    {
      match field
      case AnimalTagIdField => form := form.(animalTagId := value);
      case SpeciesField => form := form.(species := value);
      case DosageField => form := form.(dosage := value);
      case FrequencyField => form := form.(frequency := value);
      case DurationField => form := form.(duration := value);
      case PurposeField => form := form.(purpose := value);
    }

    /** `handleDrugSelect`: records the drug id and the matching table entry, if any. */
    method SelectDrug(drugId: string)
      modifies this
      ensures Valid()
      ensures selectedDrug == FindDrug(drugId)
      ensures form == old(form).(drugId := drugId)
    {
      selectedDrug := FindDrug(drugId);
      form := form.(drugId := drugId);
    }

    /** `recognition.onresult`: appends the recognised transcript to the purpose. */
    method Dictate(transcript: string)
      requires Valid()
      modifies this
      ensures Valid()
      ensures selectedDrug == old(selectedDrug)
      ensures form == old(form).(purpose := AppendTranscript(old(form).purpose, transcript))
    {
      form := form.(purpose := AppendTranscript(form.purpose, transcript));
    }

    /**
     * `handleSubmit` at the instant `nowMs`: reports the outcome and, when a
     * record was created (and handed to `onTreatmentAdded`), clears the form and
     * the selected drug; otherwise the dialog is left as it was.
     */
    method Submit(nowMs: int) returns (outcome: SubmitOutcome)
      requires Valid() && IsTimeValue(nowMs)
      modifies this
      ensures Valid()
      ensures outcome == SubmitResult(old(form), nowMs)
      ensures outcome.Created? ==> form == EmptyForm && selectedDrug == None
      ensures !outcome.Created? ==> form == old(form) && selectedDrug == old(selectedDrug)
    {
      outcome := SubmitResult(form, nowMs);
      if outcome.Created? {
        form := EmptyForm;
        selectedDrug := None;
        EmptyFormSelectsNoDrug();
      }
    }
  }
}
