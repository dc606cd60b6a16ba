/**
 * The shared domain types: species, the drug reference table with its
 * per-species withdrawal periods, treatment records and compliance alerts.
 */
module Types {
  import opened Wrappers
  import opened Seqs

  /** `Animal.species` */
  datatype Species = Cattle | Buffalo | Goat | Sheep | Poultry | Pig

  /** The six species, in the order of the `withdrawalPeriods` keys. */
  const AllSpecies: seq<Species> := [Cattle, Buffalo, Goat, Sheep, Poultry, Pig]

  /** How the source spells a species, as an object key and as a form value. */
  function SpeciesValue(s: Species): string {
    match s
    case Cattle => "cattle"
    case Buffalo => "buffalo"
    case Goat => "goat"
    case Sheep => "sheep"
    case Poultry => "poultry"
    case Pig => "pig"
  }

  lemma AllSpeciesListed(s: Species)
    ensures s in AllSpecies
  {
  }

  /** The species a string names, if it names one (the key `withdrawalPeriods[value]` reads). */
  function ParseSpecies(v: string): (r: Option<Species>)
    ensures r.Some? ==> SpeciesValue(r.value) == v
    ensures r.None? ==> forall s :: SpeciesValue(s) != v
  {
    match FirstIndex(AllSpecies, s => SpeciesValue(s) == v)
    case None =>
      assert forall s :: SpeciesValue(s) != v by {
        forall s ensures SpeciesValue(s) != v {
          AllSpeciesListed(s);
        }
      }
      None
    case Some(k) => Some(AllSpecies[k])
  }

  /** Every species is read back from its own spelling. */
  lemma ParseSpeciesValue(s: Species)
    ensures ParseSpecies(SpeciesValue(s)) == Some(s)
  {
    var r := ParseSpecies(SpeciesValue(s));
    assert r.Some?;
    assert SpeciesValue(r.value) == SpeciesValue(s);
  }

  /**
   * One species' entry in a drug's `withdrawalPeriods`, in days. Every entry
   * has `meat`; `milk` and `egg` are present only for some species.
   */
  datatype Periods = Periods(milk: Option<int>, meat: int, egg: Option<int>)

  function MilkMeat(milk: int, meat: int): Periods { Periods(Some(milk), meat, None) }
  function MeatOnly(meat: int): Periods { Periods(None, meat, None) }
  function EggMeat(egg: int, meat: int): Periods { Periods(None, meat, Some(egg)) }

  datatype DrugCategory = Antibiotic | Antifungal | Antiparasitic | AntiInflammatory

  datatype Drug = Drug(
    id: string,
    name: string,
    activeIngredient: string,
    category: DrugCategory,
    withdrawalPeriods: map<Species, Periods>,
    maxResidueLimit: real)

  /** `COMMON_DRUGS`: the reference table of drugs offered by the treatment form. */
  const CommonDrugs: seq<Drug> := [
    Drug("oxytetracycline", "Oxytetracycline", "Oxytetracycline HCl", Antibiotic,
      map[Cattle := MilkMeat(4, 22), Buffalo := MilkMeat(4, 22), Goat := MilkMeat(4, 14),
          Sheep := MeatOnly(14), Poultry := EggMeat(7, 5), Pig := MeatOnly(22)],
      0.1),
    Drug("amoxicillin", "Amoxicillin", "Amoxicillin Trihydrate", Antibiotic,
      map[Cattle := MilkMeat(3, 14), Buffalo := MilkMeat(3, 14), Goat := MilkMeat(3, 7),
          Sheep := MeatOnly(7), Poultry := EggMeat(0, 1), Pig := MeatOnly(14)],
      0.05),
    Drug("enrofloxacin", "Enrofloxacin", "Enrofloxacin", Antibiotic,
      map[Cattle := MilkMeat(5, 14), Buffalo := MilkMeat(5, 14), Goat := MilkMeat(5, 10),
          Sheep := MeatOnly(10), Poultry := EggMeat(10, 10), Pig := MeatOnly(14)],
      0.1)
  ]

  /** The species whose entries carry a milk period. */
  predicate GivesMilk(s: Species) {
    s == Cattle || s == Buffalo || s == Goat
  }

  /**
   * The shape the `Drug` type fixes for `withdrawalPeriods`: an entry for every
   * species, milk exactly for cattle, buffalo and goat, egg exactly for poultry,
   * and every period a non-negative whole number of days.
   */
  predicate WellFormedPeriods(drug: Drug) {
    forall s :: s in drug.withdrawalPeriods
      && (drug.withdrawalPeriods[s].milk.Some? <==> GivesMilk(s))
      && (drug.withdrawalPeriods[s].egg.Some? <==> s == Poultry)
      && drug.withdrawalPeriods[s].meat >= 0
      && drug.withdrawalPeriods[s].milk.GetOr(0) >= 0
      && drug.withdrawalPeriods[s].egg.GetOr(0) >= 0
  }

  /** Every drug in the table has a well-formed entry for each species, and a meat period of at least a day. */
  lemma CommonDrugsWellFormed()
    ensures forall i :: 0 <= i < |CommonDrugs| ==> WellFormedPeriods(CommonDrugs[i])
    ensures forall i, s :: 0 <= i < |CommonDrugs| ==>
      s in CommonDrugs[i].withdrawalPeriods && CommonDrugs[i].withdrawalPeriods[s].meat >= 1
  {
    forall i, s | 0 <= i < |CommonDrugs|
      ensures s in CommonDrugs[i].withdrawalPeriods && CommonDrugs[i].withdrawalPeriods[s].meat >= 1
    {
      AllSpeciesListed(s);
    }
    forall i | 0 <= i < |CommonDrugs|
      ensures WellFormedPeriods(CommonDrugs[i])
    {
      var table := CommonDrugs[i].withdrawalPeriods;
      forall s
        ensures s in table
        ensures table[s].milk.Some? <==> GivesMilk(s)
        ensures table[s].egg.Some? <==> s == Poultry
        ensures table[s].meat >= 0 && table[s].milk.GetOr(0) >= 0 && table[s].egg.GetOr(0) >= 0
      {
        AllSpeciesListed(s);
      }
    }
  }

  /** No two drugs in the table share an id. */
  lemma CommonDrugIdsDistinct()
    ensures forall i, j :: 0 <= i < j < |CommonDrugs| ==> CommonDrugs[i].id != CommonDrugs[j].id
  {
  }

  /** `COMMON_DRUGS.find(d => d.id === id)` */
  function FindDrug(id: string): (r: Option<Drug>)
    ensures r.Some? ==> r.value in CommonDrugs && r.value.id == id
    ensures r.None? <==> forall i :: 0 <= i < |CommonDrugs| ==> CommonDrugs[i].id != id
  {
    Find(CommonDrugs, (d: Drug) => d.id == id)
  }

  /** Looking a table drug up by its id finds that very drug. */
  lemma FindDrugById(i: nat)
    requires i < |CommonDrugs|
    ensures FindDrug(CommonDrugs[i].id) == Some(CommonDrugs[i])
  {
    var id := CommonDrugs[i].id;
    var k := FirstIndex(CommonDrugs, (d: Drug) => d.id == id);
    CommonDrugIdsDistinct();
    assert k.Some?;
    assert k.value == i;
  }

  /** Oxytetracycline and amoxicillin on cattle: 22 and 14 meat days; amoxicillin's poultry egg period is 0. */
  lemma WithdrawalTableFigures()
    ensures FindDrug("oxytetracycline").Some?
    ensures FindDrug("oxytetracycline").value.withdrawalPeriods[Cattle].meat == 22
    ensures FindDrug("amoxicillin").Some?
    ensures FindDrug("amoxicillin").value.withdrawalPeriods[Cattle].meat == 14
    ensures FindDrug("amoxicillin").value.withdrawalPeriods[Poultry].egg == Some(0)
  {
    FindDrugById(0);
    FindDrugById(1);
  }

  /** An entry of `SPECIES_OPTIONS`; `caption` is its `label`. */
  datatype SpeciesOption = SpeciesOption(value: string, caption: string, icon: string)

  /** `SPECIES_OPTIONS`: the species choices of the treatment form. */
  const SpeciesOptions: seq<SpeciesOption> := [
    SpeciesOption("cattle", "Cattle / गाय", "🐄"),
    SpeciesOption("buffalo", "Buffalo / भैंस", "🐃"),
    SpeciesOption("goat", "Goat / बकरी", "🐐"),
    SpeciesOption("sheep", "Sheep / भेड़", "🐑"),
    SpeciesOption("poultry", "Poultry / मुर्गी", "🐔"),
    SpeciesOption("pig", "Pig / सूअर", "🐷")
  ]

  /** The option values are exactly the six species, in the order of the `withdrawalPeriods` keys. */
  lemma SpeciesOptionsMatchSpecies()
    ensures |SpeciesOptions| == |AllSpecies|
    ensures forall i :: 0 <= i < |SpeciesOptions| ==> ParseSpecies(SpeciesOptions[i].value) == Some(AllSpecies[i])
  {
    forall i | 0 <= i < |SpeciesOptions|
      ensures ParseSpecies(SpeciesOptions[i].value) == Some(AllSpecies[i])
    {
      SpeciesOptionValue(i);
      ParseSpeciesValue(AllSpecies[i]);
    }
  }

  /** Each option's value is the spelling of the species at its position. */
  lemma SpeciesOptionValue(i: int)
    requires 0 <= i < |SpeciesOptions|
    ensures |AllSpecies| == |SpeciesOptions| && SpeciesOptions[i].value == SpeciesValue(AllSpecies[i])
  {
  }

  datatype TreatmentStatus = Active | Completed | Withdrawn

  datatype ComplianceStatus = Compliant | Pending | Violation

  /**
   * `TreatmentRecord`. The three dates are UTC day numbers; `createdAt` and
   * `updatedAt` are millisecond timestamps; a `NaN` dosage or frequency is `None`.
   */
  datatype TreatmentRecord = TreatmentRecord(
    id: string,
    farmId: string,
    animalId: string,
    drugId: string,
    dosage: Option<real>,
    frequency: Option<int>,
    duration: int,
    purpose: string,
    startDate: int,
    endDate: int,
    withdrawalEndDate: int,
    status: TreatmentStatus,
    complianceStatus: ComplianceStatus,
    veterinarianApproved: bool,
    veterinarianId: Option<string>,
    veterinarianNotes: Option<string>,
    createdAt: int,
    updatedAt: int)

  datatype AlertType = WithdrawalReminder | MrlViolation | MissingApproval

  datatype Severity = Low | Medium | High | Critical

  /** How the source spells a severity. */
  function SeverityValue(s: Severity): string {
    match s
    case Low => "low"
    case Medium => "medium"
    case High => "high"
    case Critical => "critical"
  }

  /** `ComplianceAlert`; `dueDate` is a UTC day number and `createdAt` a millisecond timestamp. */
  datatype ComplianceAlert = ComplianceAlert(
    id: string,
    alertType: AlertType,
    severity: Severity,
    title: string,
    message: string,
    treatmentId: string,
    farmId: string,
    dueDate: int,
    acknowledged: bool,
    createdAt: int)
}
