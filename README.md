# Farm AMU dashboard — a Dafny model of its domain logic

The dashboard is a role-based web front end for recording antimicrobial use
(AMU) on farms:

- A **farmer** records treatments through the "add treatment" dialog. From
  the drug reference table and the animal's species it works out when the
  course ends and when the withdrawal period ends.
- Each **treatment card** shows how far into the withdrawal period the
  animal is.
- A **veterinarian** approves or rejects pending treatments.
- The **analytics** and **regulator** screens aggregate counts, per-drug and
  per-farm tallies, and rounded compliance percentages.
- Around these sit the signed-in **session**, the three-phase **login**
  screen and the **translation** lookup.

This project models that logic in Dafny and proves what each piece promises.
The model has one module per source file:

| module | source |
|---|---|
| `Types` | `src/types/index.ts` |
| `AddTreatment` | `src/components/AddTreatmentDialog.tsx` |
| `TreatmentCardView` | `src/components/TreatmentCard.tsx` |
| `VetDashboard` | `src/pages/VeterinarianDashboard.tsx` |
| `FarmerDashboard` | `src/pages/FarmerDashboard.tsx` |
| `PowerBI` | `src/pages/PowerBIDashboard.tsx` |
| `Regulator` | `src/pages/RegulatorDashboard.tsx` |
| `Auth` | `src/contexts/AuthContext.tsx` |
| `Login` | `src/pages/Login.tsx` |
| `Language` | `src/contexts/LanguageContext.tsx` |

Four support modules hold what those files borrow from the language and the
browser:
- `Wrappers` holds `Option`.
- `Seqs` holds `find`, `findIndex` and `filter`.
- `JsText` holds `trim`, `toLowerCase`, `includes`, `parseInt`,
  `parseFloat` and `Number.prototype.toString`, on the decimal inputs the
  dashboard produces.
- `Calendar` holds UTC day numbers and the proleptic Gregorian calendar.

Conventions:

- **Dates and times.** A stored `YYYY-MM-DD` date is a UTC day number, since
  JavaScript reads such a string as UTC midnight. An instant (`Date.now()`,
  `new Date()`, `createdAt`) is an integer count of milliseconds, passed in
  as a parameter. `toISOString().split('T')[0]` is `DayOf(ms) = ms / DayMs`.
  `toISOString` throws outside ±8.64e15 ms, so the model says which
  instants are valid time values.
- **Percentages.** `Math.round(p / q * 100)` is the exact half-up integer
  `(200p + q) / (2q)`. Its contract is the characterisation
  `2qr − q ≤ 200p < 2qr + q`.
- **Components.** A component whose state the handlers change is a class:
  its fields are the `useState` variables, and its methods are the
  handlers, with `modifies` clauses. Derived values and the rendering
  conditions are functions and predicates of those fields.
- **`reduce` callbacks.** `drugUsageData` and `farmPerformanceData` build a
  dictionary in place inside `reduce`. They are methods with loops
  (`PowerBI.Tally`, `PowerBI.FarmTallies` with `PowerBI.CountRecord`),
  proved against recursive specification functions.

The model follows the code, including these behaviours:
- `withdrawalPeriods[species]?.meat || 14` replaces a meat period of `0`, as
  well as a missing entry, by 14 days.
- A drug id that is not in the table makes `handleSubmit` return without
  creating a record.
- A non-numeric duration makes `toISOString` throw, so no record is created.
- Rejection refuses notes that are empty after `trim()`, that is,
  whitespace-only notes as well as empty ones.

## Model

| member | source | states |
|---|---|---|
| Types.ParseSpecies | src/types/index.ts:4 | The species string names exactly one of the six species, or none of them. |
| Types.ParseSpeciesValue | src/types/index.ts:4 | Every species' string reads back as that species. |
| Types.AllSpeciesListed | src/types/index.ts:16-23 | The six species of the withdrawal tables are all listed. |
| Types.CommonDrugsWellFormed | src/types/index.ts:16-23 | Every drug has an entry for each of the six species. A milk period exists exactly for cattle, buffalo and goat, and an egg period exactly for poultry. All periods are non-negative, and every meat period is at least one day. |
| Types.CommonDrugIdsDistinct | src/types/index.ts:87-133 | The three drug ids are pairwise distinct. |
| Types.FindDrug | src/types/index.ts:87-133 | `COMMON_DRUGS.find(d => d.id === id)`: a found drug is in the table with that id. Nothing is found exactly when no drug has the id. |
| Types.FindDrugById | src/types/index.ts:87-133 | Looking up a table drug's own id finds that drug. |
| Types.WithdrawalTableFigures | src/types/index.ts:93-115 | The meat period is 22 days for oxytetracycline on cattle and 14 days for amoxicillin on cattle. Amoxicillin's poultry egg period is 0. |
| Types.SpeciesOptionsMatchSpecies | src/types/index.ts:135-142 | `SPECIES_OPTIONS` lists the six species values, in the order of the withdrawal-table keys. |
| Types.SpeciesOptionValue | src/types/index.ts:135-142 | The i-th option's value is the i-th species' string. |
| AddTreatment.EmptyFormSelectsNoDrug | src/components/AddTreatmentDialog.tsx:27-37 | The empty form's drug id selects no drug, so the initial state pairs an empty form with no selected drug. |
| AddTreatment.MeatWithdrawalDays | src/components/AddTreatmentDialog.tsx:98 | The result is the meat period of the species' entry when the entry exists and its meat period is non-zero, and 14 days when the species string names no species, the drug has no entry for it, or its meat period is 0. It is never 0. |
| AddTreatment.MeatWithdrawalOfTable | src/components/AddTreatmentDialog.tsx:98 | For a table drug and a real species, the days are exactly the table's meat period; the milk and egg periods are never used. |
| AddTreatment.MeatWithdrawalFigures | src/components/AddTreatmentDialog.tsx:98 | Oxytetracycline on cattle withdraws for 22 days, amoxicillin on cattle for 14. |
| AddTreatment.WithdrawalInfo | src/components/AddTreatmentDialog.tsx:147-156 | `getWithdrawalInfo` returns an entry exactly when a drug is selected, the species is set and the drug's table has that species; the entry it returns is that species' entry. |
| AddTreatment.WithdrawalInfoOfTable | src/components/AddTreatmentDialog.tsx:147-156 | For a table drug and a real species, the panel shows an entry, and that entry has a milk period exactly for milk-giving species and an egg period exactly for poultry. |
| AddTreatment.SpeechLang | src/components/AddTreatmentDialog.tsx:41 | The speech language is `te-IN` exactly for Telugu and `en-IN` otherwise. |
| AddTreatment.AppendTranscript | src/components/AddTreatmentDialog.tsx:68-71 | An empty purpose becomes the transcript. Otherwise the purpose is kept, then one space, then the transcript. |
| AddTreatment.SubmitResult | src/components/AddTreatmentDialog.tsx:79-119 | The outcome is missing fields exactly when the tag, species, drug id or dosage is empty, and unknown drug exactly when the fields are present but no drug has the id. A created record starts on today's UTC day, ends `duration` days later, and its withdrawal ends the drug's meat period (or 14 days) after that. |
| AddTreatment.Schedule | src/components/AddTreatmentDialog.tsx:91-119 | The dates are invalid exactly when the end or withdrawal-end instant is not a valid time value. Otherwise the record is the one built from the form. |
| AddTreatment.NewRecord | src/components/AddTreatmentDialog.tsx:102-119 | The record's duration is the parsed duration. It starts today, ends `duration` days later, and its withdrawal ends `withdrawalDays` days after the end. |
| AddTreatment.SubmitInvalidDateIff | src/components/AddTreatmentDialog.tsx:91-113 | Submit throws exactly when the required fields and the drug are present and the duration is not a number, or either computed date falls outside the time range. |
| AddTreatment.SubmitCreatesPendingRecord | src/components/AddTreatmentDialog.tsx:102-119 | A created record has an id that parses back to the creation instant and farm `FARM001`. The animal, drug and purpose are copied from the form. Its state is active/pending and unapproved, with no veterinarian, and it is created and updated at that instant. |
| AddTreatment.SubmitWithdrawalAfterEnd | src/components/AddTreatmentDialog.tsx:98-100 | A created record's withdrawal ends strictly after its course ends. |
| AddTreatment.SubmitReadsNumbers | src/components/AddTreatmentDialog.tsx:107-109 | Integer text typed as dosage and duration is stored as that dose and that number of days, and the course ends that many days after today. |
| AddTreatment.AddTreatmentDialog.constructor | src/components/AddTreatmentDialog.tsx:27-37 | The dialog starts with all seven fields empty and no drug selected. |
| AddTreatment.AddTreatmentDialog.Edit | src/components/AddTreatmentDialog.tsx:198-306 | A field's `onChange` replaces that one field. Every other field and the selected drug stay. |
| AddTreatment.AddTreatmentDialog.SelectDrug | src/components/AddTreatmentDialog.tsx:141-145 | `handleDrugSelect` stores the drug id and selects that id's table drug, or none. |
| AddTreatment.AddTreatmentDialog.Dictate | src/components/AddTreatmentDialog.tsx:68-71 | A recognised transcript is appended to the purpose; nothing else changes. |
| AddTreatment.AddTreatmentDialog.Submit | src/components/AddTreatmentDialog.tsx:79-139 | `handleSubmit` yields the submit outcome for the current form. A created record resets all seven fields and the selected drug; any other outcome leaves the form and selection unchanged. |
| TreatmentCardView.CeilDays | src/components/TreatmentCard.tsx:35-37 | `Math.ceil(ms / day)` is the least whole number of days covering the difference. |
| TreatmentCardView.DaysBetween | src/components/TreatmentCard.tsx:35-37 | Between two stored dates, the rounded-up day difference is the difference of their day numbers. |
| TreatmentCardView.TreatmentDays | src/components/TreatmentCard.tsx:35 | `treatmentDays` is end minus start, in days. |
| TreatmentCardView.WithdrawalDays | src/components/TreatmentCard.tsx:36 | `withdrawalDays` is withdrawal end minus end, in days. |
| TreatmentCardView.DaysUntilWithdrawalEnd | src/components/TreatmentCard.tsx:37 | `daysUntilWithdrawalEnd` is the withdrawal end's day number minus today's UTC day number, at any instant of the day. |
| TreatmentCardView.Clamp | src/components/TreatmentCard.tsx:61 | `Math.max(0, Math.min(100, x))` lies in [0, 100], keeps x inside it and maps x to the nearer bound outside it. |
| TreatmentCardView.Progress | src/components/TreatmentCard.tsx:61 | Progress, when it is a number, is in [0, 100]. It is NaN exactly when both the withdrawal days and the days left are 0. |
| TreatmentCardView.ProgressNotStarted | src/components/TreatmentCard.tsx:61 | With a positive window, progress is 0 while at least the whole window is left. |
| TreatmentCardView.ProgressFinished | src/components/TreatmentCard.tsx:61 | With a positive window, progress is 100 once no days are left. |
| TreatmentCardView.ProgressServing | src/components/TreatmentCard.tsx:61 | Inside the window, progress is the elapsed share of the window times 100, strictly between 0 and 100. |
| TreatmentCardView.WithdrawalProgressByDay | src/components/TreatmentCard.tsx:36-37 | For a record whose withdrawal ends after its course, progress is 0 up to the end date, 100 from the withdrawal end date, and the elapsed share in between. It is always a number. |
| TreatmentCardView.BadgeByDay | src/components/TreatmentCard.tsx:126 | The badge shows "N days left" exactly before the withdrawal end day, with N the days remaining. It shows "Complete" exactly from that day on. |
| TreatmentCardView.DisplayConditionsByDay | src/components/TreatmentCard.tsx:157-166 | The ending-soon alert shows exactly on the two days before the withdrawal end. "Mark Safe for Sale" shows exactly from the withdrawal end day for approved records. The two never show together, and they agree with the badge. |
| TreatmentCardView.InferredValue | src/components/TreatmentCard.tsx:23-28 | The inferred species value is cattle, buffalo or goat. |
| TreatmentCardView.InferSpecies | src/components/TreatmentCard.tsx:23-28 | The option found is a listed option whose value is the inferred value. |
| TreatmentCardView.InferSpeciesRules | src/components/TreatmentCard.tsx:23-28 | On the lower-cased tag, the first match wins: `cow` gives cattle, then `buf` gives buffalo, then `goat` gives goat; any other tag gives cattle. An option is always found. |
| TreatmentCardView.InferSpeciesExamples | src/components/TreatmentCard.tsx:23-28 | `BUF-7` is a buffalo and `Cow-12` is cattle, whatever the letter case. |
| TreatmentCardView.DrugTitle | src/components/TreatmentCard.tsx:22 | The card title is the drug's name, or "Unknown Drug" when the id is not in the table. |
| TreatmentCardView.DrugTitleOfTable | src/components/TreatmentCard.tsx:70 | A table drug's card shows that drug's name. |
| TreatmentCardView.StatusColor | src/components/TreatmentCard.tsx:39-48 | The compliance badge is success exactly for compliant, destructive exactly for violation, and default exactly for pending. |
| VetDashboard.FindById | src/pages/VeterinarianDashboard.tsx:73-74 | `pendingTreatments.find(t => t.id === id)` finds a record exactly when one has the id, and what it finds has that id. |
| VetDashboard.Without | src/pages/VeterinarianDashboard.tsx:85 | `filter(t => t.id !== id)` keeps exactly the records with other ids. |
| VetDashboard.WithoutAbsent | src/pages/VeterinarianDashboard.tsx:85 | Dropping an id no record has changes nothing. |
| VetDashboard.WithoutUnique | src/pages/VeterinarianDashboard.tsx:85 | With unique ids, dropping a present id removes exactly one record. |
| VetDashboard.WithoutKeepsUnique | src/pages/VeterinarianDashboard.tsx:85 | Dropping an id keeps the ids unique. |
| VetDashboard.Approved | src/pages/VeterinarianDashboard.tsx:76-84 | The approved copy is vet-approved and compliant, carries the veterinarian's id, the notes and the update instant; every other field is the original's. |
| VetDashboard.MockPendingDates | src/pages/VeterinarianDashboard.tsx:30-67 | Each mock record's withdrawal ends its drug's meat period after its end date: 22 days for oxytetracycline on cattle, 14 for amoxicillin on buffalo. |
| VetDashboard.MockPendingCourses | src/pages/VeterinarianDashboard.tsx:30-67 | Each mock record ends `duration` days after it starts. |
| VetDashboard.MockPendingDrugs | src/pages/VeterinarianDashboard.tsx:30-67 | The mock records name table drugs: oxytetracycline and amoxicillin. |
| VetDashboard.MockPendingValid | src/pages/VeterinarianDashboard.tsx:30-67 | The mock records have distinct ids and are all unapproved. |
| VetDashboard.VeterinarianDashboard.constructor | src/pages/VeterinarianDashboard.tsx:23-26 | The screen starts with both lists empty, nothing selected and no notes. |
| VetDashboard.VeterinarianDashboard.LoadMockData | src/pages/VeterinarianDashboard.tsx:27-70 | The mount effect loads the mock records as pending and keeps the lists' invariant. |
| VetDashboard.VeterinarianDashboard.Approve | src/pages/VeterinarianDashboard.tsx:72-94 | An id not pending changes nothing. Otherwise the record leaves pending, and one approved copy with the current notes joins the end of approved. The notes and the selection are cleared, and the invariant holds. |
| VetDashboard.VeterinarianDashboard.Reject | src/pages/VeterinarianDashboard.tsx:96-114 | Blank notes change nothing. Otherwise the id leaves pending, approved is untouched, and the notes and the selection are cleared. |
| VetDashboard.VeterinarianDashboard.SelectForReview | src/pages/VeterinarianDashboard.tsx:188 | "Review & Approve" selects the record and changes nothing else. |
| VetDashboard.VeterinarianDashboard.EditNotes | src/pages/VeterinarianDashboard.tsx:323 | Typing replaces the notes and changes nothing else. |
| VetDashboard.VeterinarianDashboard.Cancel | src/pages/VeterinarianDashboard.tsx:345-348 | Cancel clears the selection and the notes and leaves both lists alone. |
| VetDashboard.ApproveKeepsValid | src/pages/VeterinarianDashboard.tsx:85-86 | Moving a pending record's approved copy to the approved list keeps every id once across both lists, pending all unapproved and approved all approved. |
| VetDashboard.RejectKeepsValid | src/pages/VeterinarianDashboard.tsx:106 | Dropping an id from pending keeps the same invariant. |
| VetDashboard.ApprovePreservesTotal | src/pages/VeterinarianDashboard.tsx:85-86 | With unique ids, approving preserves the number of pending plus approved records. |
| VetDashboard.ReviewActionPlacement | src/pages/VeterinarianDashboard.tsx:185 | The review action shows on every pending card rendered with actions, and never on an approved card. |
| FarmerDashboard.ActiveTreatments | src/pages/FarmerDashboard.tsx:70 | `activeTreatments` holds exactly the active records. |
| FarmerDashboard.PendingApprovals | src/pages/FarmerDashboard.tsx:71 | `pendingApprovals` holds exactly the records not yet approved. |
| FarmerDashboard.AlertsCardIffAlerts | src/pages/FarmerDashboard.tsx:144 | The "Active Alerts" card is rendered exactly when the alert list is non-empty, so it shows for the mock alert. |
| FarmerDashboard.AlertBadgeVariant | src/pages/FarmerDashboard.tsx:157 | An alert's badge is destructive exactly for a critical alert and default otherwise. |
| FarmerDashboard.EmptyStateIffNoneActive | src/pages/FarmerDashboard.tsx:186 | The "No Active Treatments" panel shows exactly when no record is active. |
| FarmerDashboard.AppendExtendsViews | src/pages/FarmerDashboard.tsx:70-71 | Appending a record extends each filtered list at its end, by that record exactly when it qualifies, so earlier entries keep their order. |
| FarmerDashboard.CreatedRecordIsListed | src/pages/FarmerDashboard.tsx:210-213 | A record the dialog creates lands at the end of both lists and removes the empty-state panel. |
| FarmerDashboard.MockDataConsistent | src/pages/FarmerDashboard.tsx:30-64 | The mock treatment ends `duration` days after it starts, and withdraws the table's 22 days after that. The mock alert points at it, and on the alert's due date the card shows ending-soon with 2 days left. |
| FarmerDashboard.FarmerDashboard.constructor | src/pages/FarmerDashboard.tsx:23-25 | The screen starts with no records, no alerts and the dialog closed. |
| FarmerDashboard.FarmerDashboard.LoadMockData | src/pages/FarmerDashboard.tsx:66-67 | The mount effect loads the mock treatment and alert. |
| FarmerDashboard.FarmerDashboard.SetAddDialogOpen | src/pages/FarmerDashboard.tsx:133 | Opening or closing the dialog changes only that flag. |
| FarmerDashboard.FarmerDashboard.TreatmentAdded | src/pages/FarmerDashboard.tsx:210-213 | `onTreatmentAdded` appends the record, closes the dialog, and extends both filtered lists at their ends. |
| PowerBI.RoundPercent | src/pages/PowerBIDashboard.tsx:127-128 | `Math.round(p / q * 100)` is the half-up rounding, and a share of at most the whole is in [0, 100]. |
| PowerBI.PercentBounds | src/pages/PowerBIDashboard.tsx:127-128 | Any rounding of a share between 0 and 1 lies in [0, 100]. |
| PowerBI.RoundPercentFull | src/pages/PowerBIDashboard.tsx:127-128 | A share of the whole rounds to 100. |
| PowerBI.CountsStep | src/pages/PowerBIDashboard.tsx:109-115 | Each status count is the first record's contribution plus the count over the rest. |
| PowerBI.CountsPartition | src/pages/PowerBIDashboard.tsx:109-115 | Active + completed + withdrawn = total, and pending + compliant + violations = total. |
| PowerBI.Rate | src/pages/PowerBIDashboard.tsx:127-128 | A rate is 0 with no records, otherwise the rounded share, and always in [0, 100]. |
| PowerBI.ComputeAnalytics | src/pages/PowerBIDashboard.tsx:108-130 | Each count is the number of records in its status, compliance status or approval. The total is the number of records, and both partitions add up to it. Each rate is 0 with no records, and otherwise the half-up rounding of the compliant (or approved) share times 100, in [0, 100]. |
| PowerBI.AllCompliantScoresFull | src/pages/PowerBIDashboard.tsx:127-128 | When every record is compliant and approved, both rates are 100. |
| PowerBI.FirstSeen | src/pages/PowerBIDashboard.tsx:155 | The keys in first-insertion order are distinct, and are exactly the keys that occur. |
| PowerBI.SumCountsAdd | src/pages/PowerBIDashboard.tsx:148-153 | One more occurrence raises the summed counts by one for a listed key. |
| PowerBI.FirstSeenSum | src/pages/PowerBIDashboard.tsx:148-155 | The occurrence counts of the distinct keys add up to the number of keys. |
| PowerBI.FirstSeenSnoc | src/pages/PowerBIDashboard.tsx:148-153 | A new key joins the end of the order; a seen key leaves it unchanged. |
| PowerBI.DrugName | src/pages/PowerBIDashboard.tsx:149-150 | A record's drug name is the table drug's name, or "Unknown" when the id has no match. |
| PowerBI.DrugNames | src/pages/PowerBIDashboard.tsx:149-150 | One drug name per record, in order. |
| PowerBI.IsTallySnoc | src/pages/PowerBIDashboard.tsx:151 | Counting one more key keeps the order and counts a true tally of the keys so far. |
| PowerBI.Tally | src/pages/PowerBIDashboard.tsx:148-153 | The `reduce` leaves the keys in first-seen order, with each key's count equal to its number of occurrences. |
| PowerBI.UsageRowMeaning | src/pages/PowerBIDashboard.tsx:155-159 | A drug row's count is that name's number of records. Its percentage is the rounded share of all records and lies in [0, 100]. |
| PowerBI.UsageRows | src/pages/PowerBIDashboard.tsx:155-159 | One row per distinct drug name, in first-seen order, each the name's usage row. |
| PowerBI.DrugUsageData | src/pages/PowerBIDashboard.tsx:147-160 | `drugUsageData` has one row per distinct drug name of the records, in first-seen order. |
| PowerBI.UsageTotalIsSum | src/pages/PowerBIDashboard.tsx:155-159 | The rows' counts add up to the names' occurrence counts. |
| PowerBI.UsageRowsAccountForAll | src/pages/PowerBIDashboard.tsx:148-159 | The usage counts sum to the number of names, and every name has a row. |
| PowerBI.DrugUsageAccountsForAll | src/pages/PowerBIDashboard.tsx:147-160 | Drug-usage counts sum to the number of treatments, and a record with an unmatched drug id is counted under "Unknown". |
| PowerBI.FarmIds | src/pages/PowerBIDashboard.tsx:182-184 | One farm id per record, in order. |
| PowerBI.TallyOfMeaning | src/pages/PowerBIDashboard.tsx:182-196 | A farm's tally counts its records, its compliant records and its violations, and compliant + violations ≤ total. |
| PowerBI.TallyTotal | src/pages/PowerBIDashboard.tsx:193 | A farm's total is its number of records. |
| PowerBI.TallyByStatus | src/pages/PowerBIDashboard.tsx:194-195 | A farm's compliant and violation counts are its records in those states. |
| PowerBI.TallyBounded | src/pages/PowerBIDashboard.tsx:193-195 | Compliant + violations never exceed a farm's total. |
| PowerBI.TallyOfAbsent | src/pages/PowerBIDashboard.tsx:184-192 | A farm with no records has the zero tally the callback opens for it. |
| PowerBI.TallyOfPresent | src/pages/PowerBIDashboard.tsx:193 | A farm with a record has a total of at least one. |
| PowerBI.TallyOfSnoc | src/pages/PowerBIDashboard.tsx:193-195 | One more record steps its own farm's tally and leaves every other farm's. |
| PowerBI.IsFarmTallySnoc | src/pages/PowerBIDashboard.tsx:182-196 | Counting one more record keeps the farm order and tallies true. |
| PowerBI.FarmTallyStep | src/pages/PowerBIDashboard.tsx:182-196 | The same, for the state one loop step leaves. |
| PowerBI.CountRecord | src/pages/PowerBIDashboard.tsx:183-195 | The callback opens a zero tally for an unseen farm at the end of the order, then steps the record's farm's tally. |
| PowerBI.FarmTallies | src/pages/PowerBIDashboard.tsx:182-196 | The `reduce` leaves the farms in first-seen order, each with its true tally. |
| PowerBI.FarmRowMeaning | src/pages/PowerBIDashboard.tsx:198-201 | A farm row's total is its number of records (at least one). Its compliant and violation counts are its records in those states, and their sum is at most the total. Its rate is the rounded compliant share, in [0, 100]. |
| PowerBI.FarmPerformanceData | src/pages/PowerBIDashboard.tsx:181-202 | `farmPerformanceData` has one row per distinct farm, in first-seen order, each that farm's row. |
| PowerBI.FarmTotalIsSum | src/pages/PowerBIDashboard.tsx:198-201 | The rows' totals add up to the farms' record counts. |
| PowerBI.FarmTotalsAccountForAll | src/pages/PowerBIDashboard.tsx:181-202 | Farm totals sum to the number of treatments. |
| PowerBI.FarmColor | src/pages/PowerBIDashboard.tsx:667-668 | The farm colour is success exactly from 90, warning exactly from 70 to below 90, and danger exactly below 70. |
| Regulator.SumAppend | src/pages/RegulatorDashboard.tsx:128-131 | A sum over two lists of regions is the sum of the sums. |
| Regulator.SumMonotone | src/pages/RegulatorDashboard.tsx:128-131 | A sum is monotone in the summed figure. |
| Regulator.SumNonNegative | src/pages/RegulatorDashboard.tsx:128-131 | Non-negative figures sum to a non-negative total. |
| Regulator.SumZero | src/pages/RegulatorDashboard.tsx:128-131 | Summing zero gives zero. |
| Regulator.OverallComplianceRate | src/pages/RegulatorDashboard.tsx:132 | The overall rate is 0 with no treatments, otherwise the rounded share of treatments without a violation. |
| Regulator.OverallRateIsPercentage | src/pages/RegulatorDashboard.tsx:132 | When each region has 0 ≤ violations ≤ treatments, the overall rate lies in [0, 100]. |
| Regulator.NoViolationsFullRate | src/pages/RegulatorDashboard.tsx:132 | With no violations anywhere and some treatments, the overall rate is 100. |
| Regulator.SeverityColor | src/pages/RegulatorDashboard.tsx:134-146 | Critical and high map to destructive, medium to default, low to secondary, and anything else to default. |
| Regulator.SeverityColorOfAlert | src/pages/RegulatorDashboard.tsx:134-146 | On an alert's severity, the badge is destructive exactly for high or critical, secondary exactly for low and default exactly for medium. |
| Regulator.ComplianceBadge | src/pages/RegulatorDashboard.tsx:276 | Region and drug badges are `default` exactly from 90 % and `secondary` exactly below. |
| Regulator.ActiveAlertCount | src/pages/RegulatorDashboard.tsx:247 | The active-alert count is the number of alerts, and 0 exactly for an empty list. |
| Regulator.MockOverview | src/pages/RegulatorDashboard.tsx:48-132 | On the mock data the totals are 477 farms, 408 active, 42 violations and 4237 treatments, and the overall rate is 99 %. Only Haryana, Amoxicillin and Enrofloxacin get the `default` badge, and the two alerts show destructive and default badges. |
| Regulator.MockSums | src/pages/RegulatorDashboard.tsx:128-131 | A sum over three regions is the three figures added. |
| Auth.RoleValue | src/contexts/AuthContext.tsx:3 | A role's string is non-empty. |
| Auth.NewUser | src/contexts/AuthContext.tsx:51-59 | The new user has the given phone and role, an id of role, `_` and the sign-in time, and the name fixed per role. It has `farmId` FARM001 exactly for a farmer, `practiceId` VET001 exactly for a veterinarian and `region` Punjab exactly for a regulator. |
| Auth.NewUserIdRecoversLoginTime | src/contexts/AuthContext.tsx:52 | A user id splits back into the role, `_` and a number that parses to the sign-in time. |
| Auth.NewUserIdsDistinct | src/contexts/AuthContext.tsx:52 | Sign-ins with different roles or at different times get different ids. |
| Auth.AuthProvider.constructor | src/contexts/AuthContext.tsx:34-35 | The provider starts signed out and loading. |
| Auth.AuthProvider.RestoreSession | src/contexts/AuthContext.tsx:37-44 | The mount effect signs the stored user in when there is one, then stops loading. |
| Auth.AuthProvider.Login | src/contexts/AuthContext.tsx:46-69 | `login` succeeds exactly for the OTP `1234`: the new user is signed in and stored. Any other OTP leaves the user and the storage unchanged. Loading is over on both paths. |
| Auth.AuthProvider.Logout | src/contexts/AuthContext.tsx:71-74 | `logout` signs out and removes the stored user, so `isAuthenticated` is false. |
| Login.ExactlyOnePhase | src/pages/Login.tsx:96-147 | While an OTP is only sent with a role chosen, exactly one of the role list, the phone entry and the OTP entry is visible. |
| Login.OtpInput | src/pages/Login.tsx:156-157 | The OTP field keeps at most four characters, a prefix of the typed text, and all of it when it fits. |
| Login.LoginScreen.constructor | src/pages/Login.tsx:11-14 | The screen starts with an empty phone and OTP, no role and no OTP sent. |
| Login.LoginScreen.SelectRole | src/pages/Login.tsx:105 | A role card selects its role and changes nothing else. |
| Login.LoginScreen.SetPhone | src/pages/Login.tsx:134 | Typing replaces the phone number and changes nothing else. |
| Login.LoginScreen.SetOtp | src/pages/Login.tsx:156-157 | Typing replaces the OTP with what the field keeps. |
| Login.LoginScreen.SendOtp | src/pages/Login.tsx:38-54 | An OTP is sent exactly when a phone is entered and a role chosen. Without them `otpSent` stays as it was; with them it becomes true. |
| Login.LoginScreen.ChangeNumber | src/pages/Login.tsx:168-171 | "Change Number" returns to the phone panel with the OTP cleared. |
| Login.LoginScreen.ChangeRole | src/pages/Login.tsx:185-193 | "Change Role", offered only before an OTP is sent, clears the role. |
| Login.LoginScreen.HandleLogin | src/pages/Login.tsx:56-72 | Without a role nothing happens. Otherwise the session is asked to sign in: it succeeds exactly for the demo OTP, signing in the user built from the entered phone and the chosen role, and fails otherwise with the session unchanged. |
| Language.BuildTableKeys | src/contexts/LanguageContext.tsx:12-92 | A table defines exactly the message ids it lists. |
| Language.SameKeys | src/contexts/LanguageContext.tsx:12-256 | The English, Hindi and Telugu tables have the same message ids. |
| Language.Translate | src/contexts/LanguageContext.tsx:273-275 | `t` gives the table's non-empty message for a present id, and the id itself for an absent one. |
| Language.LanguageProvider.constructor | src/contexts/LanguageContext.tsx:271 | The interface starts in English. |
| Language.LanguageProvider.SetLanguage | src/contexts/LanguageContext.tsx:271 | `setLanguage` changes the language. |
| Language.LanguageProvider.T | src/contexts/LanguageContext.tsx:273-275 | `t` reads the current language's table, with the id as fallback. |
| JsText.TrimStartEmptyIff | src/pages/VeterinarianDashboard.tsx:97 | Trimming leaves nothing exactly when every character is white space. |
| JsText.BlankIffAllWhiteSpace | src/pages/VeterinarianDashboard.tsx:97 | `!notes.trim()` holds exactly for all-white-space notes. |
| JsText.ToLowerCase | src/components/TreatmentCard.tsx:24-27 | Lower-casing keeps the length and maps each character. |
| JsText.ParseInt | src/components/AddTreatmentDialog.tsx:108-109 | `parseInt` yields a number exactly when digits follow the white space and the sign. |
| JsText.ParseIntOfIntToString | src/components/AddTreatmentDialog.tsx:103 | An integer's decimal text parses back to it. |
| JsText.ParseFloatOfIntToString | src/components/AddTreatmentDialog.tsx:107 | `parseFloat` of an integer's text is that integer. |
| Calendar.DayOfShift | src/components/AddTreatmentDialog.tsx:91-100 | Moving an instant by k whole days moves its UTC day by k. |
| Calendar.EpochIsDayZero | src/pages/FarmerDashboard.tsx:40-42 | 1970-01-01 is day 0. |
| Calendar.MonthRollover | src/pages/VeterinarianDashboard.tsx:40-42 | The first of a month follows the last day of the month before. |
| Calendar.YearRollover | src/pages/VeterinarianDashboard.tsx:58-60 | 1 January follows 31 December. |
| Calendar.MarchToMarch | src/pages/VeterinarianDashboard.tsx:58-60 | One March-based year is 366 days when the following year is a leap year, 365 otherwise. |
| Seqs.FirstIndex | src/components/TreatmentCard.tsx:23-28 | `findIndex` gives the first matching index, or none when nothing matches. |
| Seqs.Find | src/components/TreatmentCard.tsx:22 | `find` gives a matching element exactly when one exists. |
| Seqs.Filter | src/pages/FarmerDashboard.tsx:70-71 | `filter` keeps exactly the matching elements. |
| Seqs.FilterAppend | src/pages/FarmerDashboard.tsx:70-71 | Filtering distributes over concatenation, so order is kept. |
| Seqs.CountComplement | src/pages/PowerBIDashboard.tsx:109-115 | The records that match and those that do not add up to all of them. |

## Left out

- Rendering is not modelled. That covers JSX, charts, tabs, icons, toasts, the
  `Layout`/`Index` role routing and `VisualElements.tsx`. The display
  conditions the cards use are modelled as predicates.
- Speech recognition and synthesis are browser APIs; only the transcript
  append and the speech-language choice are modelled.
- Randomly generated analytics records and `monthlyTrendsData` are left out.
  The latter depends on locale month names parsed back by `Date`.
- The pie-label trigonometry and the `toFixed` float percentages are left out.
- Floating point is left out. `Math.round(p / q * 100)` is exact half-up
  rounding on integers. A double can round a share lying exactly on a
  half-way point the other way.
- Progress is a real number, and `Option.None` stands for its NaN. The
  `±Infinity` of a zero window with days left is clamped to 0 or 100, as
  `Math.max`/`Math.min` do.
- `Date` and time zones are left out. `setDate` works in local time, while
  the stored date is the UTC date of `toISOString`. The model shifts the
  instant by whole UTC days, so a daylight-saving change that moves the
  stored day is not captured.
- The instant of each `Date.now()`/`new Date()` is a parameter (`nowMs`).
  The source reads the clock several times in one submit, and the model
  assumes they agree.
- `parseInt`/`parseFloat` are modelled on decimal text: leading white space,
  a sign and digits (and a fraction for `parseFloat`). Hexadecimal prefixes,
  exponents and `Infinity` are not. An empty or non-numeric `frequency` is
  stored as `None` (NaN).
- `toLowerCase` maps only ASCII letters. Unicode case mapping is not
  modelled.
- Object key order is modelled as insertion order. JavaScript lists
  integer-like keys first in `Object.entries`/`Object.values`, but drug
  names and farm ids are not integer-like.
- Plain objects are modelled as maps holding only their own keys. A key
  that names an `Object.prototype` member (`constructor`, `toString`,
  `__proto__`, …) is truthy in JavaScript without being an own key. The
  program's data never holds such keys: its farm ids are `FARM001`–`FARM005`,
  its drug names come from the table or are "Unknown", its message ids are
  literals, and its species come from the species selector. The members
  below treat those keys like any other key.
- PowerBI.FarmTallies, PowerBI.CountRecord, PowerBI.FarmPerformanceData:
  for a farm id `constructor`, the callback's `!acc[farmId]` test finds
  the inherited function, so the farm never gets a row of its own. A farm
  id `__proto__` writes the tally onto `Object.prototype`. The model gives
  both an ordinary row.
- PowerBI.Tally, PowerBI.DrugUsageData: the same applies to a drug name
  that names a prototype member, which the table's names and "Unknown"
  never do.
- Language.Translate, Language.LanguageProvider.T: `t("constructor")`
  returns the inherited function. The model returns the id itself.
- AddTreatment.WithdrawalInfo: a species string such as `toString` finds
  an inherited function, and `getWithdrawalInfo` returns it. The model
  returns no entry. `AddTreatment.MeatWithdrawalDays` agrees with the
  source on such strings, because the function has no `meat`, so `|| 14`
  applies.
- `localStorage` and JSON are left out. The stored session is an
  `Option<User>` field. The JSON round trip, a corrupt stored value and the
  `useAuth`/`useLanguage` errors outside a provider are not modelled.
- Auth.AuthProvider.Login: the `isLoading = true` state between the start
  and the end of the call is not observable in the model. Only its final
  `false` is stated.
- Login.LoginScreen.SetOtp: the input's `maxLength` is modelled as keeping
  the first four characters of the typed value.
- Login.LoginScreen.ChangeRole: the "Change Role" button is rendered only
  while no OTP is sent. The method requires that condition instead of
  modelling a press that cannot occur.
- VetDashboard.VeterinarianDashboard.LoadMockData: the mount effect runs
  while the approved list is still empty. The method requires that, so
  that the ids stay unique across both lists.
- VetDashboard.VeterinarianDashboard: the `user.id` the screen reads from
  the session is a constructor parameter.
- Types.WithdrawalTableFigures: the meat figures are stated for cattle, and
  the egg figure for amoxicillin on poultry. The other entries are stated
  by `Types.CommonDrugsWellFormed` as shapes and bounds, not figure by
  figure.
- The farmer dashboard's fixed `complianceScore` is display-only and is not
  modelled.
