# Healthcare appointments and symptom checker: a verified model of the core

This project models two parts of the backend of a healthcare-appointment web
application.

- **The rule-based symptom checker** (backend/routes/symptoms.js).
  - `POST /check` rejects a missing or empty `symptoms` value, lowercases the text and hands it to the evaluator.
  - The evaluator checks twelve critical phrases first. Any one of them, found as a substring, returns a fixed emergency advisory.
  - Otherwise it applies eight keyword categories in source order: fever, respiratory, stomach, headache, body pain, skin, diabetes, cardiac.
  - Each category that matches can raise the concern level, set the urgency to prompt and push fixed lists of conditions, home-care tips and diet tips. It can also overwrite the suggested specialty.
  - When no condition was pushed, a default block fills the lists.
- **The appointment routes** (backend/routes/appointments.js) over the appointment document of backend/models/Appointment.js.
  - A bearer-token guard runs first.
  - A validation chain of nine rules checks booking requests.
  - Five handlers: create, list mine, read one, update (doctors) and cancel (the patient).

Files:

| file | module | contents |
|---|---|---|
| wrappers.dfy | `Wrappers` | `Option` |
| strings.dfy | `Strings` | the JavaScript string built-ins the core relies on: `includes`, ASCII `toLowerCase`, `trim`, `split` |
| symptoms.dfy | `Symptoms` | the rule table as data, the fold that specifies the evaluator, the evaluator as a method with loops over mutable locals, the `/check` route |
| symptom_properties.dfy | `SymptomProperties` | lemmas about the fold in general and about the source's own table |
| appointment_model.dfy | `AppointmentModel` | the appointment document, with its gender and status enumerations |
| appointments.dfy | `Appointments` | authentication, validation, the pure decisions of each handler, and class `AppointmentService` holding the collection as a `map` with one method per handler |
| appointment_properties.dfy | `AppointmentProperties` | lemmas relating the handlers' decisions |

The evaluator is stated twice:
- `Symptoms.Evaluation` is a fold over a `RuleTable`: the critical phrases, the emergency advisory, the ordered categories, the initial specialty, the default advice and the disclaimer.
- `Symptoms.Evaluate` runs the source's algorithm over that table: a scan of the critical phrases with an early return, then one conditional update of the mutable locals per category, then the default block. It is proved equal to the fold.

`Symptoms.Rules` is the source's own table with its exact strings. The properties the source promises are lemmas about `Symptoms.Analysis`, the fold over that table.

On the appointment side, the class methods return the HTTP status code they answer with, and their `ensures` clauses give the whole new state of the collection. The decisions they take are pure functions with their own contracts, and the lemmas in `AppointmentProperties` are stated about those functions.

The category blocks run in source order and each later `suggestedSpecialty` assignment overwrites an earlier one. The cardiac block (backend/routes/symptoms.js:175) runs after the skin block (backend/routes/symptoms.js:146). So a text matching both a cardiac and a rash keyword yields "Cardiologist" (`SymptomProperties.CardiacWinsSpecialty`).

## Model

| member | source | states |
|---|---|---|
| Strings.Includes | backend/routes/symptoms.js:45 | `text.includes(kw)` holds exactly when `kw` occurs in `text` at some position |
| Strings.ToLower | backend/routes/symptoms.js:14 | lowercasing keeps the length and maps every character through ASCII case folding |
| Strings.ToLowerIdentifiesCase | backend/routes/symptoms.js:14 | two texts lowercase to the same string exactly when they differ only in ASCII letter case |
| Strings.ToLowerIdempotent | backend/routes/symptoms.js:14 | lowercasing twice is lowercasing once |
| Strings.TrimStart | backend/routes/appointments.js:26 | removes exactly the leading run of white space: the rest is a suffix that does not start with a space |
| Strings.TrimEnd | backend/routes/appointments.js:26 | removes exactly the trailing run of white space: the rest is a prefix that does not end with a space |
| Strings.Trim | backend/routes/appointments.js:26 | `trim()` keeps a contiguous middle part of the string that neither starts nor ends with white space, and everything it drops is white space |
| Strings.TrimEmptyIff | backend/routes/appointments.js:26 | a name fails `trim().notEmpty()` exactly when it is all white space |
| Strings.Split | backend/routes/appointments.js:11 | `split(' ')` gives at least one part and no part contains the separator |
| Strings.JoinSplit | backend/routes/appointments.js:11 | joining the parts of a split with the separator gives back the original string |
| Strings.SplitFirst | backend/routes/appointments.js:11 | a space-free first word followed by a space is split off as the first part |
| Symptoms.Append | backend/routes/symptoms.js:62-68 | pushing one block of lists after another adds the lengths of each of the three lists: conditions, home care and diet tips |
| Symptoms.AppendKeepsOrder | backend/routes/symptoms.js:62-68 | each of the three lists holds the first block's items first and the second block's after them, none reordered or dropped |
| Symptoms.Evaluation | backend/routes/symptoms.js:29-197 | for any rule table: a critical phrase yields the table's emergency result unchanged; otherwise the result has no message and carries the table's disclaimer; and when the table's default block names conditions, the result never lists none |
| Symptoms.Analysis | backend/routes/symptoms.js:29-197 | over the source's own table: the result has a `message` exactly when a critical phrase occurs, and always lists at least one possible condition |
| Symptoms.Evaluate | backend/routes/symptoms.js:29-197 | the loops over critical phrases and categories, with their mutable locals, compute exactly the fold `Evaluation` over the given rule table |
| Symptoms.AnalyzeSymptoms | backend/routes/symptoms.js:29-197 | `analyzeSymptoms` gives `Analysis(symptoms)`, whatever `age` and `gender` are |
| Symptoms.CheckSymptoms | backend/routes/symptoms.js:6-27 | 400 exactly for a missing, empty or falsy `symptoms`; 500 for a truthy non-string; otherwise the analysis of the lowercased text |
| SymptomProperties.FoldAdvice | backend/routes/symptoms.js:59-176 | the lists after the category blocks are the lists before them followed by every matching category's blocks, in order |
| SymptomProperties.FoldConcern | backend/routes/symptoms.js:59-176 | the category blocks never make the concern Severe, and end at Moderate exactly when it started Moderate or some raising category matched |
| SymptomProperties.FoldUrgency | backend/routes/symptoms.js:59-176 | the category blocks never make the urgency an emergency, and end at prompt exactly when it started prompt or a prompting category matched |
| SymptomProperties.FoldSpecialtyKept | backend/routes/symptoms.js:59-176 | when no matching category sets a specialty, the specialty is unchanged |
| SymptomProperties.FoldSpecialtyLast | backend/routes/symptoms.js:59-176 | the specialty is the one of the last matching category that sets one |
| SymptomProperties.FoldNoMatch | backend/routes/symptoms.js:59-176 | when no category matches, the category blocks change nothing |
| SymptomProperties.CollectedAtLeast | backend/routes/symptoms.js:59-176 | each collected list (conditions, home care, diet tips) is at least as long as everything any one category pushes onto it, its nested block included |
| SymptomProperties.CategoryOrder | backend/routes/symptoms.js:59-176 | the table holds the eight categories in the source's order |
| SymptomProperties.CategoriesPushConditions | backend/routes/symptoms.js:62-168 | every category pushes at least three conditions |
| SymptomProperties.PromptCategories | backend/routes/symptoms.js:164-167 | some category sets the urgency to prompt exactly when the cardiac keywords match |
| SymptomProperties.EmergencyWhateverElse | backend/routes/symptoms.js:38-57 | text containing a critical phrase gives exactly the emergency advisory (Severe, emergency, ["Medical Emergency"], "Emergency Medicine"), whatever surrounds it |
| SymptomProperties.NothingMatchedGivesDefault | backend/routes/symptoms.js:30-186 | with no critical phrase and no category keyword the result is the default advisory |
| SymptomProperties.MatchedNeverDefault | backend/routes/symptoms.js:179-186 | when some category matches, at least three conditions are listed and the result is not the default advisory |
| SymptomProperties.DefaultExactlyWhenNothingMatches | backend/routes/symptoms.js:30-186 | the result is the default advisory exactly when no critical phrase and no category keyword occurs |
| SymptomProperties.RaisingCategories | backend/routes/symptoms.js:59-176 | some category raises the concern exactly when one of fever, respiratory, stomach, headache, diabetes or cardiac matches |
| SymptomProperties.ConcernLevel | backend/routes/symptoms.js:59-176 | off the emergency path the concern is Mild or Moderate; it is Moderate exactly when one of the six raising categories matches, so body pain or skin alone leave it Mild |
| SymptomProperties.UrgencyPromptExactlyOnCardiac | backend/routes/symptoms.js:164-167 | off the emergency path the urgency is prompt exactly when a cardiac keyword occurs, and normal otherwise |
| SymptomProperties.SpecialtyOfLastMatch | backend/routes/symptoms.js:60-176 | the suggested specialty is that of the last matching category that sets one |
| SymptomProperties.SpecialtyDefault | backend/routes/symptoms.js:34 | when no matching category sets a specialty it stays "General Physician" |
| SymptomProperties.FeverAlone | backend/routes/symptoms.js:59-78 | fever alone gives concern Moderate and specialty "General Physician": the fever block sets no specialty |
| SymptomProperties.CardiacWinsSpecialty | backend/routes/symptoms.js:164-176 | any cardiac match makes the specialty "Cardiologist", whatever else matched |
| SymptomProperties.ListsInCategoryOrder | backend/routes/symptoms.js:59-176 | when something matches, each output list is the concatenation of the matching categories' blocks in source order |
| SymptomProperties.NotCollected | backend/routes/symptoms.js:59-176 | an item no category lists is never collected |
| SymptomProperties.CountInFirstTwo | backend/routes/symptoms.js:59-176 | when only the first two categories list an item, it is collected as many times as those two push it |
| SymptomProperties.CommonColdOnlyInFirstTwo | backend/routes/symptoms.js:93-176 | no category after respiratory lists "Common Cold" |
| SymptomProperties.FeverWithCold | backend/routes/symptoms.js:70-80 | fever with cough or cold pushes "Common Cold" once, and the same words also match the respiratory category |
| SymptomProperties.RespiratoryCold | backend/routes/symptoms.js:80-82 | a respiratory match pushes "Common Cold" once |
| SymptomProperties.CommonColdTwice | backend/routes/symptoms.js:70-82 | fever with cough or cold lists "Common Cold" exactly twice: the lists are not deduplicated |
| SymptomProperties.NonEmergencyDisclaimer | backend/routes/symptoms.js:188-196 | every non-emergency result carries the fixed disclaimer and no message |
| SymptomProperties.CaseInsensitive | backend/routes/symptoms.js:14-17 | texts that differ only in letter case give identical analyses once lowercased |
| AppointmentModel.ParseGender | backend/models/Appointment.js:17-21 | the gender enumeration accepts exactly "male", "female" and "other", and reads each back under its own name |
| AppointmentModel.ParseStatus | backend/models/Appointment.js:51-55 | the status enumeration accepts exactly "scheduled", "completed" and "cancelled", and reads each back under its own name |
| AppointmentModel.StatusNamesParse | backend/models/Appointment.js:51-55 | every status is stored under a name the enumeration accepts and reads back as itself |
| AppointmentModel.GenderNamesParse | backend/models/Appointment.js:17-21 | every gender is stored under a name the enumeration accepts and reads back as itself |
| Appointments.BearerToken | backend/routes/appointments.js:11-12 | a token exists exactly when the header is present and its second space-separated word is non-empty; the token is non-empty and space-free |
| Appointments.Authenticate | backend/routes/appointments.js:9-22 | "no token" exactly when no bearer token is found; "invalid token" exactly when verification rejects it; otherwise the verified claims |
| Appointments.Text | backend/routes/appointments.js:25-35 | an absent field reads as the empty string, a present one as its value |
| Appointments.Failed | backend/routes/appointments.js:40-41 | the failed-rule list names exactly the fields whose rule failed, and is empty exactly when every rule held |
| Appointments.ValidationChain | backend/routes/appointments.js:25-35 | the chain has nine rules, and all of them pass exactly when the request is acceptable: trimmed name, age, gender, phone, email, hospital, symptoms, date and time |
| Appointments.ValidationErrors | backend/routes/appointments.js:25-43 | there are no validation errors exactly when all nine rules hold: the trimmed name is non-empty; the phone, hospital, symptoms and time are non-empty; the age is a whole number in 1..120; the gender is male, female or other; and the email and date checks pass |
| Appointments.Storable | backend/models/Appointment.js:3-74 | what the schema accepts on save. Every required string must be non-empty, the age a number, the gender and any given status inside their enumerations, and the date must parse. A storable booking has a non-empty raw name and a gender from the enumeration |
| Appointments.NewAppointment | backend/routes/appointments.js:45-50 | saving succeeds exactly when the schema accepts the record. The stored patient is the authenticated user, and the name is the trimmed name. Age, gender, phone, email, hospital, symptoms, date and time are stored as the body gives them. The status is "scheduled" unless one is given. The given doctor, prescription and consultation are kept |
| Appointments.QueryFor | backend/routes/appointments.js:67-73 | a patient's or a doctor's query is on the caller's own id, and the query filters on nothing exactly for the other roles |
| Appointments.Selects | backend/routes/appointments.js:75 | a record selected by a filter on one person's id is one that person may read under the intended read rule |
| Appointments.MayReadAsWritten | backend/routes/appointments.js:90-102 | get-by-id's check as written, where only the record's patient passes because the doctor half compares the populated doctor document with an id. Whoever passes it also passes the intended rule |
| Appointments.MayRead | backend/routes/appointments.js:98-100 | the intended get-by-id check: the assigned doctor passes it, and anyone else who passes it is the record's patient |
| Appointments.MayUpdate | backend/routes/appointments.js:121 | update is open exactly to the callers whose listing filters by doctor, i.e. role doctor, whether or not they are assigned to the record |
| Appointments.MayCancel | backend/routes/appointments.js:153 | cancel's check is exactly get-by-id's written check: the record's patient only |
| Appointments.ApplyPatch | backend/routes/appointments.js:125-131 | fails exactly on a supplied, non-empty status outside the enumeration; otherwise replaces exactly the supplied prescription, consultation and status, leaving every other field unchanged |
| Appointments.CancelledRecord | backend/routes/appointments.js:157 | the status becomes cancelled and nothing else changes |
| Appointments.InsertionPoint | backend/routes/appointments.js:78 | entries before the insertion point are dated no earlier than the new one, and the entry at it is dated earlier |
| Appointments.InsertByDate | backend/routes/appointments.js:78 | the new entry sits at its insertion point, with the old entries before and after it in their order |
| Appointments.InsertedMembers | backend/routes/appointments.js:78 | inserting adds the new entry and loses no old one |
| Appointments.InsertKeepsSorted | backend/routes/appointments.js:78 | a listing sorted latest date first stays sorted after an insertion |
| Appointments.InsertKeepsDistinct | backend/routes/appointments.js:75-78 | a listing whose keys are distinct stays so when a new key is inserted |
| Appointments.ListingGrows | backend/routes/appointments.js:67-78 | adding a selected record under a new key keeps the listing exact, sorted and keyed once |
| Appointments.ListingCovers | backend/routes/appointments.js:75 | after the insertion the listing still holds a key for every selected record seen so far |
| Appointments.AppointmentService.constructor | backend/models/Appointment.js:76 | the collection starts empty |
| Appointments.AppointmentService.Create | backend/routes/appointments.js:38-62 | 401, then 400 on a failed rule, then 500 when the schema rejects the record, else 201 with exactly the new record added under a fresh key; the collection is unchanged on every error |
| Appointments.AppointmentService.MyAppointments | backend/routes/appointments.js:65-85 | 401 without a token; otherwise 200 and every record the caller's role selects (the patient's own, the doctor's assigned ones, or all for any other role), each once, latest date first |
| Appointments.AppointmentService.GetById | backend/routes/appointments.js:88-109 | 401, then 404 for an unknown id, then 403 unless the caller is the record's patient (the check as written), else 200 with that record |
| Appointments.AppointmentService.Update | backend/routes/appointments.js:112-142 | 401, then 404 (before the role), then 403 for a non-doctor, then 500 for a bad status, else 200 with only that record patched; nothing changes on any error |
| Appointments.AppointmentService.Cancel | backend/routes/appointments.js:145-165 | 401, then 404, then 403 unless the caller is the record's patient, else 200 with only that record cancelled; nothing changes on any error |
| AppointmentProperties.BearerTokenOfHeader | backend/routes/appointments.js:11 | the header `<scheme> <token>`, with or without further words, yields exactly the token |
| AppointmentProperties.NoTokenWithoutSpace | backend/routes/appointments.js:11-14 | a missing header, or one without a space, is refused as "no token" |
| AppointmentProperties.NoTokenWhenSecondWordEmpty | backend/routes/appointments.js:11-14 | a header whose second word is empty is refused as "no token" |
| AppointmentProperties.ValidatedRequestSaves | backend/routes/appointments.js:40-50 | once validation passes, saving fails only on a status outside the enumeration or a date that does not parse |
| AppointmentProperties.AgeOutOfRangeRefused | backend/routes/appointments.js:27 | a whole-number age outside 1..120 is always refused |
| AppointmentProperties.PatientIdFromToken | backend/routes/appointments.js:45-48 | the body's `patientId` never reaches the stored record: the patient is the authenticated user |
| AppointmentProperties.ListedIsReadable | backend/routes/appointments.js:67-102 | under the intended read rule, patients and doctors list only records they may also open one by one |
| AppointmentProperties.PatientListedIsReadable | backend/routes/appointments.js:67-102 | as written, a patient may open every record they list |
| AppointmentProperties.AssignedDoctorRefused | backend/routes/appointments.js:71-100 | as written, an assigned doctor who is not the patient lists the record but fails get-by-id's check, although the intended rule lets them read it |
| AppointmentProperties.AssignedDoctorListsButCannotOpen | backend/routes/appointments.js:65-109 | through the handlers: my-appointments answers 200 with the record, and get-by-id answers 403 to its assigned doctor |
| AppointmentProperties.OtherRolesListEverything | backend/routes/appointments.js:67-73 | a role other than patient or doctor lists every record |
| AppointmentProperties.ListedByRole | backend/routes/appointments.js:69-72 | a patient lists exactly their own records, a doctor exactly those assigned to them |
| AppointmentProperties.CancelImpliesRead | backend/routes/appointments.js:99-153 | whoever may cancel a record may also read it, under both the written and the intended read rule |
| AppointmentProperties.EmptyPatchChangesNothing | backend/routes/appointments.js:127-129 | an update that supplies nothing, or only an empty status, leaves the record as it was |
| AppointmentProperties.PatchIdempotent | backend/routes/appointments.js:127-129 | applying the same update twice is the same as applying it once |
| AppointmentProperties.CancelIdempotent | backend/routes/appointments.js:157 | cancelling twice is cancelling once |
| AppointmentProperties.CancelIgnoresStatus | backend/routes/appointments.js:147-157 | cancelling does not depend on the current status: completed and cancelled records are cancelled alike |
| AppointmentProperties.UpdateReopensCancelled | backend/routes/appointments.js:121-129 | a doctor's update can set a cancelled record back to scheduled: the status has no enforced lifecycle order |

## Left out

- Full Unicode `toLowerCase` and `trim`: lowercasing is ASCII only (`Strings.LowerChar`). White space for `trim` is the JavaScript white-space set, written out.
- Token verification (`jwt.verify`): `Authenticate` takes it as a function parameter that returns the claims or nothing. Tokens whose claims lack `userId` or `role` are not modelled; claims always carry both.
- The `isEmail`, `isISO8601` validators and the `Date` cast are function parameters, because their code is not part of this model.
- Persistence is an in-memory `map`. Timestamps and ObjectId generation are not modelled; new keys come from a counter. `populate` is not modelled as data. Its one effect on a decision, in get-by-id's check, is modelled by `Appointments.MayReadAsWritten`.
- ObjectId cast errors are not modelled. The source answers 500 for each of these, while the model answers 201 or 200:
  - a malformed `:id`;
  - a malformed body `doctorId` or `hospitalId`;
  - a token `userId` that is not an ObjectId, whether it reaches `patientId` on save or the query in my-appointments.
- Type coercion by the validators is not modelled. The age arrives already classified as absent, a whole number or something else, and non-string text fields are not modelled.
- Appointments.AppointmentService.MyAppointments: the order among records with the same `appointmentDate` is left open, as the database does not fix it.
- Appointments.AppointmentService.Update: a `prescription` or `consultation` of a non-object type, which the schema cast may reject, is not modelled.
- Symptoms.Evaluate: where the source writes `if (concernLevel === 'Mild') concernLevel = 'Moderate'`, a raising category sets Moderate outright. The two agree, because off the emergency path the concern is never Severe (`SymptomProperties.FoldConcern`).
- `existingConditions` in the `/check` body is read by the source and never used; it is not modelled.
- The 500 reply of each appointment handler for database failures is not modelled: the map store cannot fail.
- The hospital routes, the Haversine distance, the seed scripts, the server wiring and the frontend are not part of this model.

## Findings

| source | as written | input that shows it | evidently intended | confidence | as-written member | corrected member |
|---|---|---|---|---|---|---|
| backend/routes/appointments.js:90-102 | get-by-id compares `appointment.doctorId?.toString()` with the caller's id after `populate('doctorId', 'name specialization')`. `doctorId` is then the doctor's document (or null), and its `toString()` is never an id | a record with `doctorId` D and `patientId` P, where P differs from D, read by a caller with id D and role doctor: 403, though my-appointments lists it for D | the record's patient or its assigned doctor may read it | medium; not executed | AppointmentProperties.AssignedDoctorRefused | AppointmentProperties.ListedIsReadable |

The model's `GetById` follows the code as written (`MayReadAsWritten`). `MayRead` is the intended rule. `ListedIsReadable` proves that under it, whatever patients and doctors list they can also open.
