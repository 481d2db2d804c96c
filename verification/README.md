# Livestock registry: importer and page logic in Dafny

This project models the data rules of a small livestock-traceability web
application. The application keeps three tables:

- owners (`propietarios`)
- cattle (`bovinos`), each animal with a unique code (`codigo`)
- events (`eventos`), such as milkings, weighings and sales, each tied to one animal

The model has two parts.

**The bulk importer** (`POST` in `app/api/import/route.ts`) takes a batch of
owners, cattle and events. It applies them in three strict stages:

1. **Owners.** An owner is matched by its id when the id is a valid UUID.
   Otherwise it is matched by its exact name: it updates the one row with
   that name, or it is inserted.
2. **Cattle.** All cattle go to the store in one upsert keyed on the code.
3. **Events.** Each event is tied to an animal or skipped and counted. It
   gets its defaults and an id: the UUID it carries, or one derived from an
   MD5 digest. The events are then upserted, ignoring ids already stored.

A failing stage answers with its error tagged with the stage name. No later
stage runs, and nothing written so far is rolled back.

**The page logic** is the pure part of seven pages:

- the event, owner and cattle forms (validation and row construction)
- the report and production dashboards (counting and ranking)
- the search filters and counts of the cattle and owner lists

The store is three maps:

- owners by id
- cattle by code, each holding the stored id and the submitted row
- events by id

Several things the code does not control are parameters:

- **The store's faults.** `Faults` maps each call the code makes to the error message the store answers it with, or to none.
- **Store-generated ids.** `FreshId` is an id different from every id in use.
- **MD5.** The digest function is a parameter returning 32 lowercase hex digits.
- **The date.** `today` is a parameter.
- **Randomness.** The event form takes an `IdSource`: the value `crypto.randomUUID()` gave, or one random hex digit per position of the template.
- **Number parsing.** `Number(...)` with the `isNaN` test is a parameter `num`, where None stands for NaN.

The modules are:

- `Wrappers`, `Text`, `Uuid`, `Domain`, `Lists` and `Histogram`: shared vocabulary.
- `ImportOwners`, `ImportCattle`, `ImportEvents` and `Import`: the importer.
- `EventForm`, `OwnerForm`, `CattleForm`, `Reports`, `Production`, `CattleList` and `OwnerList`: one module per page.

Three behaviours of the code that its response fields and names do not
suggest:

- **`eventos_insertados` is not a net-new count.** The importer reports the number of submitted events minus the skipped ones (`route.ts:212`), not the events the import added. `Import.ImportIdempotent` shows that a second import of the same batch on the same day adds nothing and still answers with the same counts. On another day, an event without a date gets a new date and so a new derived id, and is stored a second time (`Import.ReimportOnAnotherDay`).
- **Re-importing owners is not always harmless.** It is harmless only for owners without a valid UUID. If a batch names an owner once without an id and once under a UUID, the first run writes two rows with that name. A second run of the same batch then fails at the name lookup, because `maybeSingle` refuses two rows. `ImportOwners.MixedBatchNotRepeatable` proves this.
- **The event form's "not found" alert is never reached.** The form looks the animal up with `single()`, which reports zero rows as an error. An unknown code therefore ends in the lookup-error alert (`EventForm.UnknownCodeFailsLookup`).

## Model

| member | source | states |
|---|---|---|
| Uuid.IsUuidIffLayout | app/api/import/route.ts:73 | `isUuid` accepts exactly a present, 36-character string with hyphens at positions 8, 13, 18 and 23 and hex digits of either case everywhere else; absent and empty values are rejected |
| Uuid.FormatDigest | app/api/import/route.ts:194-196 | the derived id puts the 32 digest digits in the 8-4-4-4-12 layout |
| Uuid.FormatDigestRoundTrip | app/api/import/route.ts:196 | removing the hyphens from a laid-out digest gives the digest back, so no two digests share an id |
| Uuid.FormattedDigestIsUuid | app/api/import/route.ts:190-196 | every derived id passes the importer's own `isUuid` |
| Uuid.FormattedDigestNotVersioned | app/api/import/route.ts:194-196 | the layout sets no version or variant: positions 14 and 19 carry digest digits 12 and 16 unchanged, so the id is a name-based UUID only when digit 12 happens to be '3' and digit 16 one of 8, 9, a or b |
| Text.OrElseDefaults | app/api/import/route.ts:80-84 | falling back to a non-empty default never gives an empty value, and keeps every truthy input as it is |
| ImportOwners.OwnerData | app/api/import/route.ts:79-91 | the row written for an owner keeps the name as given; type, document type and document number fall back to 'Individual', 'DNI' and 'SIN_DOCUMENTO' when falsy; every other falsy field is null; the row has that defaulted shape |
| ImportOwners.ExistingId | app/api/import/route.ts:101-107 | the name lookup finds nothing exactly when no stored owner has the name, and otherwise the id of the single owner that has it |
| ImportOwners.ReconcileOwner | app/api/import/route.ts:93-119 | reconciling one owner never removes an owner |
| ImportOwners.ReconcileWritesTarget | app/api/import/route.ts:93-119 | a successful reconciliation writes the owner's defaulted row under exactly one id (its UUID, the id of the row with its name, or a new id) and changes nothing else |
| ImportOwners.ReconcileByUuid | app/api/import/route.ts:94-98 | an owner with a valid UUID is upserted under that UUID whatever name it has |
| ImportOwners.ReconcileInsertsNew | app/api/import/route.ts:113-117 | an owner without a valid UUID whose name is not stored is inserted under a new id |
| ImportOwners.ReconcileAmbiguous | app/api/import/route.ts:101-106 | an owner without a valid UUID whose name is stored twice or more fails with the single-row error |
| ImportOwners.ReconcileByName | app/api/import/route.ts:99-119 | after a name-matched owner exactly one row has its name; a stored name keeps the set of ids and a new one adds exactly one |
| ImportOwners.ReconcileFailure | app/api/import/route.ts:94-118 | an owner fails only with a message the store gave for one of its calls, or with the single-row error when its name is ambiguous |
| ImportOwners.OwnersStage | app/api/import/route.ts:76-125 | the owners loop keeps every stored owner id |
| ImportOwners.OwnersStageRows | app/api/import/route.ts:78-120 | every owner row after the loop was stored before unchanged or is the defaulted row of an owner of the batch |
| ImportOwners.OwnersStageDefaulted | app/api/import/route.ts:79-91 | when every stored row had the defaulted shape, every row after the loop has it |
| ImportOwners.OwnersStageAppend | app/api/import/route.ts:78-120 | the loop over two batches one after the other is the loop over their concatenation, and the second does not run once the first failed |
| ImportOwners.OwnersStageFailure | app/api/import/route.ts:78-124 | a failed loop stopped at one owner: every owner before it went through and that owner failed |
| ImportOwners.OwnersStageSettles | app/api/import/route.ts:99-119 | after a successful loop over owners without valid UUIDs, each batch name has exactly one row, holding the last owner of that name; names not in the batch keep their rows |
| ImportOwners.OwnersStageIdempotent | app/api/import/route.ts:99-119 | running the same owners without valid UUIDs a second time changes nothing, so a name is never stored twice by re-importing it |
| ImportOwners.MixedBatchFirstRun | app/api/import/route.ts:94-119 | a batch naming one owner without an id and then under a UUID stores two rows with that name |
| ImportOwners.MixedBatchSecondRun | app/api/import/route.ts:101-106 | with two rows of that name stored, the same batch fails at its first owner with the single-row error |
| ImportOwners.MixedBatchNotRepeatable | app/api/import/route.ts:94-119 | importing that batch twice: the first run succeeds and the second fails |
| ImportCattle.StoredId | app/api/import/route.ts:130 | a cattle row is stored under the id it brings, else the id stored for its code, else a new id |
| ImportCattle.UpsertAllLastWins | app/api/import/route.ts:130 | after the upsert there is one row per code, the stored codes plus the submitted ones; each submitted code holds the last row submitted for it under the last id submitted for it, or its old id; other codes are untouched |
| ImportCattle.UpsertAllIdempotent | app/api/import/route.ts:130 | upserting the same cattle twice leaves what upserting them once left |
| ImportCattle.CattleStage | app/api/import/route.ts:128-136 | a refused upsert changes no cattle and reports the store's message; otherwise the last submitted row wins for each code |
| ImportEvents.ResolveCattle | app/api/import/route.ts:146-155 | a truthy `bovino_id` is used as given; otherwise a truthy code is looked up; an error comes only from a refused lookup |
| ImportEvents.ResolveSkipsUnresolvable | app/api/import/route.ts:146-159 | an event ends without a cattle id exactly when it has no truthy id and no stored code |
| ImportEvents.EventRowFor | app/api/import/route.ts:160-175 | the event row takes the resolved cattle id; its type falls back to 'Registro' and its date to today; every other column is passed through, absent as null |
| ImportEvents.EventId | app/api/import/route.ts:190-197 | a valid UUID id is kept verbatim; every id passes `isUuid` |
| ImportEvents.DerivedIdDependsOnHashFields | app/api/import/route.ts:193-196 | a derived id depends only on the defaulted cattle id, type, date and description |
| ImportEvents.DerivedIdInjective | app/api/import/route.ts:196 | two different digests never give the same derived id |
| ImportEvents.CollectEvents | app/api/import/route.ts:145-199 | the rows kept plus the events skipped are the events submitted; every kept row has a non-empty cattle id and an id that passes `isUuid` |
| ImportEvents.CollectRowsExpected | app/api/import/route.ts:145-199 | when every lookup goes through, the rows are exactly the resolvable events in submission order, each with its defaulted row and the id it carries when valid, else the id derived from that defaulted row |
| ImportEvents.ResolveFindsCattleId | app/api/import/route.ts:146-155 | a lookup that goes through ties an event to its truthy `bovino_id`, else to the id stored under its code |
| ImportEvents.InsertNewFirstWins | app/api/import/route.ts:200-205 | the ignore-duplicates upsert gives each new id the first row submitted with it and stores the id of every row |
| ImportEvents.CollectCountsSkipped | app/api/import/route.ts:156-158 | the skipped count is the number of events that cannot be tied to an animal |
| ImportEvents.CollectFailure | app/api/import/route.ts:148-153 | the loop fails only with the message of a refused cattle lookup |
| ImportEvents.InsertNewKeeps | app/api/import/route.ts:200-205 | the ignore-duplicates upsert keeps every stored event unchanged; the new ids are row ids, each holding a submitted row with that id |
| ImportEvents.InsertNewIdempotent | app/api/import/route.ts:203 | upserting the same rows twice adds nothing the second time |
| ImportEvents.EventsStage | app/api/import/route.ts:139-210 | a failing stage changes no event; no stored event is ever changed; at most the submitted events are skipped |
| ImportEvents.EventsStageWrites | app/api/import/route.ts:145-205 | every event added has a non-empty cattle id and a UUID-shaped id, the skipped count is the number of events without an animal, each new id holds the first expected row with that id, and every expected row's id is stored |
| ImportEvents.EventsStageIdempotent | app/api/import/route.ts:200-205 | running the events stage again on its own result adds nothing and skips the same number |
| Import.ErrorText | app/api/import/route.ts:123 | the error sent is the failure's message, or the stage's fallback text when the message is empty; never empty |
| Import.Import | app/api/import/route.ts:59-212 | without a service key nothing is written; a success counts owners and cattle as submitted, and its inserted and skipped counts add up to the events submitted; a failing stage leaves every later table unchanged; no stored id disappears |
| Import.ImportOwnersFailure | app/api/import/route.ts:121-124 | a failed owner stage keeps the writes of the owners before the failing one and changes no cattle or event |
| Import.ImportCattleFailure | app/api/import/route.ts:132-135 | a failed cattle stage keeps all owner writes, changes no cattle or event, and reports the store's message for the upsert |
| Import.ImportEventsFailure | app/api/import/route.ts:206-209 | a failed events stage keeps the owner and cattle writes, changes no event, and reports the message of a refused lookup or of the refused upsert |
| Import.ImportEventsWritten | app/api/import/route.ts:145-205 | after a success the skipped count is the number of events that cannot be tied to an animal, no event is written without a cattle id, and the events written are the defaulted resolvable events of the batch, tied to the cattle the import left, the first one for each id |
| Import.ImportSucceeded | app/api/import/route.ts:76-212 | a successful import is the three stages run in order, each starting from what the previous one left |
| Import.ImportIdempotent | app/api/import/route.ts:212 | importing the same batch again on the same day (owners without valid UUIDs) changes nothing and answers with the same counts, so `eventos_insertados` is not a count of new events |
| Import.ReimportOnAnotherDay | app/api/import/route.ts:160-196 | importing an event without a date or a valid id on two different days stores it twice, under two ids dated each day, whenever the two hash texts have different digests |
| Import.OneEventImported | app/api/import/route.ts:140-212 | a batch of one event tied by `bovino_id` adds exactly its defaulted row under its id and reports one event inserted |
| EventForm.InitialForm | app/nuevo-evento/page.tsx:32-41 | the form opens empty and dated today, with the type preset from a non-empty `tipo` query parameter |
| EventForm.Validate | app/nuevo-evento/page.tsx:92-117 | a form passes exactly when the code, type and date are filled, a milking has numeric litres and a shift, and a fattening has a numeric weight and a numeric or empty daily gain; the first failing check picks the alert: required fields, then litres, then shift for a milking, then weight, then daily gain for a fattening |
| EventForm.GenerateEventId | app/nuevo-evento/page.tsx:174-186 | the id is the runtime's random UUID when there is one; otherwise it passes `isUuid`, with version digit '4' and variant digit in 8, 9, a, b |
| Uuid.FallbackUuid | app/nuevo-evento/page.tsx:181-185 | filling the version-4 template gives the 8-4-4-4-12 layout in lowercase hex, with '4' at position 14 and 8, 9, a or b at position 19 |
| EventForm.EventIdIgnoresForm | app/nuevo-evento/page.tsx:142 | the event id does not depend on the four form fields passed to `generateEventId` |
| EventForm.EventRowFor | app/nuevo-evento/page.tsx:145-157 | litres and shift are set only for a milking, weight only for a fattening, daily gain only for a fattening with a gain entered; an empty description is null |
| EventForm.LookupCattle | app/nuevo-evento/page.tsx:122-133 | the lookup finds the stored id of the code exactly when the code is stored and the store takes the query |
| EventForm.Submit | app/nuevo-evento/page.tsx:89-172 | a submission is rejected exactly when the form fails its checks; any outcome but a save leaves the events as they were; a save adds one event under an id not in use |
| EventForm.SubmitSaves | app/nuevo-evento/page.tsx:142-157 | a saved event is the form's row for the animal with the form's code, under the drawn id, and nothing else changes |
| EventForm.SubmitSavedIff | app/nuevo-evento/page.tsx:119-165 | a submission saves exactly when the form passes, the code is stored, the store takes the lookup and the insert, and the drawn id is new |
| EventForm.UnknownCodeFailsLookup | app/nuevo-evento/page.tsx:122-139 | an accepted form with an unknown code ends in a failed lookup, with the single-row error when the store takes the query |
| EventForm.RejectionIgnoresStore | app/nuevo-evento/page.tsx:92-117 | a form that fails its checks is rejected with the same alert whatever the store holds or refuses |
| OwnerForm.Validate | app/nuevo-propietario/page.tsx:40-48 | a name of only whitespace is refused first; otherwise a document number of only whitespace is refused; the form passes exactly when neither is blank |
| OwnerForm.Optional | app/nuevo-propietario/page.tsx:57 | an optional field is null exactly when it is blank, and otherwise holds its trimmed text, never empty |
| OwnerForm.RowOf | app/nuevo-propietario/page.tsx:52-66 | the row stores the trimmed name and document number, passes the two type fields through, and stores each of the seven optional fields as null when blank and otherwise as its text without surrounding whitespace |
| OwnerForm.RowIsTrimmed | app/nuevo-propietario/page.tsx:56-65 | every text of the row is already trimmed, and no optional field is stored as an empty text |
| OwnerForm.InitialStoresDefaults | app/nuevo-propietario/page.tsx:23-35 | the form as it opens, given a name and a document, stores an 'Individual' owner with document type 'DNI' and no optional data |
| OwnerForm.Submit | app/nuevo-propietario/page.tsx:37-81 | a submission is rejected exactly when a required field is blank; only a save changes the owners, adding exactly one row under an id not in use |
| OwnerForm.SubmitSavedIff | app/nuevo-propietario/page.tsx:40-71 | a form saves exactly when name and document number are not blank and the store takes the insert |
| OwnerForm.SavedOwnerIsFoundByName | app/propietarios/page.tsx:42-46 | a registered owner is found by the owner list's search for the trimmed name |
| CattleForm.Payload | app/nuevo/page.tsx:19-26 | the code is sent as typed; name, breed, sex, state and birth date are null exactly when empty and otherwise as typed; no other column is sent |
| CattleForm.Save | app/nuevo/page.tsx:16-31 | an empty code is refused before the store; only a save changes the cattle, adding the payload under its new code and a new id |
| CattleForm.SaveTwiceRefused | app/nuevo/page.tsx:27-29 | saving the same form a second time is refused and changes nothing |
| CattleForm.InitialIsActive | app/nuevo/page.tsx:11 | the form as it opens, given a code, stores the animal as 'Activo' |
| CattleForm.SavedAnimalIsFoundByCode | app/bovinos/page.tsx:45-49 | a registered animal is found by the cattle list's search for its code |
| CattleList.Filtered | app/bovinos/page.tsx:45-49 | the filter keeps exactly the rows that match the search, and no more rows than there are |
| CattleList.FilteredIsSubsequence | app/bovinos/page.tsx:45-49 | the rows shown are rows of the list, in the list's order |
| CattleList.EmptyQueryKeepsAll | app/bovinos/page.tsx:45-49 | an empty search shows the whole list |
| CattleList.QueryCaseIgnored | app/bovinos/page.tsx:46-48 | typing the search in lower case shows the same rows |
| CattleList.FalsyFieldsNeverMatch | app/bovinos/page.tsx:47-48 | a row without a name and breed matches only through its code |
| OwnerList.Filtered | app/propietarios/page.tsx:42-46 | the filter keeps exactly the owners that match the search |
| OwnerList.FilteredIsSubsequence | app/propietarios/page.tsx:42-46 | the owners shown are owners of the list, in the list's order |
| OwnerList.EmptyQueryKeepsAll | app/propietarios/page.tsx:42-46 | an empty search shows every owner |
| OwnerList.QueryCaseIgnoredWithoutPhones | app/propietarios/page.tsx:43-45 | when no owner has a telephone, typing the search in lower case shows the same owners |
| OwnerList.PhoneMatchIsCaseSensitive | app/propietarios/page.tsx:44 | the telephone is compared as typed: an owner found by 'Ext A' is not found by 'ext a' |
| OwnerList.FalsyFieldsNeverMatch | app/propietarios/page.tsx:44-45 | an owner without telephone and email matches only through the name |
| OwnerList.WithPhone | app/propietarios/page.tsx:153 | the count of owners with a telephone is at most the number of owners |
| OwnerList.WithEmail | app/propietarios/page.tsx:159 | the count of owners with an email is at most the number of owners |
| OwnerList.WithPhoneIsFilterLength | app/propietarios/page.tsx:153 | the count is the number of owners an "any telephone" filter keeps |
| Histogram.Bump | app/reportes/page.tsx:61 | counting one more label adds its key if new, keeps keys distinct and counts positive, and raises the total by one |
| Histogram.BumpGet | app/reportes/page.tsx:61 | counting one more label raises that key's count by one and leaves every other count |
| Histogram.Tally | app/reportes/page.tsx:59-62 | the histogram has distinct keys with positive counts, its keys are exactly the labels that occur, and its counts add up to the number of labels |
| Histogram.TallyCounts | app/reportes/page.tsx:59-62 | each key counts exactly the labels equal to it |
| Histogram.SortDesc | app/reportes/page.tsx:275 | the sorted buckets are the same buckets, in non-increasing order of count |
| Histogram.Top5 | app/reportes/page.tsx:274-276 | the list of most common types has min(5, number of types) entries, all taken from the histogram, in non-increasing order |
| Histogram.Top5Omitted | app/reportes/page.tsx:274-276 | no type left out of the list counts more than a type shown |
| Reports.Label | app/reportes/page.tsx:84 | a missing or empty value is grouped under 'Sin especificar', never under an empty key |
| Reports.Statistics | app/reportes/page.tsx:47-100 | the totals are the lengths of the fetched lists (empty when a read fails); active plus inactive is at most the herd; each histogram adds up to its total; no breed, sex or state is counted under an empty key |
| Reports.ActiveCountsAreStateBuckets | app/reportes/page.tsx:53-54 | the active and inactive counts equal the 'Activo' and 'Inactivo' buckets of the state histogram |
| Reports.StateCountIsBucket | app/reportes/page.tsx:97-100 | counting the rows with a given state agrees with that state's bucket |
| Reports.EventTypeCounts | app/reportes/page.tsx:59-62 | each event type's count is the number of events of that type |
| Reports.UnspecifiedBucket | app/reportes/page.tsx:82-100 | the 'Sin especificar' bucket counts the rows with a missing or empty value, plus any row holding that text itself |
| Production.Count | app/produccion/page.tsx:29-39 | the total is the number of rows read |
| Production.SumCountsClassified | app/produccion/page.tsx:30-38 | the six figures together count each classified row exactly once, so the categories do not overlap |
| Production.SumWithinTotal | app/produccion/page.tsx:29-38 | the six figures add up to at most the total, and to exactly the total when every row has a known purpose, 'Desconocido' or none |
| Production.Load | app/produccion/page.tsx:22-46 | a refused read keeps the initial zeros; a read with no data counts nothing; otherwise the total is the number of rows |
| Production.Share | app/produccion/page.tsx:94 | the percentage is 0 for an empty herd and otherwise the nearest integer to the exact share, halves rounded up |
| Production.ShareIsPercentage | app/produccion/page.tsx:94 | a purpose's share is between 0 and 100, 100 for the whole herd and 0 for none |
| Text.Trim | app/nuevo-propietario/page.tsx:40-65 | trimming cuts only whitespace from the two ends and leaves none there; it gives the empty string exactly for a blank input |
| Text.TrimIdempotent | app/nuevo-propietario/page.tsx:56-65 | trimming twice is trimming once |

## Left out

- The service-key check (`route.ts:61-64`) is a boolean argument of `Import`. The outer catch-all at `route.ts:213-214` is not modelled; it covers a request body that is not JSON and unexpected exceptions.
- `body.x ?? []` (`route.ts:67-69`) is modelled by the batch carrying three lists. A list that is absent is an empty one.
- The store is modelled as maps. Its client, the network, and row-level semantics such as column defaults and types are not modelled.
- **Store faults are deterministic per call description.** The same call always gets the same answer within one run.
- **Store-generated ids are abstract.** The model uses `FreshId`, which is not UUID-shaped.
- ImportCattle.UpsertAll: models the batch upsert as last-wins per code. PostgreSQL refuses an `ON CONFLICT DO UPDATE` statement that touches the same code twice, so such a batch would fail as a whole rather than keep the last row.
- ImportCattle.UpsertAllLastWins: a submitted row replaces every column of the stored row, so a column no row of the batch carries becomes null in the model, while the store sends only the columns the batch carries and keeps the stored value of the others. The model does not tell an absent key from a null one.
- ImportCattle.CattleStage: fails only through the fault oracle. The store also refuses a batch in which some rows carry `id` and others do not (the missing ids become null in the key), and a batch whose `id` is already stored under another code (a primary-key violation); the model stores the first under the stored or a new id and the second as a second head of cattle with that id.
- ImportEvents.InsertNew: models `ignoreDuplicates` as first-wins within one batch as well as against stored rows. That is what `ON CONFLICT DO NOTHING` does.
- **MD5 is a parameter**, as are `crypto.randomUUID()` and `Math.random()`. The fallback template takes one random digit per position; the source draws only for the placeholders, which gives the same set of possible ids.
- **Number parsing is a parameter.** `Number(...)` and `isNaN` on the event form's numeric fields are modelled by `num`, which is abstract.
- **`Math.round` is exact arithmetic.** Production.Share rounds in exact arithmetic. Floating-point error near a half is not modelled.
- The report page's average per animal and its bar widths are floating point and are not modelled.
- **The month histogram is not modelled.** `reportes/page.tsx:64-79` depends on the clock and the locale.
- Text.Lower: is an ASCII stand-in for `toLowerCase`. Unicode case mapping is not modelled.
- Histogram.Tally: keeps keys in the order of first appearance, which is how JavaScript objects order non-numeric keys. Keys that look like array indices are listed first by JavaScript; this is not modelled.
- Histogram.Tally: counts every label as a key of its own. On a plain JavaScript object, a label naming an `Object.prototype` member misbehaves: `__proto__` is never counted, and `constructor` or `toString` start from the inherited function and end up holding a string. So for such labels the keys and the total stated here do not hold in the page; breed, sex, state and event type are free text, so this can happen.
- Reports.EventTypeCounts: the same `Object.prototype` caveat applies to event types named `__proto__`, `constructor`, `toString` and the like.
- Histogram.SortDesc: is proved to be a permutation in non-increasing order. The stability of `Array.prototype.sort` among equal counts is not proved.
- **UI effects are not modelled.** Rendering, `alert`, `router.push`, `console.*` and the loading and saving flags are out; alerts appear only as the message an outcome carries.
- The event form's list of cattle for the selector (`nuevo-evento/page.tsx:69-87`) only feeds the display and is not modelled.
- Concurrent imports are not modelled. The store resolves races.
- The pages `historial`, `eventos`, the dashboard home, the layout and the map modal are not part of this model. They are presentation or store pass-through.
