# SkyChain fleet-maintenance core, in Dafny

This project models the server-side core of SkyChain, a fleet-maintenance backend. It covers aircraft, parts, maintenance work orders and mechanics. It proves properties of that model.

Its parts:

- **Record models.**
  - `AircraftModel`, `PartModel`, `MaintenanceModel` and `MechanicModel` hold each schema's enumerations, derived values and save hooks.
  - The aircraft hook derives the compliance status from the days until the next maintenance.
  - The work-order hook drives the status machine: pending → scheduled, past due → overdue, in-progress with a finished checklist → completed.
  - The mechanic hook rehashes a modified password.
- **The store.** `Database.Store` is a class holding the four collections as maps from document id to record, plus the next id to hand out. Its invariant `Valid()` holds the unique indexes the schemas declare and the mechanic schema's numeric bounds.
- **Route handlers.** Every handler is a method on the store. It changes only what its `modifies db` allows and states the whole new state for each outcome:
  - `AircraftRoutes`: list pagination, create, update, cascade delete, QR regeneration.
  - `PartRoutes`: create, verify-authenticity, add-inspection, the statistics handler body, scan-qr.
  - `MaintenanceRoutes`: create with `WO-<year>-NNNN` numbering, complete-task, digital signature, the statistics handler body.
- **Routing.** `Router` holds Express's first-match choice among a router's registered routes.
  - `MechanicRoutes`: create, PUT, update-performance, add-certification.
  - Responses are `Ok(code, body)` or `Fail(code, error)`.
- **Analytics.** `Analytics` holds the dashboard's savings and rates and the ROI calculator's cost tables, over exact reals.
- **Token helpers.** `BlockchainUtil` holds the `0x`-hex tokens: hash, signature, wallet address, private key, the transaction format check, the simulated authenticity check and the gas price.
- **Request validation.** `Validation` holds the four request rule sets and the validate-or-400 gate.

Time is an integer number of milliseconds and a day is `DAY = 86400000` ms. JavaScript numbers that are not counts are reals. `Math.round(x)` is `floor(x + 0.5)`.

Several things outside the core arrive as parameters: the clock, the random draws, SHA-256 (a function onto 64-character hex digests), the bcrypt hash, the QR image, `crypto.randomBytes` and "three months from now". Each handler runs as one sequential method.

Where the code and its documentation differ, the model follows the code:

- **Grounded never survives a save.** An aircraft's status after any save, including create and QR regeneration, is recomputed from its dates. A `grounded` status set at creation is therefore never stored.
- **Update keeps a stale status.** Aircraft update writes the body as is, without the save hook, so the status it stores can be stale.
- **QR regeneration saves the whole record.** It re-derives the status, and a QR clash with another aircraft answers 500 rather than 400.
- **Work-order numbers count the orders.** The number is built from the number of orders present, so after a deletion it can reproduce an existing number, and the create then fails on the unique index.
- **complete-task can beat the overdue rule.** It completes an order before the save hook runs, so a past-due order can end up `completed` rather than `overdue`.
- **The request rule sets keep none of their defaults.** The validation middleware discards the defaults they would fill in. The schema's defaults apply instead, which are the same values.
- **Mechanic PUT validates first.** It checks the new values before looking the mechanic up, so an out-of-range value answers 400 even for a missing id.
- **The statistics endpoints are unreachable.** The parts and maintenance routers register `GET /:id` before `GET /statistics`. A request for `/statistics` therefore runs the single-record handler with the id "statistics", which cannot be cast to an ObjectId, and the answer is 500. `PartRoutes.Statistics` and `MaintenanceRoutes.CompletionRate` model the two handler bodies, which no request reaches; `StatisticsIsShadowed` in each module states the routing.
- **add-inspection stores nothing.** The inspection element declaration has a `type` key, which Mongoose reads as the element type, so `lifecycle.inspections` is an array of strings. The inspection object the handler pushes cannot be cast to a string, and the handler answers 400 with nothing saved. `PartRoutes.AddInspection` takes the element kind as a parameter: the declared string array gives that failure, and the evidently intended subdocument array appends the inspection (see "## Findings").
- **The seed data breaks a schema bound.** It gives a reputation of 1020, above the schema maximum of 1000. The model follows the schema.

## Model

| member | source | states |
|---|---|---|
| AircraftModel.ParseStatus | models/Aircraft.js:41-45 | a parsed name is the name of the status it returns |
| AircraftModel.ParseStatusName | models/Aircraft.js:41-45 | every status parses back from its name |
| AircraftModel.DaysUntilMaintenance | models/Aircraft.js:105-110 | the result is the ceiling of (next − now) in days: negative iff at least one full day late, at most 7 iff due within 7 days |
| AircraftModel.PreSave | models/Aircraft.js:113-127 | the saved record equals the input except that its status is the one derived from the next-maintenance date |
| AircraftModel.SavedIgnoresCallerStatus | models/Aircraft.js:113-127 | whatever status the caller set, the save gives the same record, and never `grounded` |
| AircraftModel.DerivedStatusByDays | models/Aircraft.js:116-124 | overdue iff the day count is negative, alert iff it is 0 to 7, compliant iff it is above 7 |
| AircraftModel.LaterMaintenanceIsNoMoreUrgent | models/Aircraft.js:118-124 | moving the next-maintenance date later never makes the status more urgent |
| AircraftModel.StatusBoundaries | models/Aircraft.js:116-124 | the exact millisecond boundaries between alert, compliant and overdue |
| AircraftRoutes.CeilDiv | routes/aircraft.js:35 | the quotient is the least q with a ≤ q·b |
| AircraftRoutes.Paginate | routes/aircraft.js:24-38 | total and page count, at most `limit` items, item i of the page is item offset+i of the matches, a full page unless it is the last |
| AircraftRoutes.EveryItemOnItsPage | routes/aircraft.js:24-35 | every matching item appears on page ⌊i/limit⌋+1 at position i mod limit |
| AircraftRoutes.Create | routes/aircraft.js:68-114 | 400 on a rule violation or a duplicate key; otherwise the hashed, hook-derived aircraft is inserted under a fresh id, other collections unchanged, and returned with 201, or, when the Web3 account lookup then fails, answered with 400 and that message while the aircraft stays stored |
| AircraftRoutes.CreateDerivesStatus | routes/aircraft.js:82-88 | a created aircraft's status is the one derived from its dates, never `grounded` |
| AircraftRoutes.Overwrite | routes/aircraft.js:119 | the body's fields replace the record's, the status only when supplied; hash, QR code, parts and history are kept |
| AircraftRoutes.Update | routes/aircraft.js:117-129 | 400 on a rule violation, 404 for a missing id, 400 on a duplicate key, otherwise exactly the overwritten record is stored |
| AircraftRoutes.UpdateKeepsStaleStatus | routes/aircraft.js:117-129 | update can store `compliant` for an aircraft that the save hook would call overdue |
| AircraftRoutes.PartsNotOf | routes/aircraft.js:141 | exactly the parts not installed on the aircraft remain, unchanged |
| AircraftRoutes.WorkOrdersNotOf | routes/aircraft.js:142 | exactly the work orders not for the aircraft remain, unchanged |
| AircraftRoutes.Delete | routes/aircraft.js:132-148 | 404 and nothing removed for a missing id; otherwise the aircraft, its parts and its work orders are removed and nothing else |
| AircraftRoutes.CascadeIsExact | routes/aircraft.js:134-142 | after the cascade no record refers to the deleted aircraft, and every other aircraft's records are kept as they were |
| AircraftRoutes.GenerateQr | routes/aircraft.js:175-197 | 404 for a missing id; otherwise the new QR code is stored through the save hook, or 500 when it clashes |
| AircraftRoutes.GenerateQrChangesQrAndStatus | routes/aircraft.js:177-191 | regeneration changes only the QR code and the derived status |
| PartModel.ParseStatus | models/Part.js:36-40 | a parsed name is the name of the status it returns |
| PartModel.ParseStatusName | models/Part.js:36-40 | every part status parses back from its name |
| PartModel.StatusOrDefault | models/Part.js:36-40 | an absent status defaults to `pending` |
| PartModel.DaysUntilInspection | models/Part.js:126-131 | the ceiling of (next inspection − now) in days, negative iff at least one full day past |
| PartRoutes.NewPart | routes/parts.js:86-97 | a new part is unverified, has no inspections, its status defaults to pending, and it carries the hash, QR code and aircraft |
| PartRoutes.WithPart | routes/parts.js:102-103 | the aircraft's part list gains exactly the new id at its end, and the save hook re-derives its status |
| PartRoutes.Create | routes/parts.js:64-119 | 400 on a rule violation, a missing aircraft or a duplicate key; otherwise the part is inserted and its id appended to its aircraft, and the answer is 201, or 400 with its message when the Web3 account lookup then fails, both saves kept |
| PartRoutes.Verified | routes/parts.js:146-154 | status authentic iff the verdict is true, counterfeit otherwise; verified, dated now, method "blockchain", proof the part's hash; nothing else changes |
| PartRoutes.VerifyAuthenticity | routes/parts.js:137-168 | 404 for a missing part; otherwise the verified part is stored and reported |
| PartRoutes.MalformedPartIsCounterfeit | routes/parts.js:146-148 | a part with a malformed hash or a short serial number is marked counterfeit whatever the draw |
| PartRoutes.AddInspection | routes/parts.js:171-194 | 404 for a missing part; with the declared string array, 400 and nothing stored; with a subdocument array, exactly one inspection stamped now is appended, earlier ones unchanged |
| PartModel.ElementKindOf | models/Part.js:77-86 | an element declaration declares a string array exactly when it has a `type` key |
| PartModel.PushInspection | models/Part.js:77-86 | a string array rejects every pushed inspection; a subdocument array appends it and changes nothing else |
| PartModel.DeclaredInspectionsRejectEveryPush | models/Part.js:77-86 | as declared, the inspections array holds strings, so pushing an inspection fails for every part |
| PartModel.WithStatus | routes/parts.js:209-211 | exactly the ids of the stored parts having the given status |
| AircraftModel.WithStatus | routes/analytics.js:13-15 | exactly the ids of the stored aircraft having the given status |
| PartRoutes.Statistics | routes/parts.js:197-226 | for the handler body: the total and each status count are the numbers of stored parts with that status; the verification rate is authentic/total·100, 0 with no parts, in [0, 100] |
| PartRoutes.StatisticsIsShadowed | routes/parts.js:46-197 | `/statistics` is taken by `/:id` with an id that cannot be cast, and the statistics route runs for no path |
| PartRoutes.ScanQr | routes/parts.js:229-257 | 400 without a QR code, 404 when no part carries it; otherwise the part that carries it, and "verified" iff the check says authentic |
| MaintenanceModel.ParseType | models/Maintenance.js:16-29 | a parsed name is the name of the work type it returns |
| MaintenanceModel.ParseTypeName | models/Maintenance.js:16-29 | every work type parses back from its name |
| MaintenanceModel.ParsePriority | models/Maintenance.js:35-39 | a parsed name is the name of the priority it returns |
| MaintenanceModel.ParsePriorityName | models/Maintenance.js:35-39 | every priority parses back from its name |
| MaintenanceModel.CountCompleted | models/Maintenance.js:162 | at most the checklist length, and equal to it iff every entry is completed |
| MaintenanceModel.FullRatio | models/Maintenance.js:160-164 | a fully completed non-empty checklist has completion ratio exactly 1 |
| MaintenanceModel.CompletionPercentage | models/Maintenance.js:160-164 | in [0, 100]; 0 for an empty checklist or none done, 100 when all are done |
| MaintenanceModel.PreSave | models/Maintenance.js:167-187 | the hook's sequential updates give exactly the declared saved record |
| MaintenanceModel.SavedLeavesCompletedAlone | models/Maintenance.js:170-184 | a completed order is never changed by the hook |
| MaintenanceModel.SavedPastDue | models/Maintenance.js:174-176 | past due, the saved status is overdue or completed, and overdue unless it was completed already |
| MaintenanceModel.SavedSchedules | models/Maintenance.js:170-172 | a pending order whose schedule has started and that is not past due becomes scheduled |
| MaintenanceModel.SavedCompletes | models/Maintenance.js:178-184 | an in-progress order with a finished non-empty checklist, not past due, becomes completed on now |
| MaintenanceModel.SavedCompletesOnlyFromInProgress | models/Maintenance.js:178-184 | the hook completes only in-progress orders with a finished checklist, never with an empty checklist, and sets the date only then |
| MaintenanceModel.SavedIdempotent | models/Maintenance.js:167-187 | saving twice at the same time equals saving once, and pending or in-progress never arise from another status |
| MaintenanceModel.SavedKeepsOtherFields | models/Maintenance.js:167-187 | the hook touches only the status and the completion date |
| MaintenanceRoutes.WorkOrderNumberInjective | routes/maintenance.js:75-76 | within a year, different counts give different work-order numbers |
| MaintenanceRoutes.CounterInjective | routes/maintenance.js:76 | the zero-padded counter is injective |
| MaintenanceRoutes.NumberReusedAfterDeletion | routes/maintenance.js:75-76 | after one of two orders is deleted, the next number equals the survivor's number |
| MaintenanceRoutes.NewWorkOrder | routes/maintenance.js:78-81 | a new order is pending, unsigned, not completed, and carries the request's checklist, aircraft and mechanic |
| MaintenanceRoutes.WithWorkOrder | routes/maintenance.js:86-87 | the aircraft's history gains exactly the new id at its end |
| MaintenanceRoutes.Assigned | routes/maintenance.js:90-91 | the mechanic's tasks in progress go up by one, nothing else changes |
| MaintenanceRoutes.Open | routes/maintenance.js:78-91 | the order is inserted under a fresh id, appended to its aircraft's history, and its mechanic gets one more task in progress |
| MaintenanceRoutes.Create | routes/maintenance.js:61-97 | 400 and nothing saved on a rule violation, a missing aircraft, a missing mechanic or a duplicate number; otherwise the order is opened |
| MaintenanceRoutes.NewOrderStatus | routes/maintenance.js:78-83 | a new order is saved as pending or scheduled, or as overdue when already past due |
| MaintenanceRoutes.MarkTask | routes/maintenance.js:128-131 | exactly the chosen entry is marked completed with who, when and notes; every other entry is unchanged |
| MaintenanceRoutes.MarkTaskCounts | routes/maintenance.js:128-131 | marking an entry raises the completed count by one if it was open, else leaves it |
| MaintenanceRoutes.TaskApplied | routes/maintenance.js:128-137 | the checklist is marked, and the order becomes completed on now exactly when it transitions |
| MaintenanceRoutes.TransitionsWhenLastOpenEntry | routes/maintenance.js:134-137 | the order transitions iff it is in progress and every other entry is already completed |
| MaintenanceRoutes.Credited | routes/maintenance.js:140-145 | tasks completed +1, tasks in progress −1 but never below 0 |
| MaintenanceRoutes.Inspected | routes/maintenance.js:148-155 | last maintenance now, next maintenance three months on, status re-derived |
| MaintenanceRoutes.InspectionMakesCompliant | routes/maintenance.js:148-155 | with the next maintenance more than seven days ahead, the inspected aircraft is compliant |
| MaintenanceRoutes.CompleteTask | routes/maintenance.js:115-164 | 404 for a missing order; 400 and nothing changed for an absent, negative or too-large index; otherwise the marked order is saved, and on the transition the mechanic is credited and an inspected aircraft is rescheduled |
| MaintenanceRoutes.Credit | routes/maintenance.js:140-145 | only the assigned mechanic's record changes, to its credited form |
| MaintenanceRoutes.Inspect | routes/maintenance.js:148-155 | only the aircraft's record changes, to its inspected form |
| MaintenanceRoutes.CompleteTaskNeedsInProgress | routes/maintenance.js:134-137 | an order that was neither in progress nor completed is not completed by the task, even with a full checklist |
| MaintenanceRoutes.CompleteTaskBeatsOverdue | routes/maintenance.js:134-158 | once it transitions, the order is saved completed on now, even when past due |
| MaintenanceRoutes.SignatureDataOf | routes/maintenance.js:182-192 | the signed completed-task count is the number of completed entries, equal to the checklist length iff all are done |
| MaintenanceRoutes.BlockNumber | routes/maintenance.js:207 | a draw in [0, 1) gives a block number in [1000000, 1999999] |
| MaintenanceRoutes.Signature | routes/maintenance.js:194-201 | the signature hash is a well-formed transaction hash, with the signer, supervisor and time of the data |
| MaintenanceRoutes.LedgerRecord | routes/maintenance.js:204-210 | a well-formed transaction hash, gas 21000, the data's time and a block number in range |
| MaintenanceRoutes.SignWorkOrder | routes/maintenance.js:167-225 | 404 for a missing order, 400 for a missing mechanic; otherwise signature and ledger record are stored and the signer's signature count goes up by one |
| MaintenanceRoutes.CountSigned | routes/maintenance.js:215 | the signature count goes up by exactly one, nothing else changes |
| MaintenanceRoutes.SignatureIsDeterministic | routes/maintenance.js:194-210 | the signature hashes the data alone; the ledger hash also mixes in the time |
| MaintenanceModel.WithStatus | routes/maintenance.js:231-233 | exactly the ids of the stored orders having the given status |
| MaintenanceRoutes.AllCompletedCount | routes/maintenance.js:259 | completed orders are at most all orders, and all of them iff every order is completed |
| MaintenanceRoutes.CompletionRate | routes/maintenance.js:259 | for the handler body: rate·total = completed·100, 0 with no orders, in [0, 100], and 100 exactly when every order is completed |
| MaintenanceRoutes.StatisticsIsShadowed | routes/maintenance.js:42-228 | `/statistics` is taken by `/:id` with an id that cannot be cast, and the statistics route runs for no path |
| Router.FirstMatch | routes/maintenance.js:10-269 | the chosen route matches the path and no earlier route does; none is chosen exactly when no route matches |
| Router.CoveredRouteNeverRuns | routes/parts.js:46-197 | a route registered after one whose pattern covers it is never chosen |
| MechanicModel.ParseCertStatus | models/Mechanic.js:29-45 | a parsed name is the name of the certification status it returns |
| MechanicModel.ParseCertStatusName | models/Mechanic.js:29-45 | every certification status parses back from its name |
| MechanicModel.OverallPerformance | models/Mechanic.js:193-196 | in [0, 100] when the sub-scores are within the schema, and the common value rounded when all three agree |
| MechanicModel.ToJsonRedactsExactlyCredentials | models/Mechanic.js:156-163 | the public form ignores password and private key, and records with the same public form differ only in those two fields |
| MechanicModel.HashPasswordOnSave | models/Mechanic.js:169-179 | the password becomes the hash only when it was modified; nothing else changes |
| MechanicModel.UpdateLastActive | models/Mechanic.js:187-190 | only the last-active time changes, to now |
| MechanicRoutes.NewMechanic | routes/mechanics.js:79-86 | a new mechanic is within the schema, starts at zero counters and scores, is active, and carries the generated wallet and key |
| MechanicRoutes.Create | routes/mechanics.js:76-102 | 400 on a rule violation or a duplicate employee id or e-mail; otherwise the mechanic is stored with the hashed password and answered without credentials |
| MechanicRoutes.CreateStoresOnlyTheHash | routes/mechanics.js:82-95 | the stored password is the hash, and the response is the same with or without it |
| MechanicRoutes.StripCredentials | routes/mechanics.js:108-110 | password, wallet address and private key are removed from the body; nothing else is |
| MechanicRoutes.ApplyPatch | routes/mechanics.js:112-115 | every field of the record, counters, performance, work history and last activity included, takes the body's value when supplied and keeps its own otherwise |
| MechanicRoutes.EmptyPatchChangesNothing | routes/mechanics.js:112-115 | a body that supplies nothing leaves the record as it was |
| MechanicRoutes.PatchKeepsSchema | routes/mechanics.js:112-115 | a patch that passes the schema's validators keeps the mechanic within the schema |
| MechanicRoutes.PutKeepsCredentials | routes/mechanics.js:108-115 | PUT never changes password, wallet address or private key |
| MechanicRoutes.Update | routes/mechanics.js:105-125 | 400 on out-of-range values (rating, reputation, performance scores), 404 for a missing id, 400 on a duplicate key; otherwise exactly the patched record is stored |
| MechanicRoutes.RunningAverage | routes/mechanics.js:143-147 | the new rating is the mean of n ratings averaging the old one plus the new one; with no history it is the new rating; it stays in [0, 5] |
| MechanicRoutes.Reputation | routes/mechanics.js:150-156 | an integer in [0, 1000] when the sub-scores are in [0, 100] |
| MechanicRoutes.ReputationBound | routes/mechanics.js:150-156 | round(mean·10) of sub-scores in [0, 100] lies in [0, 1000] |
| MechanicRoutes.PerformanceUpdated | routes/mechanics.js:138-156 | only supplied sub-scores change, the rating is averaged only when supplied, the reputation is recomputed, nothing else changes |
| MechanicRoutes.InRangeInputsSave | routes/mechanics.js:138-156 | in-range inputs keep the mechanic within the schema |
| MechanicRoutes.ApplyPerformance | routes/mechanics.js:138-156 | the handler's field-by-field updates give exactly the declared updated record |
| MechanicRoutes.UpdatePerformance | routes/mechanics.js:128-168 | 404 for a missing mechanic; the updated record is stored and reported, or 400 and nothing stored when a value is out of bounds |
| MechanicRoutes.AddCertification | routes/mechanics.js:195-219 | 404 for a missing mechanic; otherwise exactly one active certification is appended and the list is returned, or 400 when it cannot be saved |
| Analytics.Rate | routes/analytics.js:33 | 0 for a zero total; otherwise rate·total = part·100, within [0, 100] when part ≤ total |
| Analytics.RateMonotone | routes/analytics.js:33-36 | more matching records never lower the rate |
| Analytics.SavingsShare | routes/analytics.js:30 | the savings percentage is 80 for every positive fleet size |
| Analytics.DashboardOf | routes/analytics.js:27-36 | the compliance rate is compliant/total aircraft·100 and the authenticity rate authentic/total parts·100, each 0 with a zero total and in [0, 100]; costs 50000·n and 10000·n, savings 40000·n, percentage 80 except with no aircraft |
| Analytics.StoreCounts | routes/analytics.js:12-23 | each count is the number of stored aircraft, parts or orders, with the queried status where there is one; the status counts of a collection add up to at most its total |
| Analytics.StoreDashboardRates | routes/analytics.js:12-36 | over any store, the rates are the shares of compliant aircraft and authentic parts among those stored, in [0, 100] |
| Analytics.TableTotal | routes/analytics.js:261-264 | the total of a cost table is the sum of its entries |
| Analytics.Scale | routes/analytics.js:253-277 | every entry of the table is multiplied by the fleet size |
| Analytics.SumScale | routes/analytics.js:253-277 | the total of a scaled table is the scale times the total |
| Analytics.Savings | routes/analytics.js:280-288 | each category's saving is its traditional cost times its saving factor |
| Analytics.RateTotals | routes/analytics.js:253-277 | the per-aircraft tables total 300000 and 25000 |
| Analytics.SavingsTotal | routes/analytics.js:280-288 | savings total 234250 per aircraft |
| Analytics.RoiRatios | routes/analytics.js:290-302 | ROI 837 %, payback 1200/837 months and cost reduction 69.75 % for every non-zero fleet size |
| Analytics.RoiCalculator | routes/analytics.js:248-307 | fleet size defaults to 100; totals 300000f, 25000f, 234250f, net 209250f; ROI, payback and reduction constant, and absent exactly when f = 0 |
| BlockchainUtil.HexEncodeIsHex | utils/blockchain.js:83 | a hex encoding has only lowercase hex digits |
| BlockchainUtil.HexRoundTrip | utils/blockchain.js:83 | decoding the hex encoding gives the bytes back |
| BlockchainUtil.ValidateTransaction | utils/blockchain.js:93-96 | true iff the hash starts with "0x" and is 66 characters long |
| BlockchainUtil.GenerateBlockchainHash | utils/blockchain.js:5-14 | "0x" and 64 hex digits, accepted by the transaction check |
| BlockchainUtil.HashInputDependsOnTime | utils/blockchain.js:11 | different clock readings give different hash inputs for the same data |
| BlockchainUtil.CreateDigitalSignature | utils/blockchain.js:54-58 | "0x" and 64 hex digits, accepted by the transaction check |
| BlockchainUtil.JsonEscapeChar | utils/blockchain.js:55 | a character is written as itself exactly when it is neither a quote, a backslash nor a control character; an escape holds no control character |
| BlockchainUtil.JsonEscape | utils/blockchain.js:55 | an escaped string holds no control character |
| BlockchainUtil.JsonEscapeRoundTrip | utils/blockchain.js:55 | reading the escapes back gives the original string, for every string |
| BlockchainUtil.JsonEscapeKeepsPlainText | utils/blockchain.js:55 | text with no quote, backslash or control character is written unchanged |
| BlockchainUtil.VerifyPartAuthenticity | utils/blockchain.js:37-51 | false whenever the hash is not 66 long or the serial has at most 5 characters; otherwise authentic iff the draw exceeds 0.05 |
| BlockchainUtil.GenerateWalletAddress | utils/blockchain.js:81-84 | "0x" and 40 hex digits, length 42, decoding back to the drawn bytes |
| BlockchainUtil.GeneratePrivateKey | utils/blockchain.js:87-90 | "0x" and 64 hex digits, length 66, decoding back to the drawn bytes |
| BlockchainUtil.KeyShapes | utils/blockchain.js:81-96 | a private key passes the transaction check and a wallet address never does |
| BlockchainUtil.CalculateGasPrice | utils/blockchain.js:99-104 | at least 1, and in [15, 24] for a draw in [0, 1) |
| Validation.Gate | middleware/validation.js:82-91 | control passes on iff there are no violations, otherwise 400 "Validation error" with them all |
| Validation.AircraftViolations | middleware/validation.js:4-14 | no violation iff the aircraft rules hold |
| Validation.ValidateAircraft | middleware/validation.js:82-91 | passes on iff the aircraft rules hold, including an integer build year in [1900, current year] and a status among the four names |
| Validation.AircraftStatusNamesMatchSchema | middleware/validation.js:13 | the accepted aircraft status names are exactly the schema's enumeration |
| Validation.AircraftRequestOf | middleware/validation.js:4-14 | the accepted request carries the body's registration, model, manufacturer, location, dates, year (in range), hours (non-negative) and status |
| Validation.PartViolations | middleware/validation.js:17-27 | no violation iff the part rules hold |
| Validation.ValidatePart | middleware/validation.js:93-102 | passes on iff the part rules hold |
| Validation.PartStatusNamesMatchSchema | middleware/validation.js:26 | the accepted part status names are exactly the schema's enumeration |
| Validation.PartRequestOf | middleware/validation.js:17-27 | the accepted request carries the body's part number, name, manufacturer, aircraft, serial number, install date, location, next inspection and status |
| Validation.ChecklistViolations | middleware/validation.js:50-57 | no violation iff every checklist entry has a task |
| Validation.MaintenanceViolations | middleware/validation.js:30-58 | no violation iff the work-order rules hold |
| Validation.ValidateMaintenance | middleware/validation.js:104-113 | passes on iff the work-order rules hold, including a type among the eight and non-negative hours |
| Validation.WorkTypeNamesMatchSchema | middleware/validation.js:32-43 | the accepted types are exactly the schema's eight work types |
| Validation.PriorityNamesMatchSchema | middleware/validation.js:45 | the accepted priorities are exactly the schema's four |
| Validation.ChecklistOf | middleware/validation.js:50-57 | one item per entry, with its task, completed only when sent as true |
| Validation.MaintenanceRequestOf | middleware/validation.js:30-58 | the accepted request carries the body's fields; priority defaults to medium; the checklist is empty when absent and otherwise one item per entry, completed exactly when sent as true |
| Validation.CertificationsViolations | middleware/validation.js:66-77 | no violation iff every certification is well formed |
| Validation.SpecialtiesViolations | middleware/validation.js:78 | no violation iff no specialty is empty |
| Validation.EmailViolations | middleware/validation.js:64 | no violation iff an e-mail address is given |
| Validation.PasswordViolations | middleware/validation.js:65 | no violation iff a password of at least 6 characters is given |
| Validation.MechanicViolations | middleware/validation.js:61-79 | no violation iff the mechanic rules hold |
| Validation.ValidateMechanic | middleware/validation.js:115-124 | passes on iff the mechanic rules hold, so a password of at least 6 characters and an e-mail address |
| Validation.CertificationsOf | middleware/validation.js:66-77 | one certification per entry, with its name, number, issuer and dates; the status is the one named, active when none is sent |
| Validation.MechanicRequestOf | middleware/validation.js:61-79 | the accepted request carries the identity, e-mail, a password of at least 6 characters, the certifications converted entry by entry and the specialties, both empty when absent |
| Database.Store.constructor | models/Aircraft.js:5-11 | an empty store satisfies every unique index |
| Database.Store.NewId | models/Aircraft.js:5-11 | a fresh id is in no collection, and nothing else changes |
| Database.Store.InsertAircraft | models/Aircraft.js:5-11 | the aircraft is stored under a fresh id, and the unique indexes still hold |
| Database.Store.SaveAircraft | models/Aircraft.js:51-59 | only that aircraft changes, and the unique indexes still hold |
| Database.Store.InsertPart | models/Part.js:21-26 | the part is stored under a fresh id, and the unique indexes still hold |
| Database.Store.SavePart | models/Part.js:46-54 | only that part changes, and the unique indexes still hold |
| Database.Store.InsertWorkOrder | models/Maintenance.js:5-10 | the order is stored under a fresh id, and the number index still holds |
| Database.Store.SaveWorkOrder | models/Maintenance.js:5-10 | only that order changes, and the number index still holds |
| Database.Store.InsertMechanic | models/Mechanic.js:6-23 | the mechanic is stored under a fresh id, and the unique indexes and bounds still hold |
| Database.Store.SaveMechanic | models/Mechanic.js:76-80 | only that mechanic changes, and the unique indexes and bounds still hold |
| Database.StoreAircraftKeepsUnique | models/Aircraft.js:5-11 | storing an aircraft that clashes with no other keeps the aircraft indexes |
| Database.StorePartKeepsUnique | models/Part.js:21-26 | storing a part that clashes with no other keeps the part indexes |
| Database.StoreWorkOrderKeepsUnique | models/Maintenance.js:5-10 | storing an order that clashes with no other keeps the number index |
| Database.StoreMechanicKeepsUnique | models/Mechanic.js:6-23 | storing a mechanic that clashes with no other keeps the mechanic indexes |
| Database.ReplaceAircraft | models/Aircraft.js:51-59 | rewriting an aircraft with its unique keys unchanged cannot clash |
| Database.ReplacePart | models/Part.js:46-54 | rewriting a part with its unique keys unchanged cannot clash |
| Database.ReplaceWorkOrder | models/Maintenance.js:5-10 | rewriting an order with its number unchanged cannot clash |
| Database.ReplaceMechanic | models/Mechanic.js:76-80 | rewriting a mechanic with its unique keys unchanged cannot clash |
| Common.DaysCeil | models/Aircraft.js:116 | the least whole number of days covering the span |
| Common.PaddedDecimalInjective | routes/maintenance.js:76 | zero-padded decimals of different positive numbers differ |
| Common.IntStringInjective | utils/blockchain.js:11 | different integers render differently |
| Common.RoundWithin | models/Mechanic.js:193-196 | rounding a value within integer bounds stays within them |

## Left out

- The React components, the page shell, `server.js`, the ledger routes and their transaction schema, and the seed script are not part of this model. They hold presentation, wiring or I/O and no core logic.
- The GET endpoints that only read are left out, apart from list pagination and the bodies of the two statistics handlers. These are the record and list reads, maintenance history, an aircraft's parts, mechanic work history, mechanic statistics and the maintenance calendar, plus the analytics reports other than the dashboard and the ROI calculator. They are Mongo queries with no rules of their own.
- The part and work-order PUT endpoints are left out. They are plain `findByIdAndUpdate` overwrites, the same shape as `AircraftRoutes.Update`.
- `comparePassword` is left out. It is a bcrypt comparison, and bcrypt is outside the model.
- Mongo query semantics are left out: `$regex` search, `populate`, `aggregate` pipelines, strict-mode dropping of unknown fields. The model states their consequence only, such as PUT being an overwrite.
- Several computations arrive as parameters instead of being modelled: SHA-256, bcrypt, QR images, `crypto.randomBytes`, `Math.random`, `Date.now`, the `setTimeout` delays and the Web3 account lookups.
- `setMonth(+3)` is the parameter `threeMonthsOn`. `MaintenanceRoutes.InspectionMakesCompliant` assumes it lies more than seven days ahead.
- Float formatting (`toFixed`, `parseFloat`) is left out; rates and ratios are exact reals.
- Analytics.RoiCalculator: reports the fleet size as the real it was given, where the source reports `Number.parseInt(fleetSize)`.
- The multi-document saves are neither transactional nor concurrent here. Each handler is one sequential method, so the race in count-then-insert numbering is not modelled.
- The exact texts of Mongoose errors are not modelled. A duplicate key answers `DuplicateKeyError`, a failed validator answers "Validation failed", and the missing-index crash in complete-task answers "Cannot set properties of undefined".
- Validation.EmailViolations: accepts any address with an '@' that has something on each side, which is weaker than Joi's full e-mail grammar. The lower-casing and trimming of e-mail and other strings are not modelled.
- Validation.ValidateAircraft, Validation.ValidatePart, Validation.ValidateMaintenance, Validation.ValidateMechanic and Validation.Gate: Joi's type coercion, its rejection of unknown keys and its abort-early reporting are not modelled. Every failed rule is reported.
- AircraftRoutes.Create, AircraftRoutes.Update, PartRoutes.Create, MechanicRoutes.Create and MechanicRoutes.Update: the schemas' string setters are not applied. The registration and part number are not upper-cased, the e-mail is not lower-cased and nothing is trimmed, so the unique indexes compare the text as sent.
- BlockchainUtil.VerifyPartAuthenticity and Validation.PasswordViolations: string lengths count characters, while JavaScript's `.length` counts UTF-16 code units. The two differ only for characters outside the Basic Multilingual Plane.
- MechanicRoutes.ApplyPatch: a `performance` object in the body replaces the whole performance record; a partial nested object is not modelled.
- The mechanic schema's `availability` and `joinDate` fields are not part of the mechanic record. No core operation reads or writes them.
- Further schema paths that no core operation computes on are not part of the records: the mechanic's `performance.averageTaskTime`, and the part's `lifecycle.certified`, `lifecycle.installed` and `specifications`. The `overallPerformance` virtual is modelled, but it is not added to the mechanic's JSON form.
- MaintenanceRoutes.EncodeSignatureData: the signed timestamp is a `Date`, rendered through the parameter `iso` (`toISOString`). Ids are numbers rendered in decimal, where the source renders 24-digit hexadecimal ObjectIds.
- AircraftRoutes.Paginate: requires a page and a limit of at least 1, which is stronger than the source demands. The source takes whatever the query string parses to.
- PartRoutes.AddInspection: drops the `notes` the request sends, because the inspection schema has no such field.
- MechanicRoutes.UpdatePerformance: the feedback text the request sends is not stored, because the source does not store it either.

## Findings

| source | as written | input that shows it | evidently intended | confidence | as-written member | corrected member |
|---|---|---|---|---|---|---|
| models/Part.js:77-86 | the inspection element declaration has a `type` key, so Mongoose declares `lifecycle.inspections` as an array of strings, and the push at routes/parts.js:180-186 fails to cast the object | any existing part and any add-inspection body: the answer is 400 and nothing is saved | an array of inspection subdocuments (`type: { type: String }`), so the inspection is appended | medium, not executed: rests on Mongoose's documented type-key rule | PartModel.DeclaredInspectionsRejectEveryPush | PartRoutes.AddInspection |
