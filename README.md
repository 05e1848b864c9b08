# Radao entity store and continuous monitoring, in Dafny

Radao keeps track of water fountains, the devices that measure their water, and radon analyses. Its service layer runs over an entity store with four tables: Fountains, ContinuousUseDevices, Devices, and WaterAnalysis (append-only). This project models that service layer:

- **FountainService**: create, find, update and search fountains, and attach or detach a continuous-use device, keeping `Fountain.DeviceId` and `ContinuousUseDevice.FountainId` in step.
- **WaterAnalysisService**: record an analysis, which sets the named fountain's susceptibility index from the thresholds 50 and 150. It also finds and edits analyses.
- **ContinuousUseDeviceService** and **DeviceService**: add, find and edit devices, and change a device's analysis frequency.
- **ContinuousMonitoring**: one pass of the daily background scan. It records a reading for every attached continuous-use device that is due, then moves that device's last analysis date to today.

Each service works the same way: validate, change a few records, then save. An exception thrown before the save leaves the store as it was. The model therefore has two layers:

- **Specification functions.** Each operation is a function from a store value `Db` to a `Step`: the new store plus either the result or the error. The function contracts state the error cases, what changes on success, what stays the same, and which invariants are kept. Lemmas relate several calls: undo, idempotence, last write wins, and the scan's same-day and stop-at-failure behaviour.
- **Imperative services.** Each service is a class over one shared `RadaoContext` object. The context holds the tables as fields: three maps and a sequence. Each method updates those fields in place, the way the source updates tracked entities. Its `ensures` says the new context equals what the specification function gives for the old one. The scan is a `while` loop over the device list. Its loop invariant says: what is left of the scan, applied to the current store, gives the same outcome as the whole scan applied to the original store.

Inputs that the source receives from outside the core become parameters:

- the id the database gives a new fountain or device;
- today's day number;
- the scan's random readings, one per listed device, each in `[0, 200]`;
- the list order of the continuous-use device table.

A new analysis gets one more than the greatest id in the table.

Some behaviour is kept as the code has it, even where one might expect otherwise:

- Recording an analysis checks only that the fountain and the device exist. It does not check the concentration's sign, the date, or which fountain the device is attached to.
- The classification updates only the susceptibility index, never `IsDrinkable`.
- The scan files each reading under the device's own id as the fountain id (`BackgroundServiceContinuousUseDevice.cs:49`), not under the fountain the device is attached to.
- The scan catches nothing. The first failure ends the scan; devices before it keep their updates.
- The fountain update and the continuous-use-device add and update never touch the other side of the association. For each of the three, a lemma exhibits a store where this breaks the pairing.

## Model

| member | source | states |
|---|---|---|
| FountainService.IsBlank | Radao/Services/FountainService.cs:275 | `string.IsNullOrWhiteSpace` on a string, computed character by character: true exactly when every character is .NET white space (so also for the empty string) |
| FountainService.ContainsIsOccurrence | Radao/Services/FountainService.cs:280 | the recursive description check agrees with "the query occurs at some position of the description" (ordinal `Contains`) |
| FountainService.GetFountainById | Radao/Services/FountainService.cs:86-100 | id ≤ 0 gives ParamIsNull; an unknown id gives ObjIsNull; otherwise the stored fountain, whose id is the requested one |
| FountainService.GetFountainsByDescription | Radao/Services/FountainService.cs:268-288 | a blank or whitespace query gives ParamIsNull; otherwise the result is exactly the fountains whose description contains the query; none at all gives NoFountainMatchesDescription |
| FountainService.AddFountainAsWritten | Radao/Services/FountainService.cs:40-77 | the creation as written: the store is never changed |
| FountainService.CoordinatesTaken | Radao/Services/FountainService.cs:57 | the coordinates are among the stored fountains' positions exactly when some stored fountain has that latitude and that longitude |
| FountainService.AddFountainAsWrittenNeverSucceeds | Radao/Services/FountainService.cs:50-70 | as written, every call throws. A null input gives ParamIsNull. A null DeviceId, or one naming no device, fails the device lookup with ObjIsNull. A DeviceId naming an existing device gives FountainAlreadyExists at taken coordinates and DeviceAlreadyAssigned otherwise |
| FountainService.AddFountain | Radao/Services/FountainService.cs:40-77 | corrected creation. Errors: null gives ParamIsNull, a DeviceId naming no device gives ObjIsNull, taken coordinates give FountainAlreadyExists, an existing device at new coordinates gives DeviceAlreadyAssigned. Success exactly for a null DeviceId at new coordinates; the store is unchanged on every error. Coordinate uniqueness, primary keys and the pairing are kept; no fountain with a DeviceId is ever created |
| FountainService.UpdateFountain | Radao/Services/FountainService.cs:126-167 | null gives ParamIsNull; an unknown id, or a DeviceId naming no continuous-use device, gives ObjIsNull and saves nothing; success exactly otherwise. On success the six editable fields equal the input and the Id is kept. No device is touched |
| FountainService.UpdateFountainCanBreakPairing | Radao/Services/FountainService.cs:143-161 | a paired store whose fountain update leaves the fountain naming a device that does not name it back |
| FountainService.AttachDevice | Radao/Services/FountainService.cs:179-215 | errors in source order: unknown fountain gives ObjIsNull, a fountain with a device gives DeviceAlreadyAssigned, unknown device gives ObjIsNull, an attached device gives FountainAlreadyAssigned; the store is unchanged on error. Success exactly when the fountain exists without a device and the device exists unattached. On success both foreign keys are set and nothing else changes. The pairing is kept |
| FountainService.DetachDevice | Radao/Services/FountainService.cs:226-258 | unknown fountain gives ObjIsNull, no device gives NoDeviceAssignedToFountain, a dangling DeviceId gives FountainDeviceNotFound; the store is unchanged on error. Success exactly when the fountain's DeviceId names a present device; it clears both sides and changes nothing else. The pairing is kept |
| FountainService.PairedDetachFindsDevice | Radao/Services/FountainService.cs:241-244 | in a paired store detach never reports FountainDeviceNotFound |
| FountainService.DetachUndoesAttach | Radao/Services/FountainService.cs:179-258 | detaching right after a successful attach restores the store exactly |
| FountainService.AttachTwiceFails | Radao/Services/FountainService.cs:190-192 | after an attach, attaching any device to the same fountain gives DeviceAlreadyAssigned and changes nothing |
| FountainService.DetachTwiceFails | Radao/Services/FountainService.cs:237-239 | after a detach, detaching again gives NoDeviceAssignedToFountain and changes nothing |
| FountainService.FountainService.AddFountainAsync | Radao/Services/FountainService.cs:40-77 | the in-place creation equals AddFountain on the context |
| FountainService.FountainService.UpdateFountainAsync | Radao/Services/FountainService.cs:126-167 | the in-place field copy equals UpdateFountain on the context |
| FountainService.FountainService.AddContinuousUseDeviceToFountainAsync | Radao/Services/FountainService.cs:179-215 | the in-place attach equals AttachDevice on the context |
| FountainService.FountainService.RemoveDeviceFromFountainAsync | Radao/Services/FountainService.cs:226-258 | the in-place detach equals DetachDevice on the context |
| WaterAnalysisService.Classify | Radao/Services/WaterAnalysisService.cs:71-76 | Low exactly up to 50, Moderate exactly above 50 up to 150, High exactly above 150 |
| WaterAnalysisService.ClassifyMonotone | Radao/Services/WaterAnalysisService.cs:71-76 | a higher concentration never gives a lower tier |
| WaterAnalysisService.ClassifyBoundaries | Radao/Services/WaterAnalysisService.cs:71-76 | 50 is Low, 51 and 150 are Moderate, 151 is High |
| WaterAnalysisService.MaxAnalysisId | Radao/Services/WaterAnalysisService.cs:68 | no stored analysis has an id above it |
| WaterAnalysisService.NextAnalysisId | Radao/Services/WaterAnalysisService.cs:68 | the id given to a new analysis is positive and differs from every stored id |
| WaterAnalysisService.IndexOfAnalysis | Radao/Services/WaterAnalysisService.cs:102 | the position returned holds the first analysis with that id; none is returned only when no analysis has it |
| WaterAnalysisService.GetWaterAnalysisById | Radao/Services/WaterAnalysisService.cs:91-109 | id ≤ 0 gives ParamIsNull; ObjIsNull exactly when no analysis has the id; success exactly for a positive id some analysis has, returning a stored analysis with that id, the only one under unique ids |
| WaterAnalysisService.GetWaterAnalyses | Radao/Services/WaterAnalysisService.cs:117-131 | EmptyList exactly for an empty table, otherwise the whole table |
| WaterAnalysisService.AddWaterAnalysis | Radao/Services/WaterAnalysisService.cs:37-82 | null gives ParamIsNull, an unknown fountain or device gives ObjIsNull, with the store unchanged. Success exactly when both exist, whatever the concentration. It appends the analysis under a fresh id. The named fountain's index becomes the classification of the concentration. Its IsDrinkable, all other fountains and both device tables are unchanged. Keys and the pairing are kept |
| WaterAnalysisService.LastWriteWins | Radao/Services/WaterAnalysisService.cs:70-76 | after two recordings for one fountain, the fountain table is what recording the second alone gives; the index is the second concentration's |
| WaterAnalysisService.UpdateWaterAnalysis | Radao/Services/WaterAnalysisService.cs:141-190 | null gives ParamIsNull; an unknown id, a missing fountain or a missing device gives ObjIsNull, with nothing saved. Success exactly when the analysis, the fountain and the device all exist. The stored analysis then takes the input's concentration, fountain, date and device, at its own position. No fountain is reclassified |
| WaterAnalysisService.WaterAnalysisService.AddWaterAnalysisAsync | Radao/Services/WaterAnalysisService.cs:37-82 | the in-place append and reclassification equal AddWaterAnalysis on the context |
| WaterAnalysisService.WaterAnalysisService.UpdateWaterAnalysisAsync | Radao/Services/WaterAnalysisService.cs:141-190 | the in-place field copy equals UpdateWaterAnalysis on the context |
| DeviceService.AddDevice | Radao/Services/DeviceService.cs:36-53 | fails exactly for null, with ParamIsNull; otherwise stores the device under its new id and changes nothing else |
| DeviceService.AddDeviceAcceptsDuplicateSerial | Radao/Services/DeviceService.cs:43-50 | a device whose serial number is already in use is still added |
| DeviceService.GetDeviceById | Radao/Services/DeviceService.cs:62-80 | id ≤ 0 gives ParamIsNull; an unknown id gives ObjIsNull; otherwise the stored device with that id |
| DeviceService.GetDevices | Radao/Services/DeviceService.cs:88-102 | EmptyList exactly for an empty table, otherwise the whole table |
| DeviceService.UpdateDevice | Radao/Services/DeviceService.cs:111-137 | null gives ParamIsNull, an unknown id gives ObjIsNull. Otherwise only that device's model, serial number and expiration date change; its id and every other record stay as they were |
| DeviceService.UpdateDeviceIdempotent | Radao/Services/DeviceService.cs:129-131 | applying the same update twice gives the same store and answer as applying it once |
| DeviceService.DeviceService.AddDeviceAsync | Radao/Services/DeviceService.cs:36-53 | the in-place insert equals AddDevice on the context |
| DeviceService.DeviceService.UpdateDeviceAsync | Radao/Services/DeviceService.cs:111-137 | the in-place field copy equals UpdateDevice on the context |
| ContinuousUseDeviceService.AddContinuousUseDevice | Radao/Services/ContinuousUseDeviceService.cs:30-61 | null gives ParamIsNull; a FountainId given without a loaded fountain must name a fountain, else ObjIsNull. Otherwise the device is stored as given, frequency unchecked |
| ContinuousUseDeviceService.AddContinuousUseDeviceCanBreakPairing | Radao/Services/ContinuousUseDeviceService.cs:40-55 | adding a device with a FountainId does not set the fountain's DeviceId, so a paired store stops being paired |
| ContinuousUseDeviceService.GetContinuousUseDeviceById | Radao/Services/ContinuousUseDeviceService.cs:69-87 | id ≤ 0 gives ParamIsNull; an unknown id gives ContinuousUseDeviceNotFound; otherwise the stored device with that id |
| ContinuousUseDeviceService.GetContinuousUseDevices | Radao/Services/ContinuousUseDeviceService.cs:94-108 | always the whole table: an empty table is not an error |
| ContinuousUseDeviceService.UpdateContinuousUseDevice | Radao/Services/ContinuousUseDeviceService.cs:116-158 | null gives ParamIsNull; an unknown id gives ContinuousUseDeviceNotFound; a FountainId naming no fountain gives FountainNotFound, with nothing saved. On success five fields are copied and the stored frequency is kept. Fountains are never touched |
| ContinuousUseDeviceService.UpdateContinuousUseDeviceCanBreakPairing | Radao/Services/ContinuousUseDeviceService.cs:134-152 | clearing a paired device's FountainId through the update leaves its fountain naming a device that no longer names it back |
| ContinuousUseDeviceService.UpdateDeviceAnalysisFrequency | Radao/Services/ContinuousUseDeviceService.cs:169-191 | a non-positive id or frequency gives ParamIsNull; an unknown device gives ContinuousUseDeviceNotFound. On success only that device's frequency changes, to the new positive value |
| ContinuousUseDeviceService.ContinuousUseDeviceService.AddContinuousUseDeviceAsync | Radao/Services/ContinuousUseDeviceService.cs:30-61 | the in-place insert equals AddContinuousUseDevice on the context |
| ContinuousUseDeviceService.ContinuousUseDeviceService.UpdateContinuousUseDeviceAsync | Radao/Services/ContinuousUseDeviceService.cs:116-158 | the in-place field copy equals UpdateContinuousUseDevice on the context |
| ContinuousUseDeviceService.ContinuousUseDeviceService.UpdateDeviceAnalysisFrequencyAsync | Radao/Services/ContinuousUseDeviceService.cs:169-191 | the in-place frequency change equals UpdateDeviceAnalysisFrequency on the context |
| ContinuousMonitoring.IsDue | Radao/Services/BackgroundServiceContinuousUseDevice.cs:43-46 | due exactly when the last analysis date plus the frequency has been reached; a device analysed today is due only with a frequency ≤ 0 |
| ContinuousMonitoring.ScheduledAnalysis | Radao/Services/BackgroundServiceContinuousUseDevice.cs:49 | the scan's analysis carries the device's id as both fountain and device id and today's date; a reading from 0 to 200 gives a concentration in that range |
| ContinuousMonitoring.ScanDevice | Radao/Services/BackgroundServiceContinuousUseDevice.cs:39-55 | an unattached or not-yet-due device leaves the store unchanged. A due device fails with ObjIsNull, changing nothing, when no fountain or plain device has its id. Otherwise it appends one analysis dated today, with the reading and the device's id as fountain and device, reclassifies the fountain with that id, and sets the device's last analysis date to today. No other device changes |
| ContinuousMonitoring.Scan | Radao/Services/BackgroundServiceContinuousUseDevice.cs:36-56 | the scan over the list in list order keeps the table keys, every device's fountain and frequency, the devices table and the primary keys |
| ContinuousMonitoring.WeeklyDevice | Radao/Services/BackgroundServiceContinuousUseDevice.cs:43-46 | with frequency 7, a device analysed 8 or 7 days ago is due and one analysed 6 days ago is not |
| ContinuousMonitoring.ScanKeepsIdle | Radao/Services/BackgroundServiceContinuousUseDevice.cs:36-56 | a device that is unattached or not due stays so through the whole scan |
| ContinuousMonitoring.ScanLeavesNothingDue | Radao/Services/BackgroundServiceContinuousUseDevice.cs:43-53 | with positive frequencies, after a completed scan no listed device is due any more that day |
| ContinuousMonitoring.ScanOfTableLeavesNothingDue | Radao/Services/BackgroundServiceContinuousUseDevice.cs:31-56 | with positive frequencies, after a completed scan of the whole table (each id listed once) no attached device of the table is due that day, and the table's ids are unchanged |
| ContinuousMonitoring.ScanOfIdleDevicesIsNoop | Radao/Services/BackgroundServiceContinuousUseDevice.cs:36-56 | a scan over devices none of which is due succeeds and changes nothing |
| ContinuousMonitoring.SecondScanSameDayIsNoop | Radao/Services/BackgroundServiceContinuousUseDevice.cs:43-53 | with positive frequencies, a second scan on the same day records nothing and changes nothing |
| ContinuousMonitoring.ScanSplit | Radao/Services/BackgroundServiceContinuousUseDevice.cs:36-56 | scanning a list in two parts equals scanning it whole, unless the first part fails |
| ContinuousMonitoring.ScanStopsAtFirstFailure | Radao/Services/BackgroundServiceContinuousUseDevice.cs:36-55 | when device k is the first whose recording fails, the scan ends with ObjIsNull. The store is left as the devices before k made it; device k and the rest are untouched |
| ContinuousMonitoring.ScanAppendsScheduledAnalyses | Radao/Services/BackgroundServiceContinuousUseDevice.cs:49-50 | the scan keeps every earlier analysis and appends at most one per listed device. Each new analysis is dated today, has equal fountain and device ids, and a concentration from 0 to 200 |
| ContinuousMonitoring.BackgroundServiceContinuousUseDevice.VisitDevice | Radao/Services/BackgroundServiceContinuousUseDevice.cs:39-55 | one iteration of the foreach loop, done in place through the analysis service, equals ScanDevice on the context |
| ContinuousMonitoring.BackgroundServiceContinuousUseDevice.ScanOnce | Radao/Services/BackgroundServiceContinuousUseDevice.cs:31-56 | for a list holding every id of the continuous-use device table once, the in-place loop equals Scan on the context |

## Findings

| source | as written | input that shows it | evidently intended | confidence | as-written member | corrected member |
|---|---|---|---|---|---|---|
| Radao/Services/FountainService.cs:50-70 | the device is looked up with `FindAsync(fountainFull.DeviceId)` even when DeviceId is null. A null key finds nothing, so ObjIsNull is thrown. A DeviceId that exists reaches line 67 and throws DeviceAlreadyAssigned. No call can reach the insert at line 73 | any fountain: DeviceId null gives ObjIsNull; DeviceId naming an existing device at new coordinates gives DeviceAlreadyAssigned | look the device up only for a non-null DeviceId, so a fountain without a device at new coordinates is created | medium, not executed | FountainService.AddFountainAsWrittenNeverSucceeds | FountainService.AddFountain |

## Left out

- `DbSetNotInitialize`: the checks for a null table are not modelled. The tables always exist in the model.
- Controllers, `Program.cs`, DTOs and mappers are not part of this model: they are HTTP routing and field plumbing. RadaoContext and RadaoContextFactory are replaced by `RadaoContext`, a class holding three maps and a sequence.
- The scheduler loop around one scan is not modelled: the 24-hour wait, cancellation, logging and the creation of the service scope. `DateTime.Today` becomes the `today` parameter and `Random().Next(0, 201)` becomes `readings`.
- Interface members with no implementation are not modelled: `DeleteFountainAsync`, `UpdateFountainSusceptibilityAsync`, `UpdateFountainContinuousUseDeviceAsync` (swap) and `GetFavoriteFountainsAnalysis`. The analysis test file is entirely commented out.
- Exceptions defined but never thrown by the modelled code get no checks: InvalidRadonValue, InvalidDate, AssociatedToAnotherFountain, DeviceExpired, InvalidAnalysisFrequency.
- `GetFountainsAsync` returns the fountain table unchanged (its null check cannot fire); it has no separate member.
- Navigation properties (`Fountain.Device`, `ContinuousUseDevice.Fountain`, `WaterAnalysis.Fountain`/`Device`, `Fountain.WaterAnalysis`) are not modelled.
- The scan's attached test `cd.Fountain == null` is modelled as "FountainId is null". As written it reads a navigation property. The device list comes from `GetContinuousUseDevices` without an `Include`, and no lazy loading is configured. So `cd.Fountain` would be null for every device and the scan would record nothing. The model follows the evident intent, attachment by FountainId.
- The services import `System.Data.Entity` (Entity Framework 6) while `RadaoContext` is an Entity Framework Core context. The async query operators (`FirstOrDefaultAsync`, `SingleOrDefaultAsync`, `ToListAsync`) in FountainService.cs and DeviceService.cs may therefore bind to Entity Framework 6's extensions. Those throw on a query that is not Entity Framework 6-async, before any check runs. The model assumes the Entity Framework Core behaviour of these operators.
- Lookups written as `SingleOrDefault(x => x.Id == id)` are modelled as lookups by key. Under the primary-key invariant `WellFormed`, the two agree. The exception `SingleOrDefault` throws on duplicate ids cannot arise under unique keys and is not modelled.
- The continuous-use device model file shows `FountainId` as a non-nullable `int` and no `Id`/`Model`/`SerialNumber` fields. The services compare `FountainId` with null and use those fields, so the model follows the services: `Option<int>`, plus the device fields. ContinuousUseDevices and Devices are separate tables: a scan's recording needs a plain device with the continuous-use device's id.
- Identity columns: the id of a new fountain or device is a parameter, the database's choice. A new analysis gets one more than the largest stored id.
- FountainService.GetFountainsByDescription: the result is the matching fountains keyed by id, not a list in table order. The match is an ordinal substring test; a database collation that ignores case is not modelled. A null query (the `IsNullOrWhiteSpace` null case) cannot be expressed.
- Null arguments are modelled as `None` of an `Option`. A null `string` field inside a record is not modelled.
- Latitude, longitude and concentration are `real`. IEEE doubles (NaN, rounding) are not modelled; coordinates are only compared with `==`. Dates are integer day numbers.
- Asynchrony, change tracking and concurrent requests are not modelled. Each operation is one sequential step that commits at its save, and a failing operation's discarded edits are dropped with its request-scoped context. A failure of `SaveChangesAsync` itself is not modelled.
