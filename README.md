# iC3 calibration client — a verified Dafny model

This project models the logic core of the iC3 SSL client. The client drives an iC3 refrigerator or freezer through a calibration procedure and controls a door lock and light over a serial line. The model has these parts:

- **The calibration controller** (`CalibrationManager`), in modules `CalibrationTypes`, `CalibrationSpec`, `CalibrationProperties` and `Calibration`.
  - It owns a 15-minute stability tick, a 1-minute refresh of the reference readings, and a 1-second compressor poll.
  - It owns two offset fixes that send calibration requests for the control probe (RTD4) and the primary probe (RTD5).
  - On every compressor start it adds a record to its cycle list and judges whether the unit is calibrated.
  - The class `Calibration.CalibrationManager` keeps the source's fields and updates them step by step. Every method is proved to leave the object in the state that a function of module `CalibrationSpec` computes from the old state. The controller's promises are proved as lemmas over those functions.
- **The door manager** (`DoorManager`, module `Door`).
  - A one-flag gate ("waiting for a response") sits over four fixed 11-byte command frames.
  - The four acknowledgement frames are classified into signals.
  - A hex-dump formatter renders frames for logging.
  - The serial-port scan picks the first port that opens.
- **The table-definition serialiser** (`iC3_DatabaseTable`, module `DatabaseTable`). It holds an ordered column list and builds the `CREATE TABLE` statement and the CSV header from it. It also keeps a last-error message and two SQL literal helpers.
- **The format-string maps** (`iC3_DMM_UtilityFunctions`, module `DmmUtility`). These map transducer-type codes to labels and time and date format codes to Qt format strings.
- **The access-log record** (`iC3_TransducerData`, module `Transducer`).
  - The record has nine fields.
  - It has a default constructor, a full constructor, a copy constructor and assignment.
  - It has a setter for each field, plus two display mappings.
- **Payload extraction** (`Client::getPayload`, module `ClientPayload`): the received text from the first start-of-payload character onwards.

Modelling choices:

- **Readings and timers.**
  - The client object the controller asks for readings becomes a `ProbeReadings` value, passed to each callback.
  - Calibration requests are recorded in a ghost log.
  - Each Qt timer becomes a flag: `refreshActive` for the 1-minute timer and `pollArmed` for the 1-second timer. A callback of a stopped timer is not delivered.
  - Wall-clock time is an abstract `nat` timestamp. A cycle start reads the clock twice, once to close the last record and once to open the new one; the model uses one timestamp for both.
- **Numbers.**
  - Temperatures are `real`.
  - Enumerations that the C++ code may receive as any integer are modelled over `int`, or as a datatype with a case for every other value.
- **Cycle windows.** `checkIfCalibrated` and `compressorCycleStart` use `COMPRESSOR_CYCLES_CALIBRATION_CHECK` and `COMPRESSOR_CYCLES_ADJUSTMENT_CHECK`. Neither is defined in CalibrationManager.h, which defines only `COMPRESSOR_CYCLES_CHECK = 6`. The two windows are therefore constructor parameters `nCheck` and `nAdjust`. The end-to-end scenario uses 6.
- **The last-N loop.** The down-counting loop of `checkIfCalibrated` inspects exactly the last `nCheck` records. `compressorCycleStart` calls it only when the list holds at least that many, which is the precondition of `CheckIfCalibrated`.
- **Device kind.** The device kind is found by case-insensitive substring search. "Refrig" is tested before "Freezer", and case folding is ASCII-only.
- **Aborted fixes.** An offset fix that aborts (unknown device type, or a delta outside (-10, 10)) returns before restarting the 1-minute refresh timer. The timer stays stopped, which is modelled as written. `ControlAbortRepeats` proves that a second control fix applied directly after an aborted one, for the same device kind, aborts too. In a longer run a primary fix that sends restarts the timer, and the next refresh can make a later control fix succeed.
- **The default record's date.** The default constructor of `iC3_TransducerData` calls the static `QDate::fromJulianDay(0)` and discards the result. Its date therefore stays null (`NullDate`), which is modelled as written.
- **getPayload.** `Client::getPayload` uses `QString::section(c, 1, -1)`, which is modelled by its definition: split at every separator, keep the second to the last fields, and join them again. This is proved equal to "the text after the first separator".

## Model

| member | source | states |
|---|---|---|
| CalibrationTypes.StateValue | CalibrationManager.h:21-26 | each calibration state has its enumerator value, at most 2 |
| CalibrationTypes.HeaderConstants | CalibrationManager.h:7-26 | setpoints 4.0 and -30.0; stable band ±0.15; buffer 0.25; offset limits ±10; Unstable < Stable < Calibrated; ONE_MINUTE = 60·ONE_SECOND and FIFTEEN_MINUTES = 15·ONE_MINUTE; COMPRESSOR_CYCLES_CHECK = 6 |
| CalibrationTypes.Setpoint | CalibrationManager.h:8-9 | a refrigerator's setpoint is TEMPERATURE_SETPOINT_4C_REFRIGERATOR, above freezing; a freezer's is TEMPERATURE_SETPOINT_NEG_30C_FREEZER, below freezing |
| CalibrationTypes.Lower | CalibrationManager.cpp:80-94 | case folding keeps the length and folds each character |
| CalibrationTypes.ContainsIgnoringCase | CalibrationManager.cpp:80-94 | `QString::contains(pattern, Qt::CaseInsensitive)`: a match needs the pattern to fit in the text, and the empty pattern always matches; OccurrenceFound and ContainsIgnoresTextCase give its meaning |
| CalibrationTypes.LowerIdempotent | CalibrationManager.cpp:80-94 | folding twice is folding once |
| CalibrationTypes.LowerPrefix | CalibrationManager.cpp:80-94 | folding commutes with taking a prefix |
| CalibrationTypes.ContainsIgnoresTextCase | CalibrationManager.cpp:80-94 | the case-insensitive search gives the same answer on the folded text |
| CalibrationTypes.DeviceKindOf | CalibrationManager.cpp:80-94 | the if-chain on the device type: a refrigerator is at least as long as "Refrig" and a freezer at least as long as "Freezer"; RefrigeratorWhereverMentioned and FreezerWhenOnlyFreezerMentioned decide the two branches |
| CalibrationTypes.OccurrenceFound | CalibrationManager.cpp:80-94 | an occurrence of the pattern, in any case, anywhere in the text is found |
| CalibrationTypes.RefrigeratorWhereverMentioned | CalibrationManager.cpp:80-94 | a device type mentioning "Refrig" in any case is a refrigerator, whatever else it mentions |
| CalibrationTypes.FreezerWhenOnlyFreezerMentioned | CalibrationManager.cpp:80-94 | a device type mentioning "Freezer" but not "Refrig" is a freezer |
| CalibrationTypes.RefrigeratorDeviceType | CalibrationManager.cpp:80-84 | the device type "Refrigerator" is a refrigerator |
| CalibrationSpec.Initial | CalibrationManager.cpp:4-22 | the constructed state keeps the bookkeeping invariant: Unstable, no cycles, no requests, refresh timer running, poll not armed, compressor off |
| CalibrationSpec.Consistent | CalibrationManager.cpp:193-217 | the bookkeeping invariant: counter = records − 1, record i is numbered i, each record's end temperature is the next record's start temperature and (in the model only, see "## Left out") its end time is the next record's start time, the last is open, the poll is armed exactly outside Unstable, and Unstable has no records |
| CalibrationSpec.SetState | CalibrationManager.cpp:153-167 | the new state is s; entering Stable snapshots the compressor and arms the poll; nothing else changes |
| CalibrationSpec.ControlFix | CalibrationManager.cpp:71-109 | at most one request is appended, the refresh timer runs afterwards exactly when one was sent, and nothing else changes |
| CalibrationSpec.PrimaryFix | CalibrationManager.cpp:111-131 | at most one request is appended, the refresh timer runs afterwards exactly when one was sent, and nothing else changes |
| CalibrationSpec.Tick | CalibrationManager.cpp:29-69 | caches the primary reading, keeps the cycles and the counter, moves only from Unstable to Stable, and in Calibrated changes nothing else |
| CalibrationSpec.Refresh | CalibrationManager.cpp:133-146 | caches the control and reference temperatures and both offsets, and leaves the state, primary reading, cycles, requests and timers alone |
| CalibrationSpec.OpenCycle | CalibrationManager.cpp:195-217 | the counter goes up by one, one record is added, numbered with the new counter, started now at the reference, and still open; state, requests and poll stay |
| CalibrationSpec.CheckCalibrated | CalibrationManager.cpp:238-283 | keeps the cycles, counter, requests and timer, and can only set Calibrated, which needs a known device kind |
| CalibrationSpec.CheckAdjust | CalibrationManager.cpp:285-314 | keeps the state, cycles, counter, poll and compressor; with an unknown device kind it changes nothing |
| CalibrationSpec.CycleStart | CalibrationManager.cpp:193-236 | the cycles are those OpenCycle makes and the counter goes up by one; the state stays or becomes Calibrated; poll, compressor and cached reference stay |
| CalibrationSpec.Poll | CalibrationManager.cpp:169-191 | stores the new compressor state, and without an off-to-on edge changes nothing else |
| CalibrationProperties.ControlCorrectionGate | CalibrationManager.cpp:71-109 | the control fix sends (RTD4, offset + delta) exactly when the device kind is known and delta = reference − setpoint lies strictly inside (−10, 10) |
| CalibrationProperties.ControlCorrectionFromSetpoint | CalibrationManager.cpp:80-106 | given whether the kind is known and its setpoint, the control fix sends (RTD4, offset + reference − setpoint) exactly when the kind is known and that delta lies strictly inside (−10, 10) |
| CalibrationProperties.PrimaryCorrectionGate | CalibrationManager.cpp:111-131 | the primary fix sends (RTD5, offset + delta) exactly when delta = reference − primary lies strictly inside (−10, 10) |
| CalibrationProperties.FixesSendAtMostOne | CalibrationManager.cpp:71-131 | a fix appends at most one request, leaves the refresh timer running exactly when it sent one, and changes nothing else |
| CalibrationProperties.ControlFixScenario | CalibrationManager.cpp:80-106 | for a "Refrigerator" with reference 4.05 the control fix sends offset + 0.05 on RTD4 |
| CalibrationProperties.PrimaryFixScenario | CalibrationManager.cpp:115-128 | with reference 4.0 and primary 3.7 the primary fix sends offset + 0.3 on RTD5 |
| CalibrationProperties.ControlFixOutOfBandScenario | CalibrationManager.cpp:99-103 | for a "Refrigerator" with reference 20.0 (delta 16) nothing is sent and the refresh timer stays stopped |
| CalibrationProperties.ControlAbortRepeats | CalibrationManager.cpp:75-108 | an aborted control fix leaves the refresh timer stopped, so a second control fix for the same device kind aborts too |
| CalibrationProperties.TickCachesPrimary | CalibrationManager.cpp:31-33 | every tick caches the new primary reading, whatever the state |
| CalibrationProperties.TickFromUnstable | CalibrationManager.cpp:37-53 | from Unstable the tick moves to Stable exactly when the delta lies in [−0.15, 0.15]; then it snapshots the compressor, arms the poll and runs the control fix once; otherwise only the cached primary changes |
| CalibrationProperties.FirstTick | CalibrationManager.cpp:4-15 | the first tick after construction measures its delta against 100.0 |
| CalibrationProperties.TickWhileStable | CalibrationManager.cpp:54-59 | in Stable a tick stays Stable and runs the primary fix against the new reading |
| CalibrationProperties.TickWhileCalibrated | CalibrationManager.cpp:60-63 | in Calibrated a tick only caches the primary reading |
| CalibrationProperties.CheckCalibratedKeepsCycles | CalibrationManager.cpp:238-283 | the calibrated check changes no cycle, request or timer, and can only set Calibrated |
| CalibrationProperties.CheckAdjustKeepsCycles | CalibrationManager.cpp:285-314 | the adjustment check changes no cycle, state or timer |
| CalibrationProperties.OpenCycleBookkeeping | CalibrationManager.cpp:193-217 | opening a cycle closes the last record with the current time and reference, appends an open record numbered with the incremented counter, keeps earlier records and every other field, and preserves the list invariant |
| CalibrationProperties.CycleStartBookkeeping | CalibrationManager.cpp:193-236 | a cycle start preserves the list invariant, leaves the cycle list as the bookkeeping step made it, and increments the counter: the two checks after it change no record |
| CalibrationProperties.PollEdgeDetection | CalibrationManager.cpp:169-191 | a poll starts a cycle only on an off-to-on edge and always stores the new compressor state |
| CalibrationProperties.CalibratedVerdict | CalibrationManager.cpp:219-283 | from Stable, a cycle start ends Calibrated exactly when the list holds nCheck records, the kind is known and the last nCheck start temperatures all lie in setpoint ± 0.25; otherwise it stays Stable |
| CalibrationProperties.AdjustmentCheck | CalibrationManager.cpp:229-314 | when the list holds nAdjust records and the unit is not Calibrated, the control fix runs exactly when the live primary reading is outside setpoint ± 0.25 and the kind is known |
| CalibrationProperties.Step | CalibrationManager.cpp:29-191 | one timer callback; a callback of a stopped refresh timer or an unarmed poll changes nothing |
| CalibrationProperties.Run | CalibrationManager.cpp:29-191 | callbacks in order; while the refresh timer is stopped, any number of its callbacks change nothing |
| CalibrationProperties.TickStep | CalibrationManager.cpp:29-69 | a tick keeps the bookkeeping invariant, never regresses the state, keeps the cycle list and only appends to the request log |
| CalibrationProperties.PollStep | CalibrationManager.cpp:169-236 | a poll keeps the invariant, never regresses the state, adds a record exactly on an off-to-on edge and only appends to the request log |
| CalibrationProperties.StepProgress | CalibrationManager.cpp:29-236 | any delivered timer callback keeps the invariant, never regresses the state and only appends to the request log |
| CalibrationProperties.RunNeverRegresses | CalibrationManager.cpp:29-236 | over any sequence of callbacks the state never goes back, Calibrated is terminal and the request log only grows |
| CalibrationProperties.FromConstruction | CalibrationManager.cpp:193-217 | after construction and any callbacks the list holds counter + 1 records and record i carries cycle number i; while Unstable there are no records and no poll |
| CalibrationProperties.RunAppend | CalibrationManager.cpp:29-236 | running two event sequences one after the other is running their concatenation |
| CalibrationProperties.OnPollBelowWindow | CalibrationManager.cpp:169-236 | a compressor start at a steady reference with fewer than six records afterwards adds one record at that reference and stays Stable |
| CalibrationProperties.PairsBelowWindow | CalibrationManager.cpp:169-236 | fewer than six compressor cycles at a steady reference keep the unit Stable, with one record per start |
| CalibrationProperties.SixthStartCalibrates | CalibrationManager.cpp:219-283 | after five steady cycles at reference 4.1, the sixth start on a refrigerator ends Calibrated |
| CalibrationProperties.SixCyclesCalibrate | CalibrationManager.cpp:193-283 | six compressor starts at reference 4.1 on a refrigerator: Stable through the fifth, Calibrated after the sixth |
| CalibrationSpec.CloseLast | CalibrationManager.cpp:197-202 | closing the last record sets only its end time and end temperature |
| Calibration.CalibrationManager.constructor | CalibrationManager.cpp:4-22 | Unstable, no cycles, counter −1, compressor off, cached temperatures 100.0, refresh timer running, poll not armed |
| Calibration.CalibrationManager.GetCalibrationState | CalibrationManager.cpp:148-151 | returns the current state |
| Calibration.CalibrationManager.SetCalibrationState | CalibrationManager.cpp:153-167 | sets the state; entering Stable snapshots the compressor and arms the poll |
| Calibration.CalibrationManager.SendCalibrationRequest | CalibrationManager.cpp:106 | appends one (channel, value) request to the log |
| Calibration.CalibrationManager.DeviceSetpoint | CalibrationManager.cpp:80-94 | the kind is known exactly when the device type mentions "Refrig" or "Freezer", and then the setpoint is that kind's |
| Calibration.CalibrationManager.ControlRequest | CalibrationManager.cpp:75-104 | the setpoint chain and band test compute exactly the control correction |
| Calibration.CalibrationManager.FixControlProbeOffset | CalibrationManager.cpp:71-109 | the new state is the control fix of the old one |
| Calibration.CalibrationManager.FixPrimaryProbeOffset | CalibrationManager.cpp:111-131 | the new state is the primary fix of the old one |
| Calibration.CalibrationManager.FifteenMinuteTimeout | CalibrationManager.cpp:29-69 | the new state is the tick of the old one, and the invariant is kept |
| Calibration.CalibrationManager.UpdateTemperatureValuesTimeout | CalibrationManager.cpp:133-146 | caches the control and reference temperatures and both offsets from the client |
| Calibration.CalibrationManager.CompressorStateCheckTimeout | CalibrationManager.cpp:169-191 | the new state is the poll of the old one, and the invariant is kept |
| Calibration.CalibrationManager.CompressorCycleStart | CalibrationManager.cpp:193-236 | the new state is the cycle start of the old one |
| Calibration.CalibrationManager.AppendCycleRecord | CalibrationManager.cpp:195-217 | the new state is the old one with the cycle opened: counter incremented, last record closed, open record appended |
| Calibration.CalibrationManager.LastCyclesInBand | CalibrationManager.cpp:259-276 | the down-counting loop answers true exactly when the last nCheck start temperatures all lie in setpoint ± 0.25 |
| Calibration.CalibrationManager.CheckIfCalibrated | CalibrationManager.cpp:238-283 | the new state is the calibrated check of the old one |
| Calibration.CalibrationManager.CheckIfAdjustmentsNeedMade | CalibrationManager.cpp:285-314 | the new state is the adjustment check of the old one |
| Door.ClassifyResponse | DoorManager.cpp:156-194 | a response equal to one of the four acks yields exactly that ack's signal, and any other frame yields none |
| Door.FrameShapes | DoorManager.cpp:19-139 | all eight frames are 11 bytes from 0x02 to 0x03, and each ack equals its command except byte 2 (0xA0 to 0xA1) and byte 7 (one less) |
| Door.AcksDistinct | DoorManager.cpp:33-139 | the four acks are pairwise distinct, so at most one signal is emitted |
| Door.ToHexUpper | DoorManager.cpp:361 | two upper-case hex digits per byte, in order |
| Door.HexDigitsOfByte | DoorManager.cpp:358-373 | the two hex digits of a byte read back to the byte |
| Door.HexDumpRoundTrip | DoorManager.cpp:358-373 | a dump laid out as two digits and a space per byte reads back to the bytes |
| Door.ByteArrayToHexString | DoorManager.cpp:358-373 | n bytes give 3n characters: for each byte in order its two upper-case hex digits and a space, which read back to the bytes |
| Door.FirstOpenable | DoorManager.cpp:315-347 | a port is chosen exactly when some port opens, and it is the first in list order that opens |
| Door.FindSerialPort | DoorManager.cpp:315-347 | the scan loop stops at the first port that opens and reports whether one did |
| Door.DoorManager.constructor | DoorManager.cpp:8-14 | not waiting, timeout 500 ms, port "COM5" unless the scan found one |
| Door.DoorManager.IsSerialPortFound | DoorManager.cpp:351-354 | whether the scan found a port |
| Door.DoorManager.SetSerialPortName | DoorManager.cpp:301-304 | stores the port name |
| Door.DoorManager.SetWaitTimeoutMs | DoorManager.cpp:308-311 | stores the timeout |
| Door.DoorManager.SendSerialRequest | DoorManager.cpp:148-151 | records one transaction on the port with the timeout and frame |
| Door.DoorManager.LockDoor | DoorManager.cpp:215-232 | sends the lock frame exactly when not waiting; afterwards waiting is set |
| Door.DoorManager.UnlockDoor | DoorManager.cpp:236-254 | when not waiting, records the door opening and then sends the unlock frame; when waiting, does nothing; afterwards waiting is set |
| Door.DoorManager.TurnLightOn | DoorManager.cpp:258-275 | sends the light-on frame exactly when not waiting; afterwards waiting is set |
| Door.DoorManager.TurnLightOff | DoorManager.cpp:280-297 | sends the light-off frame exactly when not waiting; afterwards waiting is set |
| Door.DoorManager.HandleResponse | DoorManager.cpp:156-194 | clears waiting and emits the classified signal, if any |
| Door.DoorManager.HandleSerialPortError | DoorManager.cpp:198-203 | clears waiting |
| Door.DoorManager.HandleTimeout | DoorManager.cpp:207-211 | clears waiting |
| Door.GateScenario | DoorManager.cpp:156-254 | lock, then light-on while waiting (dropped), then the lock ack, then unlock: the log is the lock request, the locked signal, the recorded opening and the unlock request, and waiting is set again |
| DatabaseTable.Clauses | database/iC3_DatabaseTable.cpp:112-113 | one "name type constraints" clause per column, in order |
| DatabaseTable.Names | database/iC3_DatabaseTable.cpp:289-296 | one name per column, in order |
| DatabaseTable.TerminatedThenLast | database/iC3_DatabaseTable.cpp:110-118 | the loop's accumulator (each part followed by the separator), completed by the last part, is the join |
| DatabaseTable.TerminatedCons | database/iC3_DatabaseTable.cpp:110-114 | the accumulator unfolds from the front as well as from the back |
| DatabaseTable.AccumulateStep | database/iC3_DatabaseTable.cpp:110-114 | one round of the loop grows the accumulator by the next part and a separator |
| DatabaseTable.AccumulateFinish | database/iC3_DatabaseTable.cpp:116-118 | the last part after the accumulator completes the join |
| DatabaseTable.JoinLength | database/iC3_DatabaseTable.cpp:103-122 | a join has every part's length plus one separator between each pair of neighbours, with none trailing |
| DatabaseTable.JoinOrder | database/iC3_DatabaseTable.cpp:103-122 | the join of a list is the join of any prefix, a separator, and the join of the rest: parts appear in list order |
| DatabaseTable.JoinEndsWithLast | database/iC3_DatabaseTable.cpp:116-118 | the join ends with the last part, after a separator |
| DatabaseTable.JoinAppend | database/iC3_DatabaseTable.cpp:103-122 | appending a part appends a separator and that part |
| DatabaseTable.ClausesOfAppend | database/iC3_DatabaseTable.cpp:103-122 | appending a column appends its clause and its name |
| DatabaseTable.TableCreationShape | database/iC3_DatabaseTable.cpp:103-122 | the statement starts "CREATE TABLE IF NOT EXISTS name ( ", ends " );" and is exactly as long as its clauses, separators and framing |
| DatabaseTable.SingleColumn | database/iC3_DatabaseTable.cpp:103-122 | with one column there is no separator in the statement or the header |
| DatabaseTable.AppendColumn | database/iC3_DatabaseTable.cpp:103-122 | a column added at the end appears after ", " before the closing " );", and after ", " at the end of the header |
| DatabaseTable.SqlFormatBoolean | database/iC3_DatabaseTable.cpp:172-182 | "1" exactly for true and "0" exactly for false |
| DatabaseTable.SqlBooleanRoundTrip | database/iC3_DatabaseTable.cpp:172-182 | the literal reads back to the boolean |
| DatabaseTable.SqlFormatString | database/iC3_DatabaseTable.cpp:193-196 | the value between single quotes, unescaped, two characters longer |
| DatabaseTable.SqlStringRoundTrip | database/iC3_DatabaseTable.cpp:193-196 | stripping the quotes gives the value back |
| DatabaseTable.SqlStringKeepsQuotes | database/iC3_DatabaseTable.cpp:193-196 | an embedded quote is not escaped |
| DatabaseTable.Table.constructor | database/iC3_DatabaseTable.cpp:21-24 | no columns and no error message |
| DatabaseTable.Table.AddColumnDef | database/iC3_DatabaseTable.cpp:53-62 | a null column returns false and leaves the list unchanged; otherwise returns true, the column is at the index (GetColumnDef returns it there), earlier columns stay and later ones shift up by one |
| DatabaseTable.Table.GetColumnDef | database/iC3_DatabaseTable.cpp:72-78 | the column at the given index, for an index in range |
| DatabaseTable.Table.GetTableCreationSql | database/iC3_DatabaseTable.cpp:103-122 | the loop builds "CREATE TABLE IF NOT EXISTS name ( " + the clauses joined by ", " + " );", for a non-empty column list |
| DatabaseTable.Table.GetCsvFileColumnHeaders | database/iC3_DatabaseTable.cpp:282-301 | the loop builds the column names joined by ", " in list order, for a non-empty column list |
| DatabaseTable.Table.GetLastError | database/iC3_DatabaseTable.cpp:132-135 | the stored error message |
| DatabaseTable.Table.SetLastError | database/iC3_DatabaseTable.cpp:146-149 | afterwards GetLastError returns the message |
| DatabaseTable.Table.ClearLastError | database/iC3_DatabaseTable.cpp:158-161 | afterwards GetLastError returns "" |
| DmmUtility.TransducerTypeString | database/iC3_DMM_UtilityFunctions.cpp:35-95 | "Unknown" exactly for a code outside the thirteen labelled types; never empty |
| DmmUtility.TransducerLabelsDistinct | database/iC3_DMM_UtilityFunctions.cpp:35-95 | two labelled types have the same label exactly when they are the same type |
| DmmUtility.UnlabelledTransducerTypes | database/iC3_DMM_Constants.h:141-157 | NOT_SET (−1) and the unused value 2 map to "Unknown" |
| DmmUtility.TimeFormatString | database/iC3_DMM_UtilityFunctions.cpp:107-125 | "h:mm ap" exactly for 12-hour; "hh:mm" for 24-hour, NOT_SET and any other value |
| DmmUtility.DateFormatString | database/iC3_DMM_UtilityFunctions.cpp:137-152 | "MM/dd/yyyy" for MMDDYY, "dd/MM/yyyy" for DDMMYY, and empty exactly for other values |
| DmmUtility.FilePathDateFormatString | database/iC3_DMM_UtilityFunctions.cpp:192-207 | "MM-dd-yyyy" for MMDDYY, "dd-MM-yyyy" for DDMMYY, and empty exactly for other values |
| DmmUtility.FilePathTimeFormatString | database/iC3_DMM_UtilityFunctions.cpp:164-180 | "hh.mm.ss": eight characters with no ':' |
| DmmUtility.FilePathTimeIgnoresArgument | database/iC3_DMM_UtilityFunctions.cpp:164-180 | the file-path time format does not depend on its argument |
| DmmUtility.ReplaceChar | database/iC3_DMM_UtilityFunctions.cpp:192-207 | replaces every occurrence of one character and keeps the rest |
| DmmUtility.FilePathDateIsDisplayDate | database/iC3_DMM_UtilityFunctions.cpp:192-207 | the file-path date format is the display date format with every '/' made '-', so it contains no '/' |
| Transducer.UserDisplay | database/iC3_TransducerData.cpp:167-184 | the stored user for a normal access; otherwise one of "Denied", "Override" or ""; "Denied" exactly for a denied access, and "Override" exactly for an override access, unless a normal access's user is literally that text |
| Transducer.UserShownOnlyForNormalAccess | database/iC3_TransducerData.cpp:167-184 | a user name other than the fixed texts is shown exactly for a normal access |
| Transducer.AccessMethodLabel | database/iC3_TransducerData.cpp:311-334 | empty exactly for a method other than PIN, Key, Prox Card, Magnetic Swipe and Tech Override |
| Transducer.AccessMethodLabelsDistinct | database/iC3_TransducerData.cpp:311-334 | the five labels are pairwise distinct |
| Transducer.TransducerData.constructor | database/iC3_TransducerData.cpp:12-24 | not downloaded, not viewed, unknown event and method, duration 0, index 0, empty user, null date, time 00:00:01 |
| Transducer.TransducerData.Create | database/iC3_TransducerData.cpp:47-70 | stores the given index, event, user, date, time, duration and method; not viewed, not downloaded |
| Transducer.TransducerData.Copy | database/iC3_TransducerData.cpp:80-92 | the copy equals the source in all nine fields |
| Transducer.TransducerData.Assign | database/iC3_TransducerData.cpp:102-115 | this record takes all nine fields of the source, and the result is this record |
| Transducer.CopyIsIndependent | database/iC3_TransducerData.cpp:80-92 | the copy is a distinct object: after changing its user, the original is as it was and the copy differs only in the user |
| Transducer.TransducerData.SetAccessEvent | database/iC3_TransducerData.cpp:126-142 | the getter returns the event, and no other field changes |
| Transducer.TransducerData.SetUser | database/iC3_TransducerData.cpp:152-155 | the user is stored and shown through the display mapping, and no other field changes |
| Transducer.TransducerData.SetAccessDate | database/iC3_TransducerData.cpp:194-209 | the getter returns the date, and no other field changes |
| Transducer.TransducerData.SetAccessTime | database/iC3_TransducerData.cpp:219-234 | the getter returns the time, and no other field changes |
| Transducer.TransducerData.SetDurationMinutes | database/iC3_TransducerData.cpp:244-271 | both duration getters return the minutes, and no other field changes |
| Transducer.TransducerData.SetAccessMethod | database/iC3_TransducerData.cpp:282-298 | the enum getter returns the method and the label getter its label, and no other field changes |
| Transducer.TransducerData.SetEventSequenceIndex | database/iC3_TransducerData.cpp:343-359 | the getter returns the index, and no other field changes |
| Transducer.TransducerData.SetAccessEventViewed | database/iC3_TransducerData.cpp:369-386 | the getter returns the flag, and no other field changes |
| Transducer.TransducerData.SetAccessEventDownloaded | database/iC3_TransducerData.cpp:397-415 | the getter returns the flag, and no other field changes |
| ClientPayload.GetPayload | client.cpp:401-414 | the payload is empty or at least two characters starting with the start character, and empty when the start character does not occur |
| ClientPayload.SectionFromSecond | client.cpp:406 | `section(c, 1, -1)` is empty when c does not occur; SectionIsTextAfterFirst gives the rest |
| ClientPayload.JoinFields | client.cpp:406 | the join starts with the first part, followed by a separator when there are more |
| ClientPayload.SplitFields | client.cpp:406 | there is always one field, and exactly one when the separator does not occur |
| ClientPayload.FirstIndex | client.cpp:406 | the position of the first occurrence |
| ClientPayload.SplitThenJoin | client.cpp:406 | splitting at the separator and joining again gives the text back |
| ClientPayload.JoinPrepend | client.cpp:406 | putting a character in front of the first field puts it in front of the join |
| ClientPayload.SectionIsTextAfterFirst | client.cpp:406 | section(c, 1, −1) is the text after the first c, and empty when there is no c |
| ClientPayload.NoStartNoPayload | client.cpp:401-414 | a text without the start character has no payload |
| ClientPayload.PayloadIsSuffixFromFirstStart | client.cpp:406-411 | when the first start character is not the last character, the payload is the suffix from it |
| ClientPayload.StartAtEndNoPayload | client.cpp:406-411 | when the first start character is the last character, the payload is empty |
| ClientPayload.PayloadShape | client.cpp:406-413 | the payload is empty, or a suffix of the text that starts with the start character and has at least two characters |
| ClientPayload.PayloadIdempotent | client.cpp:406-413 | extracting the payload of a payload changes nothing |
| ClientPayload.ReplyLineScenario | client.cpp:285 | the text before the object is dropped: "OK {}" gives "{}" |

## Left out

- Qt timer scheduling and signal/slot wiring (`QTimer::start/stop`, `connect`): the timers are flags, the callbacks are methods, and a signal is an event in a ghost log.
- Wall-clock time (`QDateTime::currentDateTime` in the cycle records): a `nat` timestamp is the caller's parameter.
- CalibrationSpec.OpenCycle: the two `currentDateTime()` reads of `compressorCycleStart` (CalibrationManager.cpp:200 for the closed record's end, :213 for the new record's start) are one timestamp `now`, so the model cannot express a clock that moves between them.
- Calibration.CalibrationManager.AppendCycleRecord: stamps the closed record's end and the opened record's start with the same `now`, for the same reason as OpenCycle.
- CalibrationSpec.Consistent: the conjunct "end time of record i = start time of record i + 1" holds only because of that merged timestamp; in the source the two can differ. The matching temperature conjunct is genuine, since both sides read the same cached reference.
- Logging through `qDebug`/`qWarning`, the message handler and `abort()` in main.cpp: output only.
- IEEE double arithmetic: temperatures and offsets are `real`, which ignores rounding in the deltas and band comparisons.
- The client object: its readings are one `ProbeReadings` value per callback, and its `sendCalibrationRequest` is an entry in a ghost request log.
- Qt's Unicode case folding in `QString::contains(..., Qt::CaseInsensitive)`: folding here is ASCII-only.
- The SSL socket, the UI, the JSON parsing and the request files of client.cpp: network, UI and file I/O; only `getPayload` is modelled.
- SerialPortThread and the serial hardware: `findSerialPort`'s ports, and whether each opens, are a parameter, and a serial transaction is an entry in a ghost event log.
- `DataManager::recordDoorOpening`: a call into a class that is not part of this model, recorded only as a ghost event.
- Door.DoorManager.UnlockDoor: the `DataManager` pointer argument is not modelled, because only the recorded opening is observable here.
- SQL execution, CSV and file writing, `CheckTableIntegrity`, iC3_Database.cpp, iC3_DatabaseAccessLogTable.cpp and iC3_TransducerTable.cpp: database and file I/O.
- Qt date, time and number rendering (`SQL_FormatQDate/QTime/QDateTime/QDateQTime`, `SQL_FormatDouble/Float`): they depend on Qt library formatting.
- `setNumberOfColumns`: it only reserves capacity in the list and changes no observable state.
- DatabaseTable.Table.GetTableCreationSql: `QString::arg` chaining treats a `%1`..`%99` marker inside an earlier argument (a column name containing "%2", say) as a place for a later argument; the model assumes names, types and constraints contain no such markers.
- DatabaseTable.Table.GetColumnDef: an index out of range is excluded by the precondition, where `QList::at` would assert.
- DatabaseTable.Table.AddColumnDef: an index out of range for a non-null column is excluded by the precondition. Every caller inserts its columns at 0..n−1 in order (database/iC3_TransducerTable.cpp:20-35, database/iC3_DatabaseAccessLogTable.cpp:38-59), so the precondition holds at every call site.
- DatabaseTable.Table: the destructor's deletion of the column objects is memory management.
- Transducer.TransducerData.SetAccessEvent: the C++ setter takes an `int` and casts it to the enumeration; the enumerators' values live in a header outside this model, so the setter takes the enumeration value itself. The same holds for SetAccessMethod and for the full constructor.
- Transducer.TransducerData: the unused font accessors declared in the header and the dead `QDateTime` local of the full constructor.
- `tr()` translation: treated as the identity.
- Calibration.CalibrationManager.constructor: the two cycle windows are parameters, because the constants `COMPRESSOR_CYCLES_CALIBRATION_CHECK` and `COMPRESSOR_CYCLES_ADJUSTMENT_CHECK` that the code uses are not defined in the header shown.
- ErrorLogFile.cpp: log-file rotation, which is filesystem I/O.
