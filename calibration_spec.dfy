/**
 * The meaning of CalibrationManager.cpp as functions on a value of the
 * controller's whole state. Each timer callback and each helper of the class
 * in module Calibration is proved equal to one of these functions; the
 * lemmas below state what the controller promises about them.
 */
module CalibrationSpec {
  import opened Wrappers
  import opened CalibrationTypes

  /** Every field of a CalibrationManager, plus the log of calibration requests sent. */
  datatype Controller = Controller(
    state: CalibrationState,
    primaryTemperature: real,
    controlTemperature: real,
    flukeTemperature: real,
    controlOffset: real,
    primaryOffset: real,
    compressorOn: bool,
    cycleCount: int,
    cycles: seq<CycleData>,
    refreshActive: bool,
    pollArmed: bool,
    requests: seq<CalibrationRequest>)

  /** The state right after construction; the 1-minute refresh timer is started there. */
  function Initial(): (c: Controller)
    ensures Consistent(c)
    ensures c.state == TemperatureUnstable && c.cycles == [] && c.requests == []
    ensures c.refreshActive && !c.pollArmed && !c.compressorOn
  {
    Controller(TemperatureUnstable, 100.0, 100.0, 100.0, 0.0, 0.0, false, -1, [], true, false, [])
  }

  /** setCalibrationState: entering Stable snapshots the compressor and arms the 1-second poll. */
  function SetState(c: Controller, s: CalibrationState, probe: ProbeReadings): (r: Controller)
    ensures r.state == s
    ensures s == TemperatureStable ==> r.pollArmed && r.compressorOn == probe.compressorOn
    ensures r.(compressorOn := c.compressorOn, pollArmed := c.pollArmed) == c.(state := s)
    ensures s != TemperatureStable ==> r == c.(state := s)
  {
    if s == TemperatureStable then c.(state := s, compressorOn := probe.compressorOn, pollArmed := true)
    else c.(state := s)
  }

  /** The request fixControlProbeOffset sends, if any. */
  function ControlCorrection(flukeTemperature: real, controlOffset: real, deviceType: string): Option<CalibrationRequest> {
    var kind := DeviceKindOf(deviceType);
    if kind == UnknownDevice then None
    else
      var delta := flukeTemperature - Setpoint(kind);
      if !InOffsetBand(delta) then None
      else Some(CalibrationRequest(RTD4, controlOffset + delta))
  }

  /** The request fixPrimaryProbeOffset sends, if any. */
  function PrimaryCorrection(flukeTemperature: real, primaryTemperature: real, primaryOffset: real): Option<CalibrationRequest> {
    var delta := flukeTemperature - primaryTemperature;
    if !InOffsetBand(delta) then None
    else Some(CalibrationRequest(RTD5, primaryOffset + delta))
  }

  function AsLog(r: Option<CalibrationRequest>): seq<CalibrationRequest> {
    if r.Some? then [r.value] else []
  }

  /** A fix stops the refresh timer and restarts it only when it sends its request. */
  function ApplyCorrection(c: Controller, r: Option<CalibrationRequest>): Controller {
    c.(requests := c.requests + AsLog(r), refreshActive := r.Some?)
  }

  function ControlFix(c: Controller, probe: ProbeReadings): (r: Controller)
    ensures |c.requests| <= |r.requests| <= |c.requests| + 1 && r.requests[..|c.requests|] == c.requests
    ensures r.refreshActive <==> |r.requests| == |c.requests| + 1
    ensures r.(requests := c.requests, refreshActive := c.refreshActive) == c
  {
    ApplyCorrection(c, ControlCorrection(c.flukeTemperature, c.controlOffset, probe.deviceType))
  }

  function PrimaryFix(c: Controller): (r: Controller)
    ensures |c.requests| <= |r.requests| <= |c.requests| + 1 && r.requests[..|c.requests|] == c.requests
    ensures r.refreshActive <==> |r.requests| == |c.requests| + 1
    ensures r.(requests := c.requests, refreshActive := c.refreshActive) == c
  {
    ApplyCorrection(c, PrimaryCorrection(c.flukeTemperature, c.primaryTemperature, c.primaryOffset))
  }

  /** slot_FifteenMinuteTimeout. */
  function Tick(c: Controller, probe: ProbeReadings): (r: Controller)
    ensures r.primaryTemperature == probe.primaryTemp
    ensures r.cycles == c.cycles && r.cycleCount == c.cycleCount
    ensures r.state == c.state || (c.state == TemperatureUnstable && r.state == TemperatureStable)
    ensures c.state == Calibrated ==> r == c.(primaryTemperature := probe.primaryTemp)
  {
    var delta := probe.primaryTemp - c.primaryTemperature;
    var c1 := c.(primaryTemperature := probe.primaryTemp);
    match c.state
    case TemperatureUnstable =>
      if InStableBand(delta) then ControlFix(SetState(c1, TemperatureStable, probe), probe) else c1
    case TemperatureStable => PrimaryFix(c1)
    case Calibrated => c1
  }

  /** slot_UpdateTemperatureValuesTimeout. */
  function Refresh(c: Controller, probe: ProbeReadings): (r: Controller)
    ensures r.controlTemperature == probe.controlTemp && r.flukeTemperature == probe.flukeTemp1
    ensures r.controlOffset == probe.controlOffset && r.primaryOffset == probe.primaryOffset
    ensures r.state == c.state && r.primaryTemperature == c.primaryTemperature && r.cycles == c.cycles
    ensures r.requests == c.requests && r.refreshActive == c.refreshActive && r.pollArmed == c.pollArmed
  {
    c.(controlTemperature := probe.controlTemp, flukeTemperature := probe.flukeTemp1,
       controlOffset := probe.controlOffset, primaryOffset := probe.primaryOffset)
  }

  /** The cycle list after closing its last record at time now with end temperature temp. */
  function CloseLast(cycles: seq<CycleData>, now: nat, temp: real): (r: seq<CycleData>)
    ensures |r| == |cycles|
  {
    if cycles == [] then []
    else cycles[|cycles| - 1 := cycles[|cycles| - 1].(endTime := Some(now), tempEnd := Some(temp))]
  }

  /** The last n start temperatures all lie in the calibrated band. */
  predicate WindowInBand(cycles: seq<CycleData>, n: nat, setpoint: real)
    requires n <= |cycles|
  {
    forall j :: |cycles| - n <= j < |cycles| ==> InCalibratedBand(cycles[j].tempStart, setpoint)
  }

  /** checkIfCalibrated. */
  function CheckCalibrated(c: Controller, probe: ProbeReadings, nCheck: nat): (r: Controller)
    requires nCheck <= |c.cycles|
    ensures r.state == c.state || r.state == Calibrated
    ensures r.state != c.state ==> DeviceKindOf(probe.deviceType) != UnknownDevice
    ensures r.cycles == c.cycles && r.cycleCount == c.cycleCount
    ensures r.requests == c.requests && r.refreshActive == c.refreshActive
  {
    var kind := DeviceKindOf(probe.deviceType);
    if kind == UnknownDevice then c
    else if WindowInBand(c.cycles, nCheck, Setpoint(kind)) then SetState(c, Calibrated, probe)
    else c
  }

  /** checkIfAdjustmentsNeedMade: it reads the live primary temperature. */
  function CheckAdjust(c: Controller, probe: ProbeReadings): (r: Controller)
    ensures r.state == c.state && r.cycles == c.cycles && r.cycleCount == c.cycleCount
    ensures r.pollArmed == c.pollArmed && r.compressorOn == c.compressorOn
    ensures DeviceKindOf(probe.deviceType) == UnknownDevice ==> r == c
  {
    var kind := DeviceKindOf(probe.deviceType);
    if kind == UnknownDevice then c
    else if !InCalibratedBand(probe.primaryTemp, Setpoint(kind)) then ControlFix(c, probe)
    else c
  }

  /** The bookkeeping half of compressorCycleStart: count the cycle, close the last record with
      the current time and reference, and append an open one. The source reads the clock once for
      the close and once for the open; here one timestamp, now, stands for both. */
  function OpenCycle(c: Controller, now: nat): (r: Controller)
    ensures r.cycleCount == c.cycleCount + 1 && |r.cycles| == |c.cycles| + 1
    ensures r.cycles[|c.cycles|] == CycleData(c.cycleCount + 1, now, None, c.flukeTemperature, None)
    ensures r.state == c.state && r.requests == c.requests && r.pollArmed == c.pollArmed
  {
    var number := c.cycleCount + 1;
    c.(cycleCount := number,
       cycles := CloseLast(c.cycles, now, c.flukeTemperature) + [CycleData(number, now, None, c.flukeTemperature, None)])
  }

  /** compressorCycleStart at time now. */
  function CycleStart(c: Controller, probe: ProbeReadings, now: nat, nCheck: nat, nAdjust: nat): (r: Controller)
    ensures r.cycles == OpenCycle(c, now).cycles && r.cycleCount == c.cycleCount + 1
    ensures r.state == c.state || r.state == Calibrated
    ensures r.pollArmed == c.pollArmed && r.compressorOn == c.compressorOn
    ensures r.flukeTemperature == c.flukeTemperature
  {
    var c1 := OpenCycle(c, now);
    var c2 := if |c1.cycles| >= nCheck then CheckCalibrated(c1, probe, nCheck) else c1;
    if |c1.cycles| >= nAdjust && c2.state != Calibrated then CheckAdjust(c2, probe) else c2
  }

  /** slot_CompressorStateCheckTimeout at time now. */
  function Poll(c: Controller, probe: ProbeReadings, now: nat, nCheck: nat, nAdjust: nat): (r: Controller)
    ensures r.compressorOn == probe.compressorOn
    ensures !(!c.compressorOn && probe.compressorOn) ==> r == c.(compressorOn := probe.compressorOn)
  {
    var c1 := if !c.compressorOn && probe.compressorOn then CycleStart(c, probe, now, nCheck, nAdjust) else c;
    c1.(compressorOn := probe.compressorOn)
  }

  /** The bookkeeping every reachable state keeps. That a record's end time is the next record's
      start time follows from OpenCycle's single timestamp; the temperatures match in the source too. */
  ghost predicate Consistent(c: Controller) {
    && c.cycleCount == |c.cycles| - 1
    && (forall i :: 0 <= i < |c.cycles| ==> c.cycles[i].cycleNumber == i)
    && (forall i :: 0 <= i < |c.cycles| - 1 ==>
          c.cycles[i].endTime == Some(c.cycles[i + 1].startTime) &&
          c.cycles[i].tempEnd == Some(c.cycles[i + 1].tempStart))
    && (|c.cycles| > 0 ==> c.cycles[|c.cycles| - 1].endTime == None && c.cycles[|c.cycles| - 1].tempEnd == None)
    && c.pollArmed == (c.state != TemperatureUnstable)
    && (c.state == TemperatureUnstable ==> c.cycles == [])
  }
}
