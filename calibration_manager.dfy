/**
 * The CalibrationManager object of CalibrationManager.cpp: its fields and the
 * three timer callbacks, written in its own step-by-step form. Each method is
 * proved to leave the object in the state the matching function of
 * CalibrationSpec computes; CalibrationProperties says what those mean.
 */
module Calibration {
  import opened Wrappers
  import opened CalibrationTypes
  import opened CalibrationSpec
  import CalibrationProperties

  class CalibrationManager {
    var state: CalibrationState
    var primaryTemperature: real
    var controlTemperature: real
    var flukeTemperature: real   // reference instrument, channel 1
    var controlOffset: real      // RTD4
    var primaryOffset: real      // RTD5
    var compressorOn: bool
    var numberCompressorCycles: int
    var cycles: seq<CycleData>
    var refreshActive: bool      // the 1-minute refresh timer is running
    var pollArmed: bool          // the 1-second compressor poll is running
    ghost var requests: seq<CalibrationRequest>   // every sendCalibrationRequest, in order
    const nCheck: nat            // cycles inspected by the calibrated verdict
    const nAdjust: nat           // cycles before the adjustment check runs

    ghost function Snapshot(): Controller
      reads this
    {
      Controller(state, primaryTemperature, controlTemperature, flukeTemperature, controlOffset,
                 primaryOffset, compressorOn, numberCompressorCycles, cycles, refreshActive,
                 pollArmed, requests)
    }

    ghost predicate Valid()
      reads this
    {
      Consistent(Snapshot()) && nCheck >= 1 && nAdjust >= 1
    }

    constructor (nCheck: nat, nAdjust: nat)
      requires nCheck >= 1 && nAdjust >= 1
      ensures Valid() && this.nCheck == nCheck && this.nAdjust == nAdjust
      ensures Snapshot() == Initial()
      ensures state == TemperatureUnstable && numberCompressorCycles == -1 && cycles == []
      ensures !compressorOn && primaryTemperature == 100.0 && requests == []
    {
      state := TemperatureUnstable;
      primaryTemperature, controlTemperature, flukeTemperature := 100.0, 100.0, 100.0;
      controlOffset, primaryOffset := 0.0, 0.0;
      compressorOn := false;
      numberCompressorCycles := -1;
      cycles := [];
      refreshActive := true;
      pollArmed := false;
      requests := [];
      this.nCheck, this.nAdjust := nCheck, nAdjust;
    }

    function GetCalibrationState(): (s: CalibrationState)
      reads this
      ensures s == Snapshot().state
    {
      state
    }

    method SetCalibrationState(s: CalibrationState, probe: ProbeReadings)
      modifies this`state, this`compressorOn, this`pollArmed
      ensures Snapshot() == SetState(old(Snapshot()), s, probe)
    {
      state := s;
      if state == TemperatureStable {
        compressorOn := probe.compressorOn;
        pollArmed := true;
      }
    }

    /** The client's sendCalibrationRequest, as far as the controller can see it. */
    method SendCalibrationRequest(channel: Channel, value: real)
      modifies this`requests
      ensures requests == old(requests) + [CalibrationRequest(channel, value)]
    {
      requests := requests + [CalibrationRequest(channel, value)];
    }

    /** The setpoint chain shared by the fix and the two checks: "Refrig" first, then "Freezer". */
    method DeviceSetpoint(deviceType: string) returns (known: bool, setpoint: real)
      ensures known <==> DeviceKindOf(deviceType) != UnknownDevice
      ensures known ==> setpoint == Setpoint(DeviceKindOf(deviceType))
    {
      var kind := DeviceKindOf(deviceType);
      if kind == Refrigerator {
        known, setpoint := true, TemperatureSetpointRefrigerator;
      } else if kind == Freezer {
        known, setpoint := true, TemperatureSetpointFreezer;
      } else {
        known, setpoint := false, 0.0;
      }
    }

    /** The request fixControlProbeOffset sends, if any: the setpoint chain, then the band test
        on reference - setpoint. */
    method ControlRequest(deviceType: string) returns (request: Option<CalibrationRequest>)
      ensures request == ControlCorrection(flukeTemperature, controlOffset, deviceType)
    {
      var known, setpoint := DeviceSetpoint(deviceType);
      CalibrationProperties.ControlCorrectionFromSetpoint(flukeTemperature, controlOffset, deviceType, known, setpoint);
      if !known {
        return None;
      }
      var contOffsetDelta := flukeTemperature - setpoint;
      if contOffsetDelta <= OffsetValueMin || contOffsetDelta >= OffsetValueMax {
        return None;
      }
      return Some(CalibrationRequest(RTD4, controlOffset + contOffsetDelta));
    }

    method FixControlProbeOffset(probe: ProbeReadings)
      modifies this`refreshActive, this`requests
      ensures Snapshot() == ControlFix(old(Snapshot()), probe)
    {
      refreshActive := false;
      var request := ControlRequest(probe.deviceType);
      if request.None? {
        return;
      }
      SendCalibrationRequest(request.value.channel, request.value.value);
      refreshActive := true;
    }

    method FixPrimaryProbeOffset()
      modifies this`refreshActive, this`requests
      ensures Snapshot() == PrimaryFix(old(Snapshot()))
    {
      refreshActive := false;
      var primOffsetDelta := flukeTemperature - primaryTemperature;
      if primOffsetDelta <= OffsetValueMin || primOffsetDelta >= OffsetValueMax {
        return;
      }
      SendCalibrationRequest(RTD5, primaryOffset + primOffsetDelta);
      refreshActive := true;
    }

    /** slot_FifteenMinuteTimeout. */
    method FifteenMinuteTimeout(probe: ProbeReadings)
      requires Valid()
      modifies this`primaryTemperature, this`state, this`compressorOn, this`pollArmed, this`refreshActive,
        this`requests
      ensures Valid()
      ensures Snapshot() == Tick(old(Snapshot()), probe)
    {
      CalibrationProperties.TickStep(Snapshot(), probe);
      var newPrimaryTemperature := probe.primaryTemp;
      var primaryTemperatureDelta := newPrimaryTemperature - primaryTemperature;
      primaryTemperature := newPrimaryTemperature;
      if state == TemperatureUnstable {
        if primaryTemperatureDelta >= StableTemperatureDeltaLowerBound &&
           primaryTemperatureDelta <= StableTemperatureDeltaUpperBound {
          SetCalibrationState(TemperatureStable, probe);
          FixControlProbeOffset(probe);
          return;
        }
      } else if state == TemperatureStable {
        FixPrimaryProbeOffset();
      }
    }

    /** slot_UpdateTemperatureValuesTimeout: delivered only while the refresh timer runs. */
    method UpdateTemperatureValuesTimeout(probe: ProbeReadings)
      requires Valid() && refreshActive
      modifies this`controlTemperature, this`flukeTemperature, this`controlOffset, this`primaryOffset
      ensures Valid()
      ensures Snapshot() == Refresh(old(Snapshot()), probe)
    {
      controlTemperature := probe.controlTemp;
      flukeTemperature := probe.flukeTemp1;
      controlOffset := probe.controlOffset;
      primaryOffset := probe.primaryOffset;
    }

    /** slot_CompressorStateCheckTimeout at time now: delivered only once the poll is armed. */
    method CompressorStateCheckTimeout(probe: ProbeReadings, now: nat)
      requires Valid() && pollArmed
      modifies this`compressorOn, this`numberCompressorCycles, this`cycles, this`state, this`pollArmed,
        this`refreshActive, this`requests
      ensures Valid()
      ensures Snapshot() == Poll(old(Snapshot()), probe, now, nCheck, nAdjust)
    {
      CalibrationProperties.PollStep(Snapshot(), probe, now, nCheck, nAdjust);
      var newCompressorState := probe.compressorOn;
      if !compressorOn && newCompressorState {
        CompressorCycleStart(probe, now);
      }
      compressorOn := newCompressorState;
    }

    method CompressorCycleStart(probe: ProbeReadings, now: nat)
      modifies this`numberCompressorCycles, this`cycles, this`state, this`compressorOn, this`pollArmed,
        this`refreshActive, this`requests
      ensures Snapshot() == CycleStart(old(Snapshot()), probe, now, nCheck, nAdjust)
    {
      AppendCycleRecord(now);
      ghost var c1 := Snapshot();
      if |cycles| >= nCheck {
        CheckIfCalibrated(probe);
        CalibrationProperties.CheckCalibratedKeepsCycles(c1, probe, nCheck);
      }
      if |cycles| >= nAdjust && state != Calibrated {
        CheckIfAdjustmentsNeedMade(probe);
      }
    }

    /** The first half of compressorCycleStart: the counter, the closed record and the new one.
        The source's two clock reads are the one timestamp now. */
    method AppendCycleRecord(now: nat)
      modifies this`numberCompressorCycles, this`cycles
      ensures Snapshot() == OpenCycle(old(Snapshot()), now)
    {
      numberCompressorCycles := numberCompressorCycles + 1;
      if cycles != [] {
        var i := |cycles| - 1;
        cycles := cycles[i := cycles[i].(endTime := Some(now), tempEnd := Some(flukeTemperature))];
      }
      cycles := cycles + [CycleData(numberCompressorCycles, now, None, flukeTemperature, None)];
    }

    /** The down-counting scan of checkIfCalibrated over the last nCheck start temperatures. */
    method LastCyclesInBand(setpoint: real) returns (calibrated: bool)
      requires nCheck <= |cycles|
      ensures calibrated == WindowInBand(cycles, nCheck, setpoint)
    {
      calibrated := true;
      var indexToStop := |cycles| - nCheck;
      var i := |cycles| - 1;
      while i >= indexToStop
        invariant indexToStop - 1 <= i <= |cycles| - 1
        invariant calibrated == forall j :: i < j < |cycles| ==> InCalibratedBand(cycles[j].tempStart, setpoint)
      {
        if cycles[i].tempStart > setpoint + CalibratedTemperatureBuffer {
          calibrated := false;
        }
        if cycles[i].tempStart < setpoint - CalibratedTemperatureBuffer {
          calibrated := false;
        }
        i := i - 1;
      }
    }

    method CheckIfCalibrated(probe: ProbeReadings)
      requires nCheck <= |cycles|
      modifies this`state, this`compressorOn, this`pollArmed
      ensures Snapshot() == CheckCalibrated(old(Snapshot()), probe, nCheck)
    {
      var known, setpoint := DeviceSetpoint(probe.deviceType);
      if !known {
        return;
      }
      var calibrated := LastCyclesInBand(setpoint);
      if calibrated {
        SetCalibrationState(Calibrated, probe);
      }
    }

    method CheckIfAdjustmentsNeedMade(probe: ProbeReadings)
      modifies this`refreshActive, this`requests
      ensures Snapshot() == CheckAdjust(old(Snapshot()), probe)
    {
      var known, setpoint := DeviceSetpoint(probe.deviceType);
      if !known {
        return;
      }
      var primary := probe.primaryTemp;
      if primary > setpoint + CalibratedTemperatureBuffer || primary < setpoint - CalibratedTemperatureBuffer {
        FixControlProbeOffset(probe);
      }
    }
  }
}
