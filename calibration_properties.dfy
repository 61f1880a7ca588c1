/**
 * What the calibration controller promises, proved about the functions of
 * CalibrationSpec: the gates of the two offset fixes, the transitions of the
 * 15-minute tick, the compressor-cycle bookkeeping, the calibrated verdict,
 * and monotonic progress over any sequence of timer callbacks.
 */
module CalibrationProperties {
  import opened Wrappers
  import opened CalibrationTypes
  import opened CalibrationSpec

  // ---------------------------------------------------------------------
  // The two offset fixes
  // ---------------------------------------------------------------------

  /** The control fix sends (RTD4, offset + delta) exactly when the device type is known
      and delta = reference - setpoint lies strictly inside (-10, 10). */
  lemma ControlCorrectionGate(fluke: real, offset: real, deviceType: string)
    ensures var r := ControlCorrection(fluke, offset, deviceType);
      && (r.Some? <==> (DeviceKindOf(deviceType) != UnknownDevice &&
                        -10.0 < fluke - Setpoint(DeviceKindOf(deviceType)) < 10.0))
      && (r.Some? ==> r.value == CalibrationRequest(RTD4, offset + (fluke - Setpoint(DeviceKindOf(deviceType)))))
  {
  }

  /** ControlCorrection read off the setpoint chain's two answers: whether the kind is known
      and, if so, its setpoint. */
  lemma ControlCorrectionFromSetpoint(fluke: real, offset: real, deviceType: string, known: bool, setpoint: real)
    requires known <==> DeviceKindOf(deviceType) != UnknownDevice
    requires known ==> setpoint == Setpoint(DeviceKindOf(deviceType))
    ensures ControlCorrection(fluke, offset, deviceType) ==
      if known && InOffsetBand(fluke - setpoint) then Some(CalibrationRequest(RTD4, offset + (fluke - setpoint))) else None
  {
  }

  /** The primary fix sends (RTD5, offset + delta) exactly when delta = reference - primary
      lies strictly inside (-10, 10). */
  lemma PrimaryCorrectionGate(fluke: real, primary: real, offset: real)
    ensures var r := PrimaryCorrection(fluke, primary, offset);
      && (r.Some? <==> -10.0 < fluke - primary < 10.0)
      && (r.Some? ==> r.value == CalibrationRequest(RTD5, offset + (fluke - primary)))
  {
  }

  /** A fix appends at most one request, leaves the refresh timer running only if it sent one,
      and changes nothing else. */
  lemma FixesSendAtMostOne(c: Controller, probe: ProbeReadings)
    ensures var c' := ControlFix(c, probe);
      && c'.requests == c.requests + AsLog(ControlCorrection(c.flukeTemperature, c.controlOffset, probe.deviceType))
      && c'.refreshActive == (|c'.requests| == |c.requests| + 1)
      && c'.(requests := c.requests, refreshActive := c.refreshActive) == c
    ensures var c' := PrimaryFix(c);
      && c'.requests == c.requests + AsLog(PrimaryCorrection(c.flukeTemperature, c.primaryTemperature, c.primaryOffset))
      && c'.refreshActive == (|c'.requests| == |c.requests| + 1)
      && c'.(requests := c.requests, refreshActive := c.refreshActive) == c
  {
  }

  /** Scenario: refrigerator, reference 4.05: the control fix sends offset + 0.05. */
  lemma ControlFixScenario(c: Controller, probe: ProbeReadings)
    requires probe.deviceType == "Refrigerator" && c.flukeTemperature == 4.05
    ensures ControlFix(c, probe).requests == c.requests + [CalibrationRequest(RTD4, c.controlOffset + 0.05)]
  {
    RefrigeratorDeviceType();
  }

  /** Scenario: reference 4.0, primary 3.7: the primary fix sends offset + 0.3. */
  lemma PrimaryFixScenario(c: Controller)
    requires c.flukeTemperature == 4.0 && c.primaryTemperature == 3.7
    ensures PrimaryFix(c).requests == c.requests + [CalibrationRequest(RTD5, c.primaryOffset + 0.3)]
  {
  }

  /** Scenario: refrigerator with reference 20.0 (delta 16): no request, refresh timer left stopped. */
  lemma ControlFixOutOfBandScenario(c: Controller, probe: ProbeReadings)
    requires probe.deviceType == "Refrigerator" && c.flukeTemperature == 20.0
    ensures ControlFix(c, probe).requests == c.requests
    ensures !ControlFix(c, probe).refreshActive
  {
    RefrigeratorDeviceType();
  }

  /** An aborted control fix leaves the refresh timer stopped, and a second control fix applied
      directly after it, for the same device kind, aborts too. */
  lemma ControlAbortRepeats(c: Controller, probe: ProbeReadings, later: ProbeReadings)
    requires ControlFix(c, probe).requests == c.requests
    requires DeviceKindOf(later.deviceType) == DeviceKindOf(probe.deviceType)
    ensures !ControlFix(c, probe).refreshActive
    ensures ControlFix(ControlFix(c, probe), later).requests == c.requests
  {
  }

  // ---------------------------------------------------------------------
  // The 15-minute tick
  // ---------------------------------------------------------------------

  /** Every tick caches the new primary reading, whatever the state. */
  lemma TickCachesPrimary(c: Controller, probe: ProbeReadings)
    ensures Tick(c, probe).primaryTemperature == probe.primaryTemp
  {
  }

  /** From Unstable a tick moves to Stable exactly when the delta lies in [-0.15, 0.15];
      then it snapshots the compressor, arms the poll and runs the control fix once.
      Otherwise only the cached primary reading changes. */
  lemma TickFromUnstable(c: Controller, probe: ProbeReadings)
    requires c.state == TemperatureUnstable
    ensures var delta := probe.primaryTemp - c.primaryTemperature;
      && (Tick(c, probe).state == TemperatureStable <==> -0.15 <= delta <= 0.15)
      && (InStableBand(delta) ==>
            && Tick(c, probe).pollArmed
            && Tick(c, probe).compressorOn == probe.compressorOn
            && Tick(c, probe).requests ==
                 c.requests + AsLog(ControlCorrection(c.flukeTemperature, c.controlOffset, probe.deviceType)))
      && (!InStableBand(delta) ==> Tick(c, probe) == c.(primaryTemperature := probe.primaryTemp))
  {
  }

  /** The first tick after construction measures its delta against 100.0. */
  lemma FirstTick(probe: ProbeReadings)
    ensures Tick(Initial(), probe).state == TemperatureStable <==> InStableBand(probe.primaryTemp - 100.0)
  {
    TickFromUnstable(Initial(), probe);
  }

  /** In Stable every tick runs the primary fix against the new reading and stays Stable. */
  lemma TickWhileStable(c: Controller, probe: ProbeReadings)
    requires c.state == TemperatureStable
    ensures Tick(c, probe).state == TemperatureStable
    ensures Tick(c, probe).requests ==
      c.requests + AsLog(PrimaryCorrection(c.flukeTemperature, probe.primaryTemp, c.primaryOffset))
  {
  }

  /** In Calibrated a tick only caches the primary reading. */
  lemma TickWhileCalibrated(c: Controller, probe: ProbeReadings)
    requires c.state == Calibrated
    ensures Tick(c, probe) == c.(primaryTemperature := probe.primaryTemp)
  {
  }

  // ---------------------------------------------------------------------
  // The compressor poll and cycle bookkeeping
  // ---------------------------------------------------------------------

  lemma CheckCalibratedKeepsCycles(c: Controller, probe: ProbeReadings, nCheck: nat)
    requires nCheck <= |c.cycles|
    ensures var c' := CheckCalibrated(c, probe, nCheck);
      c'.cycles == c.cycles && c'.cycleCount == c.cycleCount && c'.requests == c.requests &&
      c'.pollArmed == c.pollArmed && (c'.state == c.state || c'.state == Calibrated)
  {
  }

  lemma CheckAdjustKeepsCycles(c: Controller, probe: ProbeReadings)
    ensures var c' := CheckAdjust(c, probe);
      c'.cycles == c.cycles && c'.cycleCount == c.cycleCount && c'.state == c.state &&
      c'.pollArmed == c.pollArmed && c'.compressorOn == c.compressorOn
  {
  }

  /** Opening a cycle closes the last record with the current reference and time, appends an open
      record numbered with the incremented counter, leaves the earlier records unchanged, and
      keeps the bookkeeping invariant. */
  lemma OpenCycleBookkeeping(c: Controller, now: nat)
    requires Consistent(c) && c.pollArmed
    ensures var c1 := OpenCycle(c, now);
      && Consistent(c1)
      && c1.(cycleCount := c.cycleCount, cycles := c.cycles) == c
      && |c1.cycles| == |c.cycles| + 1
      && (forall i :: 0 <= i < |c.cycles| - 1 ==> c1.cycles[i] == c.cycles[i])
      && (|c.cycles| > 0 ==>
            c1.cycles[|c.cycles| - 1] ==
            c.cycles[|c.cycles| - 1].(endTime := Some(now), tempEnd := Some(c.flukeTemperature)))
      && c1.cycles[|c.cycles|] == CycleData(|c.cycles|, now, None, c.flukeTemperature, None)
  {
    var c1 := OpenCycle(c, now);
    var list := c1.cycles;
    forall i | 0 <= i < |list| - 1
      ensures list[i].endTime == Some(list[i + 1].startTime) && list[i].tempEnd == Some(list[i + 1].tempStart)
    {
      if i < |c.cycles| - 1 {
        assert list[i] == c.cycles[i];
        assert list[i + 1].startTime == c.cycles[i + 1].startTime;
        assert list[i + 1].tempStart == c.cycles[i + 1].tempStart;
      }
    }
  }

  /** A cycle start does the bookkeeping of OpenCycle; the two checks after it leave the cycle list,
      the counter and the invariant alone. */
  lemma CycleStartBookkeeping(c: Controller, probe: ProbeReadings, now: nat, nCheck: nat, nAdjust: nat)
    requires Consistent(c) && c.pollArmed
    ensures var c' := CycleStart(c, probe, now, nCheck, nAdjust);
      && Consistent(c')
      && c'.cycles == OpenCycle(c, now).cycles
      && c'.cycleCount == c.cycleCount + 1
  {
    var c1 := OpenCycle(c, now);
    OpenCycleBookkeeping(c, now);
    var c2 := if |c1.cycles| >= nCheck then CheckCalibrated(c1, probe, nCheck) else c1;
    if |c1.cycles| >= nCheck { CheckCalibratedKeepsCycles(c1, probe, nCheck); }
    CheckAdjustKeepsCycles(c2, probe);
  }

  /** A poll starts a cycle only on an off-to-on edge and always stores the new compressor state. */
  lemma PollEdgeDetection(c: Controller, probe: ProbeReadings, now: nat, nCheck: nat, nAdjust: nat)
    ensures Poll(c, probe, now, nCheck, nAdjust).compressorOn == probe.compressorOn
    ensures !(!c.compressorOn && probe.compressorOn) ==>
      Poll(c, probe, now, nCheck, nAdjust) == c.(compressorOn := probe.compressorOn)
    ensures !c.compressorOn && probe.compressorOn ==>
      Poll(c, probe, now, nCheck, nAdjust) == CycleStart(c, probe, now, nCheck, nAdjust).(compressorOn := true)
  {
  }

  /** The calibrated verdict on a cycle start from Stable: once the list holds nCheck records, the
      state becomes Calibrated exactly when the device type is known and the last nCheck start
      temperatures all lie in [setpoint - 0.25, setpoint + 0.25]; otherwise it stays Stable. */
  lemma CalibratedVerdict(c: Controller, probe: ProbeReadings, now: nat, nCheck: nat, nAdjust: nat)
    requires Consistent(c) && c.state == TemperatureStable
    ensures var c' := CycleStart(c, probe, now, nCheck, nAdjust);
      var kind := DeviceKindOf(probe.deviceType);
      && (c'.state == Calibrated <==>
            (|c'.cycles| >= nCheck && kind != UnknownDevice && WindowInBand(c'.cycles, nCheck, Setpoint(kind))))
      && (c'.state == TemperatureStable || c'.state == Calibrated)
  {
    CycleStartBookkeeping(c, probe, now, nCheck, nAdjust);
    var c1 := OpenCycle(c, now);
    var list := c1.cycles;
    var c2 := if |list| >= nCheck then CheckCalibrated(c1, probe, nCheck) else c1;
    CheckAdjustKeepsCycles(c2, probe);
  }

  /** The adjustment check on a cycle start: when the list holds nAdjust records and the unit is
      not Calibrated after the verdict, the control fix runs exactly when the live primary reading
      is outside the calibrated band (and the device type is known). */
  lemma AdjustmentCheck(c: Controller, probe: ProbeReadings, now: nat, nCheck: nat, nAdjust: nat)
    requires Consistent(c) && c.state == TemperatureStable
    ensures var c' := CycleStart(c, probe, now, nCheck, nAdjust);
      var kind := DeviceKindOf(probe.deviceType);
      var rerun := |c'.cycles| >= nAdjust && c'.state != Calibrated && kind != UnknownDevice &&
                   !InCalibratedBand(probe.primaryTemp, Setpoint(kind));
      c'.requests == c.requests +
        (if rerun then AsLog(ControlCorrection(c.flukeTemperature, c.controlOffset, probe.deviceType)) else [])
  {
    CycleStartBookkeeping(c, probe, now, nCheck, nAdjust);
    var c1 := OpenCycle(c, now);
    var list := c1.cycles;
    var c2 := if |list| >= nCheck then CheckCalibrated(c1, probe, nCheck) else c1;
    if |list| >= nCheck { CheckCalibratedKeepsCycles(c1, probe, nCheck); }
    CheckAdjustKeepsCycles(c2, probe);
  }

  // ---------------------------------------------------------------------
  // Monotonic progress over any sequence of timer callbacks
  // ---------------------------------------------------------------------

  /** One timer callback; a callback of a stopped or unarmed timer is not delivered. */
  datatype TimerEvent =
    | FifteenMinuteTimeout(probe: ProbeReadings)
    | UpdateTemperatureValuesTimeout(probe: ProbeReadings)
    | CompressorStateCheckTimeout(probe: ProbeReadings, now: nat)

  /** One delivered or dropped timer callback: a stopped timer's callback changes nothing. */
  function Step(c: Controller, e: TimerEvent, nCheck: nat, nAdjust: nat): (r: Controller)
    ensures e.UpdateTemperatureValuesTimeout? && !c.refreshActive ==> r == c
    ensures e.CompressorStateCheckTimeout? && !c.pollArmed ==> r == c
  {
    match e
    case FifteenMinuteTimeout(p) => Tick(c, p)
    case UpdateTemperatureValuesTimeout(p) => if c.refreshActive then Refresh(c, p) else c
    case CompressorStateCheckTimeout(p, now) => if c.pollArmed then Poll(c, p, now, nCheck, nAdjust) else c
  }

  /** The callbacks delivered one after another. While the refresh timer is stopped, any number
      of its callbacks change nothing. */
  function Run(c: Controller, events: seq<TimerEvent>, nCheck: nat, nAdjust: nat): (r: Controller)
    ensures !c.refreshActive && (forall k :: 0 <= k < |events| ==> events[k].UpdateTemperatureValuesTimeout?) ==> r == c
    decreases |events|
  {
    if events == [] then c else Run(Step(c, events[0], nCheck, nAdjust), events[1..], nCheck, nAdjust)
  }

  /** The only transitions are Unstable to Stable and Stable to Calibrated. */
  predicate Progress(before: CalibrationState, after: CalibrationState) {
    after == before ||
    (before == TemperatureUnstable && after == TemperatureStable) ||
    (before == TemperatureStable && after == Calibrated)
  }

  lemma TickStep(c: Controller, probe: ProbeReadings)
    requires Consistent(c)
    ensures Consistent(Tick(c, probe))
    ensures Progress(c.state, Tick(c, probe).state)
    ensures Tick(c, probe).cycles == c.cycles
    ensures |Tick(c, probe).requests| <= |c.requests| + 1
    ensures Tick(c, probe).requests[..|c.requests|] == c.requests
  {
  }

  lemma PollStep(c: Controller, probe: ProbeReadings, now: nat, nCheck: nat, nAdjust: nat)
    requires Consistent(c) && c.pollArmed
    ensures var c' := Poll(c, probe, now, nCheck, nAdjust);
      && Consistent(c')
      && Progress(c.state, c'.state)
      && c'.state != TemperatureUnstable
      && |c'.cycles| == |c.cycles| + (if !c.compressorOn && probe.compressorOn then 1 else 0)
      && |c'.requests| <= |c.requests| + 1
      && c'.requests[..|c.requests|] == c.requests
  {
    if !c.compressorOn && probe.compressorOn {
      CycleStartBookkeeping(c, probe, now, nCheck, nAdjust);
      var c1 := OpenCycle(c, now);
      var list := c1.cycles;
      var c2 := if |list| >= nCheck then CheckCalibrated(c1, probe, nCheck) else c1;
      if |list| >= nCheck { CheckCalibratedKeepsCycles(c1, probe, nCheck); }
      CheckAdjustKeepsCycles(c2, probe);
    }
  }

  lemma StepProgress(c: Controller, e: TimerEvent, nCheck: nat, nAdjust: nat)
    requires Consistent(c)
    ensures var c' := Step(c, e, nCheck, nAdjust);
      Consistent(c') && Progress(c.state, c'.state) && c'.requests[..|c.requests|] == c.requests &&
      |c'.requests| >= |c.requests|
  {
    match e
    case FifteenMinuteTimeout(p) => TickStep(c, p);
    case UpdateTemperatureValuesTimeout(p) =>
    case CompressorStateCheckTimeout(p, now) => if c.pollArmed { PollStep(c, p, now, nCheck, nAdjust); }
  }

  function Rank(s: CalibrationState): nat { StateValue(s) }

  /** Over any sequence of callbacks from a consistent state, the state never regresses
      (Calibrated is terminal), the bookkeeping holds, and the request log only grows. */
  lemma {:induction false} RunNeverRegresses(c: Controller, events: seq<TimerEvent>, nCheck: nat, nAdjust: nat)
    requires Consistent(c)
    ensures var c' := Run(c, events, nCheck, nAdjust);
      && Consistent(c')
      && Rank(c'.state) >= Rank(c.state)
      && (c.state == Calibrated ==> c'.state == Calibrated)
      && |c'.requests| >= |c.requests|
      && c'.requests[..|c.requests|] == c.requests
    decreases |events|
  {
    if events != [] {
      var c1 := Step(c, events[0], nCheck, nAdjust);
      StepProgress(c, events[0], nCheck, nAdjust);
      RunNeverRegresses(c1, events[1..], nCheck, nAdjust);
      var c' := Run(c1, events[1..], nCheck, nAdjust);
      assert c'.requests[..|c.requests|] == c'.requests[..|c1.requests|][..|c.requests|];
    }
  }

  /** From construction, any sequence of callbacks keeps the bookkeeping: the list holds
      counter + 1 records and record i carries cycle number i. */
  lemma FromConstruction(events: seq<TimerEvent>, nCheck: nat, nAdjust: nat)
    ensures var c' := Run(Initial(), events, nCheck, nAdjust);
      && c'.cycleCount == |c'.cycles| - 1
      && (forall i :: 0 <= i < |c'.cycles| ==> c'.cycles[i].cycleNumber == i)
      && (c'.state == TemperatureUnstable ==> c'.cycles == [] && !c'.pollArmed)
  {
    RunNeverRegresses(Initial(), events, nCheck, nAdjust);
  }

  lemma {:induction false} RunAppend(c: Controller, a: seq<TimerEvent>, b: seq<TimerEvent>, nCheck: nat, nAdjust: nat)
    ensures Run(c, a + b, nCheck, nAdjust) == Run(Run(c, a, nCheck, nAdjust), b, nCheck, nAdjust)
    decreases |a|
  {
    if a == [] {
      assert a + b == b;
    } else {
      assert (a + b)[0] == a[0] && (a + b)[1..] == a[1..] + b;
      RunAppend(Step(c, a[0], nCheck, nAdjust), a[1..], b, nCheck, nAdjust);
    }
  }

  /** k compressor cycles: on at time 2i, off at time 2i + 1. */
  function OnOffPairs(on: ProbeReadings, off: ProbeReadings, k: nat): seq<TimerEvent> {
    if k == 0 then []
    else OnOffPairs(on, off, k - 1) +
         [CompressorStateCheckTimeout(on, 2 * (k - 1)), CompressorStateCheckTimeout(off, 2 * (k - 1) + 1)]
  }

  ghost predicate SteadyAt(c: Controller, k: nat, temp: real) {
    && Consistent(c) && c.state == TemperatureStable && !c.compressorOn
    && c.flukeTemperature == temp && |c.cycles| == k
    && forall i :: 0 <= i < k ==> c.cycles[i].tempStart == temp
  }

  /** A compressor start below the window opens one record at the steady reference and the unit
      stays Stable. */
  lemma OnPollBelowWindow(c: Controller, on: ProbeReadings, now: nat, k: nat, nAdjust: nat)
    requires SteadyAt(c, k, 4.1) && k + 1 < CompressorCyclesCheck && on.compressorOn
    ensures var c' := Poll(c, on, now, CompressorCyclesCheck, nAdjust);
      c'.compressorOn && SteadyAt(c'.(compressorOn := false), k + 1, 4.1)
  {
    var n := CompressorCyclesCheck;
    CycleStartBookkeeping(c, on, now, n, nAdjust);
    OpenCycleBookkeeping(c, now);
    CalibratedVerdict(c, on, now, n, nAdjust);
    var c2 := CycleStart(c, on, now, n, nAdjust);
    assert forall i :: 0 <= i < k + 1 ==> c2.cycles[i].tempStart == 4.1;
  }

  lemma {:induction false} PairsBelowWindow(c: Controller, on: ProbeReadings, off: ProbeReadings, k: nat, nAdjust: nat)
    requires SteadyAt(c, 0, 4.1) && k < CompressorCyclesCheck
    requires on.compressorOn && !off.compressorOn
    ensures SteadyAt(Run(c, OnOffPairs(on, off, k), CompressorCyclesCheck, nAdjust), k, 4.1)
  {
    if k > 0 {
      PairsBelowWindow(c, on, off, k - 1, nAdjust);
      var n := CompressorCyclesCheck;
      var c1 := Run(c, OnOffPairs(on, off, k - 1), n, nAdjust);
      var pair := [CompressorStateCheckTimeout(on, 2 * (k - 1)), CompressorStateCheckTimeout(off, 2 * (k - 1) + 1)];
      RunAppend(c, OnOffPairs(on, off, k - 1), pair, n, nAdjust);
      OnPollBelowWindow(c1, on, 2 * (k - 1), k - 1, nAdjust);
      var c2 := Poll(c1, on, 2 * (k - 1), n, nAdjust);
      var c3 := Poll(c2, off, 2 * (k - 1) + 1, n, nAdjust);
      assert pair[1..][1..] == [];
      assert Run(c2, pair[1..], n, nAdjust) == c3;
      assert Run(c1, pair, n, nAdjust) == c3;
    }
  }

  /** The sixth start at a steady 4.1 on a refrigerator fills the window, and all six records lie
      within 4.0 ± 0.25. */
  lemma SixthStartCalibrates(c5: Controller, on: ProbeReadings, nAdjust: nat)
    requires SteadyAt(c5, 5, 4.1)
    requires on.compressorOn && DeviceKindOf(on.deviceType) == Refrigerator
    ensures CycleStart(c5, on, 10, CompressorCyclesCheck, nAdjust).state == Calibrated
  {
    var n := CompressorCyclesCheck;
    CycleStartBookkeeping(c5, on, 10, n, nAdjust);
    CalibratedVerdict(c5, on, 10, n, nAdjust);
    var c6 := CycleStart(c5, on, 10, n, nAdjust);
    assert forall j :: 0 <= j < 6 ==> c6.cycles[j].tempStart == 4.1;
    assert WindowInBand(c6.cycles, n, Setpoint(Refrigerator));
  }

  /** Six consecutive compressor starts at reference 4.1 on a refrigerator (setpoint 4.0): the
      unit stays Stable through the fifth and is Calibrated after the sixth. */
  lemma SixCyclesCalibrate(c: Controller, on: ProbeReadings, off: ProbeReadings, nAdjust: nat)
    requires SteadyAt(c, 0, 4.1)
    requires on.compressorOn && !off.compressorOn && on.deviceType == "Refrigerator"
    ensures Run(c, OnOffPairs(on, off, 5), CompressorCyclesCheck, nAdjust).state == TemperatureStable
    ensures Run(c, OnOffPairs(on, off, 5) + [CompressorStateCheckTimeout(on, 10)], CompressorCyclesCheck, nAdjust).state
            == Calibrated
  {
    var n := CompressorCyclesCheck;
    PairsBelowWindow(c, on, off, 5, nAdjust);
    var c5 := Run(c, OnOffPairs(on, off, 5), n, nAdjust);
    var last := [CompressorStateCheckTimeout(on, 10)];
    RunAppend(c, OnOffPairs(on, off, 5), last, n, nAdjust);
    assert last[1..] == [];
    assert Run(c5, last, n, nAdjust) == Poll(c5, on, 10, n, nAdjust);
    RefrigeratorDeviceType();
    SixthStartCalibrates(c5, on, nAdjust);
  }
}
