/**
 * The constants, the calibration-state enumeration and the cycle record of
 * CalibrationManager.h, together with the values the controller reads from
 * its client and the requests it sends back.
 */
module CalibrationTypes {
  import opened Wrappers

  // Setpoints, bands and buffers (degrees Celsius).
  const TemperatureSetpointRefrigerator: real := 4.0
  const TemperatureSetpointFreezer: real := -30.0
  const StableTemperatureDeltaUpperBound: real := 0.15
  const StableTemperatureDeltaLowerBound: real := -0.15
  const CalibratedTemperatureBuffer: real := 0.25
  const OffsetValueMax: real := 10.0
  const OffsetValueMin: real := -10.0

  // Cycle window and timer periods (milliseconds).
  const CompressorCyclesCheck: int := 6
  const OneSecond: int := 1000
  const OneMinute: int := 60000
  const FifteenMinutes: int := 900000

  datatype CalibrationState = TemperatureUnstable | TemperatureStable | Calibrated

  /** The enumerator value the header gives each state. */
  function StateValue(s: CalibrationState): (v: nat)
    ensures v <= 2
  {
    match s
    case TemperatureUnstable => 0
    case TemperatureStable => 1
    case Calibrated => 2
  }

  /** One compressor cycle. The end fields are unset until the next cycle starts. */
  datatype CycleData = CycleData(
    cycleNumber: int,
    startTime: nat,
    endTime: Option<nat>,
    tempStart: real,
    tempEnd: Option<real>)

  /** The calibration channels: RTD4 is the control probe, RTD5 the primary probe. */
  datatype Channel = RTD4 | RTD5

  /** One call of the client's sendCalibrationRequest. */
  datatype CalibrationRequest = CalibrationRequest(channel: Channel, value: real)

  /** What the client answers during one timer callback. */
  datatype ProbeReadings = ProbeReadings(
    primaryTemp: real,
    controlTemp: real,
    flukeTemp1: real,
    controlOffset: real,
    primaryOffset: real,
    compressorOn: bool,
    deviceType: string)

  datatype DeviceKind = Refrigerator | Freezer | UnknownDevice

  function AsciiLower(c: char): char {
    if 'A' <= c <= 'Z' then (c as int + 32) as char else c
  }

  function Lower(s: string): (r: string)
    ensures |r| == |s|
    ensures forall i :: 0 <= i < |s| ==> r[i] == AsciiLower(s[i])
  {
    if s == [] then [] else [AsciiLower(s[0])] + Lower(s[1..])
  }

  /** Substring test ignoring (ASCII) letter case. */
  predicate ContainsIgnoringCase(s: string, pattern: string)
    ensures ContainsIgnoringCase(s, pattern) ==> |pattern| <= |s|
    ensures pattern == [] ==> ContainsIgnoringCase(s, pattern)
    decreases |s|
  {
    if |pattern| > |s| then false
    else Lower(s[..|pattern|]) == Lower(pattern) || (s != [] && ContainsIgnoringCase(s[1..], pattern))
  }

  /** The device type chosen from the client's free-text type: "Refrig" is tested before "Freezer". */
  function DeviceKindOf(deviceType: string): (kind: DeviceKind)
    ensures kind == Refrigerator ==> |deviceType| >= |"Refrig"|
    ensures kind == Freezer ==> |deviceType| >= |"Freezer"|
  {
    if ContainsIgnoringCase(deviceType, "Refrig") then Refrigerator
    else if ContainsIgnoringCase(deviceType, "Freezer") then Freezer
    else UnknownDevice
  }

  function Setpoint(kind: DeviceKind): (setpoint: real)
    requires kind != UnknownDevice
    ensures kind == Refrigerator ==> setpoint == TemperatureSetpointRefrigerator && setpoint > 0.0
    ensures kind == Freezer ==> setpoint == TemperatureSetpointFreezer && setpoint < 0.0
  {
    if kind == Refrigerator then TemperatureSetpointRefrigerator else TemperatureSetpointFreezer
  }

  /** The closed stability band on a 15-minute primary-probe change. */
  predicate InStableBand(delta: real) {
    delta >= StableTemperatureDeltaLowerBound && delta <= StableTemperatureDeltaUpperBound
  }

  /** An offset correction is valid only strictly inside (OFFSET_VALUE_MIN, OFFSET_VALUE_MAX). */
  predicate InOffsetBand(delta: real) {
    !(delta <= OffsetValueMin || delta >= OffsetValueMax)
  }

  /** The closed band of width CALIBRATED_TEMPERATURE_BUFFER around the setpoint. */
  predicate InCalibratedBand(t: real, setpoint: real) {
    !(t > setpoint + CalibratedTemperatureBuffer) && !(t < setpoint - CalibratedTemperatureBuffer)
  }

  lemma HeaderConstants()
    ensures Setpoint(Refrigerator) == 4.0 && Setpoint(Freezer) == -30.0
    ensures StableTemperatureDeltaLowerBound == -StableTemperatureDeltaUpperBound == -0.15
    ensures OffsetValueMin == -OffsetValueMax == -10.0
    ensures CalibratedTemperatureBuffer == 0.25
    ensures StateValue(TemperatureUnstable) < StateValue(TemperatureStable) < StateValue(Calibrated)
    ensures OneMinute == 60 * OneSecond && FifteenMinutes == 15 * OneMinute
    ensures CompressorCyclesCheck == 6
  {
  }

  lemma {:induction false} LowerIdempotent(s: string)
    ensures Lower(Lower(s)) == Lower(s)
  {
  }

  lemma {:induction false} LowerPrefix(s: string, k: nat)
    requires k <= |s|
    ensures Lower(s[..k]) == Lower(s)[..k]
  {
  }

  /** The test ignores case in the searched text: folding it first changes nothing. */
  lemma {:induction false} ContainsIgnoresTextCase(s: string, pattern: string)
    ensures ContainsIgnoringCase(Lower(s), pattern) == ContainsIgnoringCase(s, pattern)
    decreases |s|
  {
    if |pattern| <= |s| {
      LowerPrefix(s, |pattern|);
      LowerPrefix(Lower(s), |pattern|);
      LowerIdempotent(s);
      assert Lower(Lower(s)[..|pattern|]) == Lower(s[..|pattern|]) by {
        LowerIdempotent(s[..|pattern|]);
      }
      if s != [] {
        assert Lower(s)[1..] == Lower(s[1..]);
        ContainsIgnoresTextCase(s[1..], pattern);
      }
    }
  }

  /** An occurrence of the pattern, in any letter case, anywhere in the text, is found. */
  lemma {:induction false} OccurrenceFound(pre: string, occurrence: string, post: string, pattern: string)
    requires Lower(occurrence) == Lower(pattern)
    ensures ContainsIgnoringCase(pre + occurrence + post, pattern)
    decreases |pre|
  {
    var s := pre + occurrence + post;
    assert |occurrence| == |pattern|;
    if pre == [] {
      assert s[..|pattern|] == occurrence;
    } else {
      assert s[1..] == pre[1..] + occurrence + post;
      OccurrenceFound(pre[1..], occurrence, post, pattern);
    }
  }

  /** Any device type that mentions "refrig" in any case is a refrigerator, whatever else it says. */
  lemma RefrigeratorWhereverMentioned(pre: string, occurrence: string, post: string)
    requires Lower(occurrence) == "refrig"
    ensures DeviceKindOf(pre + occurrence + post) == Refrigerator
  {
    OccurrenceFound(pre, occurrence, post, "Refrig");
  }

  /** A device type that mentions "freezer" but not "refrig" is a freezer. */
  lemma FreezerWhenOnlyFreezerMentioned(pre: string, occurrence: string, post: string)
    requires Lower(occurrence) == "freezer"
    requires !ContainsIgnoringCase(pre + occurrence + post, "Refrig")
    ensures DeviceKindOf(pre + occurrence + post) == Freezer
  {
    OccurrenceFound(pre, occurrence, post, "Freezer");
  }

  /** The device type the scenarios use. */
  lemma RefrigeratorDeviceType()
    ensures DeviceKindOf("Refrigerator") == Refrigerator
  {
    OccurrenceFound([], "Refrig", "erator", "Refrig");
    assert "Refrigerator" == [] + "Refrig" + "erator";
  }
}
