/**
 * DoorManager.cpp: a one-flag gate over four fixed 11-byte serial command
 * frames, the classification of the four acknowledgement frames, and the
 * hex dump used to log frames.
 */
module Door {
  import opened Wrappers

  newtype byte = x: int | 0 <= x < 256

  type Frame = seq<byte>

  const UnlockDoorCommand: Frame := [0x02, 0x08, 0xA0, 0x01, 0x00, 0xFF, 0xFF, 0x58, 0xFD, 0x00, 0x03]
  const UnlockDoorAck: Frame     := [0x02, 0x08, 0xA1, 0x01, 0x00, 0xFF, 0xFF, 0x57, 0xFD, 0x00, 0x03]
  const LockDoorCommand: Frame   := [0x02, 0x08, 0xA0, 0x01, 0x00, 0xFE, 0xFF, 0x59, 0xFD, 0x01, 0x03]
  const LockDoorAck: Frame       := [0x02, 0x08, 0xA1, 0x01, 0x00, 0xFE, 0xFF, 0x58, 0xFD, 0x01, 0x03]
  const LightOnCommand: Frame    := [0x02, 0x0A, 0xA0, 0x01, 0x00, 0xFE, 0xFF, 0x57, 0xFD, 0x01, 0x03]
  const LightOnAck: Frame        := [0x02, 0x0A, 0xA1, 0x01, 0x00, 0xFE, 0xFF, 0x56, 0xFD, 0x01, 0x03]
  const LightOffCommand: Frame   := [0x02, 0x0A, 0xA0, 0x01, 0x00, 0xFF, 0xFF, 0x56, 0xFD, 0x00, 0x03]
  const LightOffAck: Frame       := [0x02, 0x0A, 0xA1, 0x01, 0x00, 0xFF, 0xFF, 0x55, 0xFD, 0x00, 0x03]

  const DefaultComPort: string := "COM5"
  const DefaultWaitTimeoutMs: int := 500

  datatype DoorSignal = SignalLightOff | SignalLightOn | SignalDoorUnlocked | SignalDoorLocked

  /** What the manager does to the world, in order. */
  datatype DoorEvent =
    | SerialRequest(port: string, timeoutMs: int, frame: Frame)
    | DoorOpeningRecorded(user: string)
    | Emitted(signal: DoorSignal)

  /** The acknowledgement each signal answers. */
  function AckFor(s: DoorSignal): Frame {
    match s
    case SignalLightOff => LightOffAck
    case SignalLightOn => LightOnAck
    case SignalDoorUnlocked => UnlockDoorAck
    case SignalDoorLocked => LockDoorAck
  }

  /** The comparison chain of handleResponse. */
  function ClassifyResponse(response: Frame): (r: Option<DoorSignal>)
    ensures forall s :: r == Some(s) <==> response == AckFor(s)
    ensures r == None <==> forall s :: response != AckFor(s)
  {
    if response == LightOffAck then Some(SignalLightOff)
    else if response == LightOnAck then Some(SignalLightOn)
    else if response == UnlockDoorAck then Some(SignalDoorUnlocked)
    else if response == LockDoorAck then Some(SignalDoorLocked)
    else None
  }

  function SignalEvents(r: Option<DoorSignal>): seq<DoorEvent> {
    if r.Some? then [Emitted(r.value)] else []
  }

  predicate WellFormedFrame(f: Frame) {
    |f| == 11 && f[0] == 0x02 && f[10] == 0x03
  }

  /** An acknowledgement equals its command except byte 2 (0xA0 becomes 0xA1) and byte 7 (one less). */
  predicate AcknowledgesFrame(command: Frame, ack: Frame)
    requires WellFormedFrame(command) && WellFormedFrame(ack)
  {
    && command[2] == 0xA0 && ack[2] == 0xA1
    && ack[7] as int == command[7] as int - 1
    && forall k :: 0 <= k < 11 && k != 2 && k != 7 ==> ack[k] == command[k]
  }

  lemma FrameShapes()
    ensures WellFormedFrame(UnlockDoorCommand) && WellFormedFrame(UnlockDoorAck)
    ensures WellFormedFrame(LockDoorCommand) && WellFormedFrame(LockDoorAck)
    ensures WellFormedFrame(LightOnCommand) && WellFormedFrame(LightOnAck)
    ensures WellFormedFrame(LightOffCommand) && WellFormedFrame(LightOffAck)
    ensures AcknowledgesFrame(UnlockDoorCommand, UnlockDoorAck)
    ensures AcknowledgesFrame(LockDoorCommand, LockDoorAck)
    ensures AcknowledgesFrame(LightOnCommand, LightOnAck)
    ensures AcknowledgesFrame(LightOffCommand, LightOffAck)
  {
  }

  /** The four acknowledgements are pairwise distinct, so a response emits at most one signal. */
  lemma AcksDistinct(s: DoorSignal, t: DoorSignal)
    ensures s != t ==> AckFor(s) != AckFor(t)
  {
  }

  // ---------------------------------------------------------------------
  // Hex dump
  // ---------------------------------------------------------------------

  function HexDigit(n: int): char
    requires 0 <= n < 16
  {
    if n < 10 then ('0' as int + n) as char else ('A' as int + n - 10) as char
  }

  /** The value of an upper-case hex digit. */
  function HexValue(c: char): int {
    if '0' <= c <= '9' then c as int - '0' as int
    else if 'A' <= c <= 'F' then c as int - 'A' as int + 10
    else 0
  }

  /** QByteArray::toHex().toUpper(): two upper-case digits per byte. */
  function ToHexUpper(buffer: seq<byte>): (h: string)
    ensures |h| == 2 * |buffer|
    ensures forall k :: 0 <= k < |buffer| ==>
      h[2 * k] == HexDigit(buffer[k] as int / 16) && h[2 * k + 1] == HexDigit(buffer[k] as int % 16)
  {
    if buffer == [] then []
    else
      var rest := ToHexUpper(buffer[1..]);
      var h := [HexDigit(buffer[0] as int / 16), HexDigit(buffer[0] as int % 16)] + rest;
      assert forall k :: 1 <= k < |buffer| ==> h[2 * k] == rest[2 * (k - 1)] && h[2 * k + 1] == rest[2 * (k - 1) + 1];
      h
  }

  /** A dump as byteArrayToHexString lays it out: for byte k, characters 3k..3k+2. */
  ghost predicate IsHexDump(s: string, buffer: seq<byte>) {
    |s| == 3 * |buffer| &&
    forall k :: 0 <= k < |buffer| ==>
      s[3 * k] == HexDigit(buffer[k] as int / 16) && s[3 * k + 1] == HexDigit(buffer[k] as int % 16) &&
      s[3 * k + 2] == ' '
  }

  /** Reads a dump back into bytes. */
  function ParseHexDump(s: string): seq<byte>
    decreases |s|
  {
    if |s| < 3 then []
    else [ByteOf(s[0], s[1])] + ParseHexDump(s[3..])
  }

  function ByteOf(high: char, low: char): byte {
    ((16 * HexValue(high) + HexValue(low)) % 256) as byte
  }

  lemma HexDigitsOfByte(b: byte)
    ensures ByteOf(HexDigit(b as int / 16), HexDigit(b as int % 16)) == b
  {
    var n := b as int;
    assert HexValue(HexDigit(n / 16)) == n / 16;
    assert HexValue(HexDigit(n % 16)) == n % 16;
  }

  lemma HexDumpTail(s: string, buffer: seq<byte>)
    requires IsHexDump(s, buffer) && buffer != []
    ensures IsHexDump(s[3..], buffer[1..])
  {
    forall k | 0 <= k < |buffer| - 1
      ensures s[3..][3 * k] == s[3 * (k + 1)] && s[3..][3 * k + 1] == s[3 * (k + 1) + 1] &&
              s[3..][3 * k + 2] == s[3 * (k + 1) + 2]
    {
    }
  }

  /** A dump determines its bytes: reading it back gives the buffer. */
  lemma {:induction false} HexDumpRoundTrip(s: string, buffer: seq<byte>)
    requires IsHexDump(s, buffer)
    ensures ParseHexDump(s) == buffer
    decreases |buffer|
  {
    if buffer != [] {
      HexDigitsOfByte(buffer[0]);
      HexDumpTail(s, buffer);
      HexDumpRoundTrip(s[3..], buffer[1..]);
    }
  }

  /** byteArrayToHexString: two upper-case hex digits and a space per byte, in order. */
  method ByteArrayToHexString(buffer: seq<byte>) returns (s: string)
    ensures |s| == 3 * |buffer|
    ensures forall k :: 0 <= k < |buffer| ==>
      s[3 * k] == HexDigit(buffer[k] as int / 16) && s[3 * k + 1] == HexDigit(buffer[k] as int % 16) &&
      s[3 * k + 2] == ' '
    ensures ParseHexDump(s) == buffer
  {
    var temp := ToHexUpper(buffer);
    var size := |temp|;
    s := "";
    var index := 0;
    while index < size
      invariant 0 <= index <= size && index % 2 == 0
      invariant |s| == 3 * (index / 2)
      invariant forall k :: 0 <= k < index / 2 ==>
        s[3 * k] == temp[2 * k] && s[3 * k + 1] == temp[2 * k + 1] && s[3 * k + 2] == ' '
    {
      s := s + temp[index..index + 2];
      s := s + " ";
      index := index + 2;
    }
    HexDumpRoundTrip(s, buffer);
  }

  // ---------------------------------------------------------------------
  // Serial port discovery
  // ---------------------------------------------------------------------

  /** One entry of the system's port list and whether opening it read-write succeeds. */
  datatype PortProbe = PortProbe(name: string, opens: bool)

  /** The first port in list order that opens. */
  function FirstOpenable(ports: seq<PortProbe>): (r: Option<string>)
    ensures r.Some? <==> exists i :: 0 <= i < |ports| && ports[i].opens
    ensures r.Some? ==> exists i :: 0 <= i < |ports| && ports[i].opens && ports[i].name == r.value &&
                                    forall j :: 0 <= j < i ==> !ports[j].opens
  {
    if ports == [] then None
    else if ports[0].opens then Some(ports[0].name)
    else
      var r := FirstOpenable(ports[1..]);
      assert forall i :: 1 <= i < |ports| ==> ports[i] == ports[1..][i - 1];
      if r.Some? then
        var i :| 0 <= i < |ports[1..]| && ports[1..][i].opens && ports[1..][i].name == r.value &&
                  forall j :: 0 <= j < i ==> !ports[1..][j].opens;
        assert ports[i + 1].opens && ports[i + 1].name == r.value;
        assert forall j :: 0 <= j < i + 1 ==> !ports[j].opens by {
          forall j | 0 <= j < i + 1 ensures !ports[j].opens {
            if j > 0 { assert ports[j] == ports[1..][j - 1]; }
          }
        }
        r
      else
        r
  }

  /** findSerialPort: try each port in turn and stop at the first that opens. */
  method FindSerialPort(ports: seq<PortProbe>) returns (found: bool, chosen: Option<string>)
    ensures chosen == FirstOpenable(ports)
    ensures found <==> chosen.Some?
  {
    found := false;
    chosen := None;
    var i := 0;
    while i < |ports|
      invariant 0 <= i <= |ports|
      invariant !found && chosen == None
      invariant FirstOpenable(ports) == FirstOpenable(ports[i..])
    {
      assert ports[i..][1..] == ports[i + 1..];
      found := ports[i].opens;
      if found {
        chosen := Some(ports[i].name);
        return;
      }
      i := i + 1;
    }
  }

  // ---------------------------------------------------------------------
  // The manager
  // ---------------------------------------------------------------------

  class DoorManager {
    var comPort: string
    var waitTimeoutMs: int
    var waitingForTimeout: bool
    var serialPortFound: bool
    ghost var events: seq<DoorEvent>

    /** ports are the system's serial ports as the scan in findSerialPort meets them. */
    constructor (ports: seq<PortProbe>)
      ensures !waitingForTimeout && events == [] && waitTimeoutMs == DefaultWaitTimeoutMs
      ensures serialPortFound == FirstOpenable(ports).Some?
      ensures comPort == if serialPortFound then FirstOpenable(ports).value else DefaultComPort
    {
      comPort := DefaultComPort;
      waitTimeoutMs := DefaultWaitTimeoutMs;
      waitingForTimeout := false;
      events := [];
      var found, chosen := FindSerialPort(ports);
      if chosen.Some? {
        comPort := chosen.value;
      }
      serialPortFound := found;
    }

    function IsSerialPortFound(): (found: bool)
      reads this
      ensures found == serialPortFound
    {
      serialPortFound
    }

    method SetSerialPortName(name: string)
      modifies this`comPort
      ensures comPort == name
    {
      comPort := name;
    }

    method SetWaitTimeoutMs(timeoutMs: int)
      modifies this`waitTimeoutMs
      ensures waitTimeoutMs == timeoutMs
    {
      waitTimeoutMs := timeoutMs;
    }

    method SendSerialRequest(frame: Frame)
      modifies this`events
      ensures events == old(events) + [SerialRequest(comPort, waitTimeoutMs, frame)]
    {
      events := events + [SerialRequest(comPort, waitTimeoutMs, frame)];
    }

    method LockDoor()
      modifies this`waitingForTimeout, this`events
      ensures waitingForTimeout
      ensures events == old(events) +
        (if old(waitingForTimeout) then [] else [SerialRequest(comPort, waitTimeoutMs, LockDoorCommand)])
    {
      if !waitingForTimeout {
        SendSerialRequest(LockDoorCommand);
        waitingForTimeout := true;
      }
    }

    /** The door opening is recorded only on the path that sends the unlock frame. */
    method UnlockDoor(userId: string)
      modifies this`waitingForTimeout, this`events
      ensures waitingForTimeout
      ensures events == old(events) +
        (if old(waitingForTimeout) then []
         else [DoorOpeningRecorded(userId), SerialRequest(comPort, waitTimeoutMs, UnlockDoorCommand)])
    {
      if !waitingForTimeout {
        events := events + [DoorOpeningRecorded(userId)];
        SendSerialRequest(UnlockDoorCommand);
        waitingForTimeout := true;
      }
    }

    method TurnLightOn()
      modifies this`waitingForTimeout, this`events
      ensures waitingForTimeout
      ensures events == old(events) +
        (if old(waitingForTimeout) then [] else [SerialRequest(comPort, waitTimeoutMs, LightOnCommand)])
    {
      if !waitingForTimeout {
        SendSerialRequest(LightOnCommand);
        waitingForTimeout := true;
      }
    }

    method TurnLightOff()
      modifies this`waitingForTimeout, this`events
      ensures waitingForTimeout
      ensures events == old(events) +
        (if old(waitingForTimeout) then [] else [SerialRequest(comPort, waitTimeoutMs, LightOffCommand)])
    {
      if !waitingForTimeout {
        SendSerialRequest(LightOffCommand);
        waitingForTimeout := true;
      }
    }

    method HandleResponse(response: Frame)
      modifies this`waitingForTimeout, this`events
      ensures !waitingForTimeout
      ensures events == old(events) + SignalEvents(ClassifyResponse(response))
    {
      waitingForTimeout := false;
      var signal := ClassifyResponse(response);
      if signal.Some? {
        events := events + [Emitted(signal.value)];
      }
    }

    method HandleSerialPortError(error: string)
      modifies this`waitingForTimeout
      ensures !waitingForTimeout
    {
      waitingForTimeout := false;
    }

    method HandleTimeout(message: string)
      modifies this`waitingForTimeout
      ensures !waitingForTimeout
    {
      waitingForTimeout := false;
    }
  }

  /** A client of the manager: a second command while the first is unanswered is dropped,
      and the answer re-opens the gate. */
  method GateScenario(ports: seq<PortProbe>) returns (m: DoorManager)
    ensures m.events == [SerialRequest(m.comPort, 500, LockDoorCommand), Emitted(SignalDoorLocked),
                         DoorOpeningRecorded("user"), SerialRequest(m.comPort, 500, UnlockDoorCommand)]
    ensures m.waitingForTimeout
  {
    m := new DoorManager(ports);
    m.LockDoor();
    m.TurnLightOn();
    assert m.events == [SerialRequest(m.comPort, m.waitTimeoutMs, LockDoorCommand)];
    m.HandleResponse(LockDoorAck);
    m.UnlockDoor("user");
  }
}
