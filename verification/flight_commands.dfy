/**
 * The serial protocol to the motor-control microcontroller (control/flight_commands.py):
 * the start-up handshake, the one-byte commands, the two-byte axis frames and the
 * status records the microcontroller sends back.
 *
 * The serial port is a `Serial` object whose `input` holds the bytes the
 * microcontroller has sent and not yet been read, and whose `output` holds every
 * byte written so far. `readline` is `SplitLine`: everything up to and including
 * the first newline, or all that is left when there is none (what a read that
 * times out returns).
 */
module FlightCommands {
  import opened Common

  type byte = x: int | 0 <= x < 256

  /** The bytes of an ASCII string. */
  function Ascii(s: string): seq<byte> {
    seq(|s|, i requires 0 <= i < |s| => (s[i] as int) % 256)
  }

  const NL: byte := 10

  // Lines the microcontroller sends.
  const READY: seq<byte> := Ascii("Ready!\r\n")
  const STARTING: seq<byte> := Ascii("Starting\r\n")
  const CHECKING_EEPROM: seq<byte> := Ascii("Arduino: Checking EEPROM signature\r\n")
  const GYRO_NOT_RECOGNIZED: seq<byte> := Ascii("Arduino: Gyro not recognized!\r\n")
  const STATUS_LINE: seq<byte> := Ascii("Arduino: status\r\n")
  const LOOP_TIME_EXCEEDED: seq<byte> := Ascii("Arduino: loop time exceeds 4050us\r\n")

  // Command bytes the host sends.
  const HOST_READY: byte := 0xF9
  const ARM: byte := 0xFA
  const DISARM: byte := 0xFB
  const ROLL: byte := 0xFC
  const PITCH: byte := 0xFD
  const THROTTLE: byte := 0xFE
  const YAW: byte := 0xFF

  /** How many lines each handshake phase reads before giving up. */
  const HANDSHAKE_LINES: nat := 50

  /** Roll, pitch and yaw centred (payload 100, i.e. 50 %), throttle at zero. */
  const NEUTRAL: seq<byte> := [ROLL, 100, PITCH, 100, THROTTLE, 0, YAW, 100]

  // ---------------------------------------------------------------------------
  // Axis frames

  /** Python's `int(x)` on a float: truncation toward zero. */
  function Trunc(x: real): (n: int)
    ensures x >= 0.0 ==> 0 <= n && n as real <= x < n as real + 1.0
    ensures x < 0.0 ==> n <= 0 && n as real - 1.0 < x <= n as real
  {
    if x >= 0.0 then x.Floor else -((-x).Floor)
  }

  /**
   * The payload of an axis command: `int(percent * 2).to_bytes(1, "big")`, or
   * None where `to_bytes` raises OverflowError.
   */
  function PercentByte(percent: real): (r: Option<byte>)
    ensures r.Some? <==> -0.5 < percent < 128.0
    ensures r.Some? ==> r.value == Trunc(percent * 2.0)
  {
    var n := Trunc(percent * 2.0);
    if 0 <= n < 256 then Some(n) else None
  }

  /** What one axis command writes, and whether it raised. */
  datatype Sent = Sent(bytes: seq<byte>, outcome: Outcome)

  /**
   * An axis command writes its marker byte first; the payload byte follows only
   * when it fits, otherwise the command raises after the marker is out.
   */
  function AxisFrame(marker: byte, percent: real): (r: Sent)
    ensures r.outcome == Ok <==> -0.5 < percent < 128.0
    ensures r.outcome == Ok ==> r.bytes == [marker, Trunc(percent * 2.0)]
    ensures r.outcome != Ok ==> r.bytes == [marker] && r.outcome == Raised(OverflowError)
  {
    match PercentByte(percent)
    case Some(b) => Sent([marker, b], Ok)
    case None => Sent([marker], Raised(OverflowError))
  }

  /** A percentage in [0, 100] is always sent, as the byte floor(2 * percent) in 0..200. */
  lemma PercentFrameInRange(marker: byte, percent: real)
    requires 0.0 <= percent <= 100.0
    ensures AxisFrame(marker, percent).outcome == Ok
    ensures 0 <= AxisFrame(marker, percent).bytes[1] <= 200
    ensures AxisFrame(marker, percent).bytes[1] == (percent * 2.0).Floor
  {
  }

  /**
   * The Arduino can tell a payload from a command: an axis frame for a
   * percentage in [0, 100] carries a value of at most 200, below 0xF9, the
   * lowest command byte, while its first byte is the axis marker.
   */
  lemma PayloadBelowCommandBytes(marker: byte, percent: real)
    requires marker in {ROLL, PITCH, THROTTLE, YAW}
    requires 0.0 <= percent <= 100.0
    ensures var frame := AxisFrame(marker, percent).bytes;
            |frame| == 2 && frame[1] < HOST_READY <= frame[0]
    ensures HOST_READY < ARM < DISARM < ROLL < PITCH < THROTTLE < YAW
  {
    PercentFrameInRange(marker, percent);
  }

  /** The neutral sequence is exactly roll 50 %, pitch 50 %, throttle 0 %, yaw 50 %. */
  lemma NeutralIsCentredFrames()
    ensures NEUTRAL == AxisFrame(ROLL, 50.0).bytes + AxisFrame(PITCH, 50.0).bytes
                     + AxisFrame(THROTTLE, 0.0).bytes + AxisFrame(YAW, 50.0).bytes
  {
    assert (50.0 * 2.0).Floor == 100;
  }

  // ---------------------------------------------------------------------------
  // Reading lines

  datatype Split = Split(line: seq<byte>, rest: seq<byte>)

  /** `readline`: up to and including the first newline, or everything that is left. */
  function SplitLine(input: seq<byte>): (r: Split)
    ensures r.line + r.rest == input
    ensures input != [] ==> r.line != []
    ensures forall i :: 0 <= i < |r.line| - 1 ==> r.line[i] != NL
    ensures r.rest != [] ==> r.line[|r.line| - 1] == NL
    decreases |input|
  {
    if input == [] then Split([], [])
    else if input[0] == NL then Split([NL], input[1..])
    else
      var s := SplitLine(input[1..]);
      Split([input[0]] + s.line, s.rest)
  }

  /** A line that ends in its only newline is read back whole. */
  lemma {:induction false} SplitLineAfter(line: seq<byte>, rest: seq<byte>)
    requires line != [] && line[|line| - 1] == NL
    requires forall i :: 0 <= i < |line| - 1 ==> line[i] != NL
    ensures SplitLine(line + rest) == Split(line, rest)
  {
    if |line| > 1 {
      assert (line + rest)[1..] == line[1..] + rest;
      SplitLineAfter(line[1..], rest);
    }
  }

  /** The first `n` lines `readline` returns. */
  function Lines(input: seq<byte>, n: nat): (lines: seq<seq<byte>>)
    ensures |lines| == n
    decreases n
  {
    if n == 0 then [] else
      var s := SplitLine(input);
      [s.line] + Lines(s.rest, n - 1)
  }

  /** What is left to read after `n` lines. */
  function Remaining(input: seq<byte>, n: nat): seq<byte>
    decreases n
  {
    if n == 0 then input else Remaining(SplitLine(input).rest, n - 1)
  }

  // ---------------------------------------------------------------------------
  // Handshake

  datatype Scan = Found(rest: seq<byte>) | Fault(rest: seq<byte>) | TimedOut(rest: seq<byte>)

  /**
   * One handshake phase: read up to `tries` lines, stopping at `target`, or at
   * `fault` when there is one.
   */
  function ScanLines(input: seq<byte>, target: seq<byte>, fault: Option<seq<byte>>, tries: nat): Scan
    decreases tries
  {
    if tries == 0 then TimedOut(input)
    else
      var s := SplitLine(input);
      if s.line == target then Found(s.rest)
      else if fault == Some(s.line) then Fault(s.rest)
      else ScanLines(s.rest, target, fault, tries - 1)
  }

  /** The index of the first line that is `target` or `fault`, or |lines| when none is. */
  function FirstHit(lines: seq<seq<byte>>, target: seq<byte>, fault: Option<seq<byte>>): (k: nat)
    ensures k <= |lines|
    ensures forall j :: 0 <= j < k ==> lines[j] != target && fault != Some(lines[j])
    ensures k < |lines| ==> lines[k] == target || fault == Some(lines[k])
  {
    if lines == [] then 0
    else if lines[0] == target || fault == Some(lines[0]) then 0
    else 1 + FirstHit(lines[1..], target, fault)
  }

  /** A phase succeeds exactly when `target` comes among the first `n` lines before any `fault`. */
  lemma {:induction false} ScanIsFirstHit(input: seq<byte>, target: seq<byte>, fault: Option<seq<byte>>, n: nat)
    ensures var lines := Lines(input, n);
            var k := FirstHit(lines, target, fault);
            ScanLines(input, target, fault, n) ==
              if k == n then TimedOut(Remaining(input, n))
              else if lines[k] == target then Found(Remaining(input, k + 1))
              else Fault(Remaining(input, k + 1))
    decreases n
  {
    if n > 0 {
      var s := SplitLine(input);
      if s.line == target || fault == Some(s.line) {
        HitOnFirstLine(input, target, fault, n);
      } else {
        ScanIsFirstHit(s.rest, target, fault, n - 1);
        FirstHitAfterMiss(input, target, fault, n);
      }
    }
  }

  /** A first line that is `target` or `fault` ends the phase there. */
  lemma HitOnFirstLine(input: seq<byte>, target: seq<byte>, fault: Option<seq<byte>>, n: nat)
    requires n > 0
    requires SplitLine(input).line == target || fault == Some(SplitLine(input).line)
    ensures FirstHit(Lines(input, n), target, fault) == 0
    ensures Lines(input, n)[0] == SplitLine(input).line
    ensures ScanLines(input, target, fault, n) ==
              if SplitLine(input).line == target then Found(Remaining(input, 1)) else Fault(Remaining(input, 1))
  {
    assert Lines(input, n)[0] == SplitLine(input).line;
  }

  /** Past a first line that is neither `target` nor `fault`, the first hit moves on by one line. */
  lemma FirstHitAfterMiss(input: seq<byte>, target: seq<byte>, fault: Option<seq<byte>>, n: nat)
    requires n > 0
    requires SplitLine(input).line != target && fault != Some(SplitLine(input).line)
    ensures var rest := Lines(SplitLine(input).rest, n - 1);
            var k := FirstHit(rest, target, fault);
            && FirstHit(Lines(input, n), target, fault) == k + 1
            && (k < n - 1 ==> Lines(input, n)[k + 1] == rest[k])
            && Remaining(input, k + 2) == Remaining(SplitLine(input).rest, k + 1)
            && Remaining(input, n) == Remaining(SplitLine(input).rest, n - 1)
            && ScanLines(input, target, fault, n) == ScanLines(SplitLine(input).rest, target, fault, n - 1)
  {
    var lines := Lines(input, n);
    LinesUnfold(input, n);
    var k := FirstHit(lines[1..], target, fault);
    assert FirstHit(lines, target, fault) == k + 1;
    if k < n - 1 {
      assert lines[k + 1] == lines[1..][k];
    }
  }

  /** The first of `n` lines is the one `readline` takes; the others are read from what it leaves. */
  lemma LinesUnfold(input: seq<byte>, n: nat)
    requires n > 0
    ensures Lines(input, n)[0] == SplitLine(input).line
    ensures Lines(input, n)[1..] == Lines(SplitLine(input).rest, n - 1)
  {
    var s := SplitLine(input);
    assert Lines(input, n) == [s.line] + Lines(s.rest, n - 1);
  }

  datatype HandshakeResult = HandshakeResult(outcome: Outcome, written: seq<byte>, rest: seq<byte>)

  /** The whole of `init` after the port is open. */
  function Handshake(input: seq<byte>): HandshakeResult {
    match ScanLines(input, READY, Some(GYRO_NOT_RECOGNIZED), HANDSHAKE_LINES)
    case Fault(rest) => HandshakeResult(Raised(TimeoutError(GyroNotRecognized)), [], rest)
    case TimedOut(rest) => HandshakeResult(Raised(TimeoutError(NoReadyLine)), [], rest)
    case Found(rest) =>
      match ScanLines(rest, STARTING, None, HANDSHAKE_LINES)
      case Found(rest') => HandshakeResult(Ok, NEUTRAL + [HOST_READY] + NEUTRAL, rest')
      case Fault(rest') => HandshakeResult(Raised(TimeoutError(NoStartingLine)), NEUTRAL + [HOST_READY], rest')
      case TimedOut(rest') => HandshakeResult(Raised(TimeoutError(NoStartingLine)), NEUTRAL + [HOST_READY], rest')
  }

  /**
   * The first phase: nothing is written unless "Ready!" is among the first 50 lines
   * with no gyro fault before it; the gyro line and the timeout both raise
   * TimeoutError; once "Ready!" is seen the output starts with neutral then 0xF9.
   */
  lemma HandshakeFirstPhase(input: seq<byte>)
    ensures var lines := Lines(input, HANDSHAKE_LINES);
            var k := FirstHit(lines, READY, Some(GYRO_NOT_RECOGNIZED));
            var h := Handshake(input);
            && (k == HANDSHAKE_LINES ==>
                  h == HandshakeResult(Raised(TimeoutError(NoReadyLine)), [], Remaining(input, HANDSHAKE_LINES)))
            && (k < HANDSHAKE_LINES && lines[k] == GYRO_NOT_RECOGNIZED ==>
                  h == HandshakeResult(Raised(TimeoutError(GyroNotRecognized)), [], Remaining(input, k + 1)))
            && (k < HANDSHAKE_LINES && lines[k] == READY ==>
                  (h.written == NEUTRAL + [HOST_READY] || h.written == NEUTRAL + [HOST_READY] + NEUTRAL))
  {
    ScanIsFirstHit(input, READY, Some(GYRO_NOT_RECOGNIZED), HANDSHAKE_LINES);
    assert READY != GYRO_NOT_RECOGNIZED;
  }

  /** "Ready!" on the fiftieth line still passes the first phase. */
  lemma ReadyOnLastTry(input: seq<byte>)
    requires Lines(input, HANDSHAKE_LINES)[49] == READY
    requires forall j :: 0 <= j < 49 ==>
      Lines(input, HANDSHAKE_LINES)[j] != READY && Lines(input, HANDSHAKE_LINES)[j] != GYRO_NOT_RECOGNIZED
    ensures Handshake(input).written != []
  {
    ScanIsFirstHit(input, READY, Some(GYRO_NOT_RECOGNIZED), HANDSHAKE_LINES);
    var k := FirstHit(Lines(input, HANDSHAKE_LINES), READY, Some(GYRO_NOT_RECOGNIZED));
    assert k == 49;
  }

  /**
   * The second phase: after "Ready!", the handshake succeeds exactly when
   * "Starting" is among the next 50 lines, and then neutral is written again.
   */
  lemma HandshakeSecondPhase(input: seq<byte>, rest: seq<byte>)
    requires ScanLines(input, READY, Some(GYRO_NOT_RECOGNIZED), HANDSHAKE_LINES) == Found(rest)
    ensures var lines := Lines(rest, HANDSHAKE_LINES);
            var k := FirstHit(lines, STARTING, None);
            && (k < HANDSHAKE_LINES ==>
                  Handshake(input) == HandshakeResult(Ok, NEUTRAL + [HOST_READY] + NEUTRAL, Remaining(rest, k + 1)))
            && (k == HANDSHAKE_LINES ==>
                  Handshake(input) == HandshakeResult(Raised(TimeoutError(NoStartingLine)), NEUTRAL + [HOST_READY],
                                                      Remaining(rest, HANDSHAKE_LINES)))
  {
    ScanIsFirstHit(rest, STARTING, None, HANDSHAKE_LINES);
  }

  // ---------------------------------------------------------------------------
  // Status records

  /** One status record: four ESC values (x 0.4 %), battery (x 0.06 V), loop time (x 16 us). */
  datatype StatusRecord = StatusRecord(escs: seq<real>, battery: real, loopTime: int)

  /** What `print_status` reports; None stands for the "No value" strings. */
  datatype StatusReport = StatusReport(
    loopTimeExceeded: bool,
    escs: Option<seq<real>>,
    battery: Option<real>,
    loopTime: Option<int>)

  const NO_STATUS: StatusReport := StatusReport(false, None, None, None)

  /** `int.from_bytes(s.read(1), "big")`: the next byte, or 0 when nothing is left. */
  function ByteAt(input: seq<byte>, k: nat): byte {
    if k < |input| then input[k] else 0
  }

  /** Decodes the six bytes following a status line. */
  function DecodeStatus(input: seq<byte>): (r: StatusRecord)
    ensures |r.escs| == 4
    ensures forall i :: 0 <= i < 4 ==> 0.0 <= r.escs[i] <= 102.0 && r.escs[i] == ByteAt(input, i) as real * 0.4
    ensures 0.0 <= r.battery <= 15.3 && r.battery == ByteAt(input, 4) as real * 0.06
    ensures 0 <= r.loopTime <= 4080 && r.loopTime == ByteAt(input, 5) as int * 16
  {
    StatusRecord(
      [ByteAt(input, 0) as real * 0.4, ByteAt(input, 1) as real * 0.4,
       ByteAt(input, 2) as real * 0.4, ByteAt(input, 3) as real * 0.4],
      ByteAt(input, 4) as real * 0.06,
      ByteAt(input, 5) as int * 16)
  }

  function Drop(input: seq<byte>, k: nat): seq<byte> {
    if k <= |input| then input[k..] else []
  }

  /** Reads lines while input is waiting; a status line takes the six bytes after it. */
  function DrainStatus(input: seq<byte>, report: StatusReport): StatusReport
    decreases |input|
  {
    if input == [] then report
    else
      var s := SplitLine(input);
      if s.line == STATUS_LINE then
        var rec := DecodeStatus(s.rest);
        DrainStatus(Drop(s.rest, 6),
                    report.(escs := Some(rec.escs), battery := Some(rec.battery), loopTime := Some(rec.loopTime)))
      else if s.line == LOOP_TIME_EXCEEDED then
        DrainStatus(s.rest, report.(loopTimeExceeded := true))
      else DrainStatus(s.rest, report)
  }

  lemma SentinelLines()
    ensures STATUS_LINE[|STATUS_LINE| - 1] == NL
    ensures forall i :: 0 <= i < |STATUS_LINE| - 1 ==> STATUS_LINE[i] != NL
    ensures LOOP_TIME_EXCEEDED[|LOOP_TIME_EXCEEDED| - 1] == NL
    ensures forall i :: 0 <= i < |LOOP_TIME_EXCEEDED| - 1 ==> LOOP_TIME_EXCEEDED[i] != NL
    ensures STATUS_LINE != LOOP_TIME_EXCEEDED
  {
  }

  /** A status line and its six bytes replace the reported values and nothing else. */
  lemma StatusRecordDecoded(raw: seq<byte>, rest: seq<byte>, report: StatusReport)
    requires |raw| == 6
    ensures DrainStatus(STATUS_LINE + raw + rest, report) ==
            DrainStatus(rest, report.(escs := Some([raw[0] as real * 0.4, raw[1] as real * 0.4,
                                                    raw[2] as real * 0.4, raw[3] as real * 0.4]),
                                      battery := Some(raw[4] as real * 0.06),
                                      loopTime := Some(raw[5] as int * 16)))
  {
    SentinelLines();
    assert STATUS_LINE + raw + rest == STATUS_LINE + (raw + rest);
    SplitLineAfter(STATUS_LINE, raw + rest);
    assert Drop(raw + rest, 6) == rest;
  }

  /** An overrun line only raises the flag. */
  lemma OverrunOnlySetsFlag(rest: seq<byte>, report: StatusReport)
    ensures DrainStatus(LOOP_TIME_EXCEEDED + rest, report) ==
            DrainStatus(rest, report.(loopTimeExceeded := true))
  {
    SentinelLines();
    SplitLineAfter(LOOP_TIME_EXCEEDED, rest);
  }

  /** Once reported, an overrun stays reported until the input is drained. */
  lemma {:induction false} OverrunFlagSticks(input: seq<byte>, report: StatusReport)
    requires report.loopTimeExceeded
    ensures DrainStatus(input, report).loopTimeExceeded
    decreases |input|
  {
    if input != [] {
      var s := SplitLine(input);
      if s.line == STATUS_LINE {
        var rec := DecodeStatus(s.rest);
        OverrunFlagSticks(Drop(s.rest, 6),
          report.(escs := Some(rec.escs), battery := Some(rec.battery), loopTime := Some(rec.loopTime)));
      } else if s.line == LOOP_TIME_EXCEEDED {
        OverrunFlagSticks(s.rest, report.(loopTimeExceeded := true));
      } else {
        OverrunFlagSticks(s.rest, report);
      }
    }
  }

  // ---------------------------------------------------------------------------
  // The serial port and the operations on it

  class Serial {
    /** Bytes the microcontroller has sent and the host has not read yet. */
    var input: seq<byte>
    /** Every byte the host has written. */
    var output: seq<byte>

    constructor (incoming: seq<byte>)
      ensures input == incoming && output == []
    {
      input, output := incoming, [];
    }

    /** `s.readline()` */
    method ReadLine() returns (line: seq<byte>)
      modifies this
      ensures SplitLine(old(input)) == Split(line, input)
      ensures output == old(output)
    {
      var s := SplitLine(input);
      line, input := s.line, s.rest;
    }

    /** `s.read(1)`: one byte, or nothing when no byte is waiting. */
    method Read1() returns (b: seq<byte>)
      modifies this
      ensures old(input) == [] ==> b == [] && input == []
      ensures old(input) != [] ==> b == [old(input)[0]] && input == old(input)[1..]
      ensures output == old(output)
    {
      if input == [] {
        b := [];
      } else {
        b, input := [input[0]], input[1..];
      }
    }

    /** `s.write(bytes)` */
    method Write(bytes: seq<byte>)
      modifies this
      ensures output == old(output) + bytes && input == old(input)
    {
      output := output + bytes;
    }

    /**
     * Not a function of the source: the environment's side of the link. The
     * bytes the Arduino sends between two sensor refreshes are appended to the
     * waiting input, which the supervisor does before each refresh drains it.
     */
    method Receive(bytes: seq<byte>)
      modifies this
      ensures input == old(input) + bytes && output == old(output)
    {
      input := input + bytes;
    }
  }

  /** `int.from_bytes(b, "big", signed=False)` for at most one byte. */
  function FromBytes(b: seq<byte>): byte
    requires |b| <= 1
  {
    if b == [] then 0 else b[0]
  }

  method Neutral(s: Serial)
    modifies s
    ensures s.output == old(s.output) + NEUTRAL && s.input == old(s.input)
  {
    s.Write([ROLL]);
    s.Write([100]);
    s.Write([PITCH]);
    s.Write([100]);
    s.Write([THROTTLE]);
    s.Write([0]);
    s.Write([YAW]);
    s.Write([100]);
  }

  /** `start`: the arm byte alone. */
  method Start(s: Serial)
    modifies s
    ensures s.output == old(s.output) + [ARM] && s.input == old(s.input)
  {
    s.Write([ARM]);
  }

  /** `stop_all`: neutral, then the disarm byte. */
  method StopAll(s: Serial)
    modifies s
    ensures s.output == old(s.output) + NEUTRAL + [DISARM] && s.input == old(s.input)
  {
    Neutral(s);
    s.Write([DISARM]);
  }

  method SendAxis(s: Serial, marker: byte, percent: real) returns (r: Outcome)
    modifies s
    ensures s.output == old(s.output) + AxisFrame(marker, percent).bytes
    ensures r == AxisFrame(marker, percent).outcome && s.input == old(s.input)
  {
    var value := percent * 2.0;
    s.Write([marker]);
    var n := Trunc(value);
    if 0 <= n < 256 {
      s.Write([n]);
      r := Ok;
    } else {
      r := Raised(OverflowError);
    }
  }

  method Roll(s: Serial, percent: real) returns (r: Outcome)
    modifies s
    ensures s.output == old(s.output) + AxisFrame(ROLL, percent).bytes
    ensures r == AxisFrame(ROLL, percent).outcome && s.input == old(s.input)
  {
    r := SendAxis(s, ROLL, percent);
  }

  method Pitch(s: Serial, percent: real) returns (r: Outcome)
    modifies s
    ensures s.output == old(s.output) + AxisFrame(PITCH, percent).bytes
    ensures r == AxisFrame(PITCH, percent).outcome && s.input == old(s.input)
  {
    r := SendAxis(s, PITCH, percent);
  }

  method Throttle(s: Serial, percent: real) returns (r: Outcome)
    modifies s
    ensures s.output == old(s.output) + AxisFrame(THROTTLE, percent).bytes
    ensures r == AxisFrame(THROTTLE, percent).outcome && s.input == old(s.input)
  {
    r := SendAxis(s, THROTTLE, percent);
  }

  method Yaw(s: Serial, percent: real) returns (r: Outcome)
    modifies s
    ensures s.output == old(s.output) + AxisFrame(YAW, percent).bytes
    ensures r == AxisFrame(YAW, percent).outcome && s.input == old(s.input)
  {
    r := SendAxis(s, YAW, percent);
  }

  /** The first loop of `init`: wait for "Ready!", failing on the gyro line or after 50 lines. */
  method AwaitReady(s: Serial) returns (r: Outcome)
    modifies s
    ensures var scan := ScanLines(old(s.input), READY, Some(GYRO_NOT_RECOGNIZED), HANDSHAKE_LINES);
            && s.input == scan.rest && s.output == old(s.output)
            && r == match scan
                    case Found(_) => Ok
                    case Fault(_) => Raised(TimeoutError(GyroNotRecognized))
                    case TimedOut(_) => Raised(TimeoutError(NoReadyLine))
  {
    ghost var scan := ScanLines(s.input, READY, Some(GYRO_NOT_RECOGNIZED), HANDSHAKE_LINES);
    for i := 0 to HANDSHAKE_LINES
      invariant i < HANDSHAKE_LINES
      invariant s.output == old(s.output)
      invariant scan == ScanLines(s.input, READY, Some(GYRO_NOT_RECOGNIZED), HANDSHAKE_LINES - i)
    {
      var a := s.ReadLine();
      if a == READY {
        break;
      } else if a == CHECKING_EEPROM {
        // only logged
      } else if a == GYRO_NOT_RECOGNIZED {
        return Raised(TimeoutError(GyroNotRecognized));
      }
      if i >= 49 {
        return Raised(TimeoutError(NoReadyLine));
      }
    }
    r := Ok;
  }

  /** The second loop of `init`: wait for "Starting", failing after 50 lines. */
  method AwaitStarting(s: Serial) returns (r: Outcome)
    modifies s
    ensures var scan := ScanLines(old(s.input), STARTING, None, HANDSHAKE_LINES);
            && s.input == scan.rest && s.output == old(s.output)
            && r == if scan.Found? then Ok else Raised(TimeoutError(NoStartingLine))
  {
    ghost var scan := ScanLines(s.input, STARTING, None, HANDSHAKE_LINES);
    for i := 0 to HANDSHAKE_LINES
      invariant i < HANDSHAKE_LINES
      invariant s.output == old(s.output)
      invariant scan == ScanLines(s.input, STARTING, None, HANDSHAKE_LINES - i)
    {
      var a := s.ReadLine();
      if a == STARTING {
        break;
      }
      if i >= 49 {
        return Raised(TimeoutError(NoStartingLine));
      }
    }
    r := Ok;
  }

  /** `init` once the port is open: the two-phase handshake. */
  method Init(s: Serial) returns (r: Outcome)
    modifies s
    ensures var h := Handshake(old(s.input));
            r == h.outcome && s.output == old(s.output) + h.written && s.input == h.rest
  {
    r := AwaitReady(s);
    if r != Ok {
      return;
    }
    Neutral(s);
    s.Write([HOST_READY]);
    r := AwaitStarting(s);
    if r != Ok {
      return;
    }
    Neutral(s);
  }

  /** The six bytes after a status line, each read with `s.read(1)`. */
  method ReadStatusRecord(s: Serial) returns (rec: StatusRecord)
    modifies s
    ensures rec == DecodeStatus(old(s.input))
    ensures s.input == Drop(old(s.input), 6) && s.output == old(s.output)
  {
    var escs: seq<real> := [];
    for k := 0 to 4
      invariant |escs| == k
      invariant forall j :: 0 <= j < k ==> escs[j] == ByteAt(old(s.input), j) as real * 0.4
      invariant s.input == Drop(old(s.input), k) && s.output == old(s.output)
    {
      var b := s.Read1();
      escs := escs + [FromBytes(b) as real * 0.4];
    }
    var b := s.Read1();
    var battery := FromBytes(b) as real * 0.06;
    var t := s.Read1();
    var loopTime := FromBytes(t) as int * 16;
    rec := StatusRecord(escs, battery, loopTime);
  }

  /** `print_status`, returning what it prints: drains the waiting input. */
  method PrintStatus(s: Serial) returns (report: StatusReport)
    modifies s
    ensures report == DrainStatus(old(s.input), NO_STATUS)
    ensures s.input == [] && s.output == old(s.output)
  {
    report := NO_STATUS;
    while |s.input| > 0
      invariant DrainStatus(s.input, report) == DrainStatus(old(s.input), NO_STATUS)
      invariant s.output == old(s.output)
      decreases |s.input|
    {
      var line := s.ReadLine();
      if line == STATUS_LINE {
        var rec := ReadStatusRecord(s);
        report := report.(escs := Some(rec.escs), battery := Some(rec.battery), loopTime := Some(rec.loopTime));
      } else if line == LOOP_TIME_EXCEEDED {
        report := report.(loopTimeExceeded := true);
      }
    }
  }
}
