/** The Oracle Net "TNS ping" probe of src/oracle_tnsping_benchmark.py: a fixed
    CONNECT packet carrying (CONNECT_DATA=(COMMAND=ping)), a receive loop that
    keeps only the last chunk, and an anchored pattern check of the answer. */
module TnsPing {
  import opened Outcomes
  import opened Trials
  import Stats

  type byte = x: int | 0 <= x < 256

  /** The request frame `packet`, byte for byte, as the four bytes literals it
      is written as. */
  const Packet: seq<byte> := PacketPart1 + PacketPart2 + PacketPart3 + PacketPart4

  /** Bytes 0..17: packet length, checksum, type 1 (CONNECT), flags, header
      checksum, then the protocol versions, service options, SDU size and, in
      bytes 16..17, the maximum TDU size 0x7fff. */
  const PacketPart1: seq<byte> := [
    0x00, 0x57, 0x00, 0x00, 0x01, 0x00, 0x00, 0x00, 0x01, 0x38, 0x01, 0x2c, 0x00, 0x00, 0x08, 0x00,
    0x7f, 0xff]

  /** Bytes 18..33: the NT protocol characteristics 0x7f08 in bytes 18..19, line
      turnaround, hardware byte order, connect-data length and offset, maximum
      receivable data and connect flags. */
  const PacketPart2: seq<byte> := [
    0x7f, 0x08, 0x00, 0x00, 0x01, 0x00, 0x00, 0x1d, 0x00, 0x3a, 0x00, 0x00, 0x00, 0x00, 0x00, 0x00]

  /** Bytes 34..49: the rest of the CONNECT header. */
  const PacketPart3: seq<byte> := [
    0x00, 0x00, 0x00, 0x00, 0x00, 0x00, 0x00, 0x00, 0x00, 0x00, 0x19, 0x30, 0x00, 0x00, 0x00, 0x8d]

  /** Bytes 50..86: eight more header bytes, then the connect data, which the
      bytes literal spells as text. */
  const PacketPart4: seq<byte> := [0x00, 0x00, 0x00, 0x00, 0x00, 0x00, 0x00, 0x00] + ConnectDataHead + ConnectDataTail

  /** The bytes of "(CONNECT_DATA=" and of "(COMMAND=ping))". */
  const ConnectDataHead: seq<byte> := [0x28, 0x43, 0x4f, 0x4e, 0x4e, 0x45, 0x43, 0x54, 0x5f, 0x44, 0x41, 0x54, 0x41, 0x3d]
  const ConnectDataTail: seq<byte> := [0x28, 0x43, 0x4f, 0x4d, 0x4d, 0x41, 0x4e, 0x44, 0x3d, 0x70, 0x69, 0x6e, 0x67, 0x29, 0x29]

  /** The connect data the packet ends with. */
  const ConnectData: string := "(CONNECT_DATA=(COMMAND=ping))"

  /** The regular expression `pattern`, as its source text. Its meaning is Matches. */
  const Pattern: string := "\\(DESCRIPTION=\\(TMP=\\)\\(VSNNUM=0\\)\\(ERR=0\\)\\(ALIAS=.*?\\)\\)"

  /** The literal text the pattern demands at the start of the answer. */
  const ResponsePrefix: string := "(DESCRIPTION=(TMP=)(VSNNUM=0)(ERR=0)(ALIAS="

  /** A 16-bit big-endian field of a frame. */
  function BigEndian16(frame: seq<byte>, at: nat): nat
    requires at + 2 <= |frame|
  {
    (frame[at] as int) * 256 + frame[at + 1] as int
  }

  predicate IsAscii(t: string) {
    forall i :: 0 <= i < |t| ==> t[i] as int < 128
  }

  function EncodeAscii(t: string): (b: seq<byte>)
    requires IsAscii(t)
    ensures |b| == |t|
  {
    seq(|t|, i requires 0 <= i < |t| => t[i] as int)
  }

  /** bytes.decode() restricted to ASCII: any byte of 0x80 or above counts as a
      decode failure (UnicodeDecodeError). */
  function DecodeAscii(b: seq<byte>): (r: Option<string>)
    ensures r.Some? <==> forall i :: 0 <= i < |b| ==> b[i] < 128
    ensures r.Some? ==> IsAscii(r.value) && |r.value| == |b| && EncodeAscii(r.value) == b
  {
    if forall i :: 0 <= i < |b| ==> b[i] < 128 then
      var t := seq(|b|, i requires 0 <= i < |b| => b[i] as char);
      assert forall i :: 0 <= i < |t| ==> t[i] as int == b[i];
      assert EncodeAscii(t) == b;
      Some(t)
    else None
  }

  /** The length field of the frame header is the length of the frame. */
  lemma PacketLength()
    ensures |Packet| == 87
    ensures BigEndian16(Packet, 0) == |Packet|
  {
    assert Packet[0] == PacketPart1[0] && Packet[1] == PacketPart1[1];
  }

  /** The connect-data fields of the CONNECT header give the length of the
      connect data and the offset at which it starts, the last bytes of the frame. */
  lemma ConnectDataFields()
    ensures |Packet| == 87
    ensures BigEndian16(Packet, 24) == |ConnectData| == 29
    ensures BigEndian16(Packet, 26) == 58 == |Packet| - |ConnectData|
    ensures Packet[BigEndian16(Packet, 26)..] == PacketPart4[8..]
  {
    assert Packet[24] == PacketPart2[6] && Packet[25] == PacketPart2[7];
    assert Packet[26] == PacketPart2[8] && Packet[27] == PacketPart2[9];
    assert Packet[58..] == PacketPart4[8..];
  }

  /** Encoding a concatenation encodes its parts. */
  lemma EncodeAsciiAppend(a: string, b: string)
    requires IsAscii(a) && IsAscii(b)
    ensures IsAscii(a + b)
    ensures EncodeAscii(a + b) == EncodeAscii(a) + EncodeAscii(b)
  {
  }

  lemma HeadEncoding()
    ensures IsAscii("(CONNECT_DATA=") && EncodeAscii("(CONNECT_DATA=") == ConnectDataHead
  {
  }

  lemma TailEncoding()
    ensures IsAscii("(COMMAND=ping))") && EncodeAscii("(COMMAND=ping))") == ConnectDataTail
  {
  }

  lemma PacketEndsWithConnectData()
    ensures PacketPart4[8..] == ConnectDataHead + ConnectDataTail
  {
    assert PacketPart4 == [0x00, 0x00, 0x00, 0x00, 0x00, 0x00, 0x00, 0x00] + (ConnectDataHead + ConnectDataTail);
  }

  /** The last 29 bytes are the ASCII encoding of the connect data string. */
  lemma ConnectDataEncoding()
    ensures IsAscii(ConnectData)
    ensures PacketPart4[8..] == EncodeAscii(ConnectData)
  {
    HeadEncoding();
    TailEncoding();
    assert ConnectData == "(CONNECT_DATA=" + "(COMMAND=ping))";
    EncodeAsciiAppend("(CONNECT_DATA=", "(COMMAND=ping))");
    PacketEndsWithConnectData();
  }

  /** The answer text begins after a 12-byte header: data[12:], empty when the
      chunk is shorter. */
  function Payload(data: seq<byte>): seq<byte> {
    if |data| <= 12 then [] else data[12..]
  }

  /** What one recv call returns: a chunk (empty once the peer has closed), or
      an exception. */
  datatype Recv = Chunk(data: seq<byte>) | RecvTimeout | RecvError

  /** The text the receive loop leaves in `received`, starting from `current`:
      each non-empty chunk overwrites it with its decoded payload; an empty chunk
      ends the loop. A reply list that runs out stands for a peer that has
      closed, as if an empty chunk followed. */
  function ReceivedText(replies: seq<Recv>, current: string): Result<string, Exception>
    decreases |replies|
  {
    if replies == [] then Success(current)
    else
      match replies[0]
      case RecvTimeout => Failure(SocketTimeout)
      case RecvError => Failure(SocketError)
      case Chunk(data) =>
        if data == [] then Success(current)
        else
          match DecodeAscii(Payload(data))
          case None => Failure(DecodeError)
          case Some(text) => ReceivedText(replies[1..], text)
  }

  /** re.match(pattern, text) by the definition of the regular expression: the
      prefix, then the fewest non-newline characters that reach a "))". */
  ghost predicate MatchesPattern(text: string) {
    && ResponsePrefix <= text
    && exists k :: CloseAt(text, |ResponsePrefix|, k)
  }

  /** Position k holds "))" and nothing from `from` up to k is a newline. */
  ghost predicate CloseAt(text: string, from: nat, k: int) {
    && from <= k && k + 2 <= |text| && text[k] == ')' && text[k + 1] == ')'
    && forall j :: from <= j < k ==> text[j] != '\n'
  }

  /** The lazy `.*?\)\)` scan from position k. */
  function ScanClose(text: string, k: nat): bool
    decreases |text| - k
  {
    if k + 2 > |text| then false
    else if text[k] == ')' && text[k + 1] == ')' then true
    else if text[k] == '\n' then false
    else ScanClose(text, k + 1)
  }

  /** re.match(pattern, text) is not None. */
  function Matches(text: string): bool {
    ResponsePrefix <= text && ScanClose(text, |ResponsePrefix|)
  }

  lemma {:induction false} ScanCloseFinds(text: string, k: nat)
    ensures ScanClose(text, k) <==> exists m :: CloseAt(text, k, m)
    decreases |text| - k
  {
    if k + 2 > |text| {
    } else if text[k] == ')' && text[k + 1] == ')' {
      assert CloseAt(text, k, k);
    } else if text[k] == '\n' {
    } else {
      var next := k + 1;
      ScanCloseFinds(text, next);
      if m :| CloseAt(text, k, m) {
        assert CloseAt(text, next, m);
      }
      if m :| CloseAt(text, next, m) {
        assert CloseAt(text, k, m);
      }
    }
  }

  /** The scan accepts exactly the texts the regular expression matches. */
  lemma MatchesIffPattern(text: string)
    ensures Matches(text) <==> MatchesPattern(text)
  {
    ScanCloseFinds(text, |ResponsePrefix|);
  }

  /** re.match anchors at the start only: whatever follows a match is ignored. */
  lemma MatchIgnoresTrailer(text: string, trailer: string)
    requires Matches(text)
    ensures Matches(text + trailer)
  {
    MatchesIffPattern(text);
    MatchesIffPattern(text + trailer);
    var k :| CloseAt(text, |ResponsePrefix|, k);
    assert (text + trailer)[..|ResponsePrefix|] == text[..|ResponsePrefix|];
    assert CloseAt(text + trailer, |ResponsePrefix|, k);
  }

  /** An answer reporting any error code other than 0 is rejected. */
  lemma NonZeroErrorRejected(text: string, code: char)
    requires "(DESCRIPTION=(TMP=)(VSNNUM=0)(ERR=" + [code] <= text
    requires code != '0'
    ensures !Matches(text)
  {
    assert text[34] == code;
    assert ResponsePrefix[34] == '0';
  }

  /** A listener answer with an alias is accepted. */
  lemma ListenerAnswerAccepted(alias: string)
    requires '\n' !in alias
    ensures Matches(ResponsePrefix + alias + "))")
  {
    var text := ResponsePrefix + alias + "))";
    var k := |ResponsePrefix| + |alias|;
    assert CloseAt(text, |ResponsePrefix|, k) by {
      forall j | |ResponsePrefix| <= j < k ensures text[j] != '\n' {
        assert text[j] == alias[j - |ResponsePrefix|];
      }
    }
    assert ResponsePrefix <= text;
    MatchesIffPattern(text);
  }

  /** The initial value of `received` is not an acceptable answer. */
  lemma NoDataRejected()
    ensures !Matches("no data")
  {
  }

  /** The received chunks, as recv returns them. */
  function AsChunks(chunks: seq<seq<byte>>): (r: seq<Recv>)
    ensures |r| == |chunks|
    ensures forall i :: 0 <= i < |chunks| ==> r[i] == Chunk(chunks[i])
  {
    seq(|chunks|, i requires 0 <= i < |chunks| => Chunk(chunks[i]))
  }

  /** Only the last non-empty chunk is kept: earlier chunks are overwritten, not
      concatenated; with no chunk at all the text stays at its initial value. */
  lemma {:induction false} LastChunkWins(chunks: seq<seq<byte>>, trailer: seq<Recv>, current: string)
    requires forall i :: 0 <= i < |chunks| ==> chunks[i] != [] && DecodeAscii(Payload(chunks[i])).Some?
    ensures ReceivedText(AsChunks(chunks) + [Chunk([])] + trailer, current)
      == Success(if chunks == [] then current else DecodeAscii(Payload(chunks[|chunks| - 1])).value)
    decreases |chunks|
  {
    var replies := AsChunks(chunks) + [Chunk([])] + trailer;
    if chunks != [] {
      var text := DecodeAscii(Payload(chunks[0])).value;
      assert replies[0] == Chunk(chunks[0]);
      assert replies[1..] == AsChunks(chunks[1..]) + [Chunk([])] + trailer;
      LastChunkWins(chunks[1..], trailer, text);
    } else {
      assert replies[0] == Chunk([]);
    }
  }

  /** What the network and the clock do during one ping: how connect and send end,
      what recv returns, and the perf_counter readings before connect, after
      connect and after the receive loop. */
  datatype PingEnv = PingEnv(
    connect: SocketStep,
    send: SocketStep,
    replies: seq<Recv>,
    beforeConnect: real,
    afterConnect: real,
    afterReceive: real)

  /** A completed exchange: the measured time and the received text. */
  datatype Exchanged = Exchanged(latency: real, received: string)

  function StepFailure(step: SocketStep): Exception {
    if step == StepTimeout then SocketTimeout else SocketError
  }

  /** Connect, send the packet, drain the socket; the timer starts before connect
      when the connection setup is included, right after it otherwise, and stops
      after the receive loop. */
  function Exchange(env: PingEnv, includeConnSetup: bool): (r: Result<Exchanged, Exception>)
    ensures r.Success? <==>
      env.connect == Done && env.send == Done && ReceivedText(env.replies, "no data").Success?
    ensures r.Success? ==>
      && r.value.received == ReceivedText(env.replies, "no data").value
      && r.value.latency
           == (env.afterReceive - (if includeConnSetup then env.beforeConnect else env.afterConnect)) * 1000.0
  {
    if env.connect != Done then Failure(StepFailure(env.connect))
    else if env.send != Done then Failure(StepFailure(env.send))
    else
      match ReceivedText(env.replies, "no data")
      case Failure(e) => Failure(e)
      case Success(text) =>
        var start := if includeConnSetup then env.beforeConnect else env.afterConnect;
        Success(Exchanged((env.afterReceive - start) * 1000.0, text))
  }

  /** measure_single_tns_ping as a function: the latency, or the exception raised. */
  function SingleTnsPing(env: PingEnv, includeConnSetup: bool): Result<real, Exception> {
    match Exchange(env, includeConnSetup)
    case Failure(e) => Failure(e)
    case Success(x) => if Matches(x.received) then Success(x.latency) else Failure(WrongAnswer)
  }

  /** A ping succeeds exactly when the exchange completes and the last chunk's
      text matches the pattern; a silent peer leaves "no data" and the ping raises
      ValueError. */
  lemma SingleTnsPingResult(env: PingEnv, includeConnSetup: bool)
    ensures var r := SingleTnsPing(env, includeConnSetup);
      var x := Exchange(env, includeConnSetup);
      && (r.Success? <==> x.Success? && MatchesPattern(x.value.received))
      && (r.Success? ==> r.value == x.value.latency)
      && (x.Success? && !MatchesPattern(x.value.received) ==> r == Failure(WrongAnswer))
      && (env.connect == Done && env.send == Done && env.replies == [Chunk([])] ==> r == Failure(WrongAnswer))
  {
    var x := Exchange(env, includeConnSetup);
    if x.Success? {
      MatchesIffPattern(x.value.received);
    }
  }

  /** The socket part of measure_single_tns_ping: connect, send the packet, then
      `while True: recv` keeping the last non-empty chunk, and stop the clock. */
  method ExchangePacket(env: PingEnv, includeConnSetup: bool) returns (r: Result<Exchanged, Exception>)
    ensures r == Exchange(env, includeConnSetup)
  {
    var startTime := 0.0;
    if includeConnSetup {
      startTime := env.beforeConnect;
    }
    if env.connect != Done {
      return Failure(StepFailure(env.connect));
    }
    if !includeConnSetup {
      startTime := env.afterConnect;
    }
    if env.send != Done {
      return Failure(StepFailure(env.send));
    }
    var received := "no data";
    var rest := env.replies;
    while true
      invariant ReceivedText(rest, received) == ReceivedText(env.replies, "no data")
      decreases |rest|
    {
      if rest == [] {
        break;
      }
      match rest[0] {
        case RecvTimeout =>
          return Failure(SocketTimeout);
        case RecvError =>
          return Failure(SocketError);
        case Chunk(data) =>
          if data == [] {
            break;
          }
          var decoded := DecodeAscii(Payload(data));
          if decoded.None? {
            return Failure(DecodeError);
          }
          received := decoded.value;
      }
      rest := rest[1..];
    }
    var endTime := env.afterReceive;
    return Success(Exchanged((endTime - startTime) * 1000.0, received));
  }

  /** measure_single_tns_ping: the exchange, then the pattern check of the answer. */
  method MeasureSingleTnsPing(env: PingEnv, includeConnSetup: bool) returns (r: Result<real, Exception>)
    ensures r == SingleTnsPing(env, includeConnSetup)
  {
    var exchanged := ExchangePacket(env, includeConnSetup);
    if exchanged.Failure? {
      return Failure(exchanged.error);
    }
    if !Matches(exchanged.value.received) {
      return Failure(WrongAnswer);
    }
    return Success(exchanged.value.latency);
  }

  /** How the loop of measure_tns_pings classifies one ping. */
  function PingOutcome(r: Result<real, Exception>): Outcome {
    match r
    case Success(ms) => Measured(ms)
    case Failure(e) => if e == SocketTimeout then TimedOut else Failed
  }

  function PingOutcomes(envs: seq<PingEnv>, includeConnSetup: bool): (outs: seq<Outcome>)
    ensures |outs| == |envs|
    ensures forall i :: 0 <= i < |envs| ==> outs[i] == PingOutcome(SingleTnsPing(envs[i], includeConnSetup))
  {
    seq(|envs|, i requires 0 <= i < |envs| => PingOutcome(SingleTnsPing(envs[i], includeConnSetup)))
  }

  /** measure_tns_pings: one entry of envs per attempt. Every attempt adds one
      measurement or one failure, but the failures are not passed on:
      MeasurementsStats(measurements) is built with failed_attempts = 0, and it
      raises when no ping succeeded. */
  method MeasureTnsPings(envs: seq<PingEnv>, includeConnSetup: bool)
    returns (stats: Result<Stats.MeasurementsStats, Exception>, sleeps: nat, ghost failedAttempts: nat)
    ensures stats == Stats.Compute(Successes(PingOutcomes(envs, includeConnSetup)))
    ensures failedAttempts == Failures(PingOutcomes(envs, includeConnSetup))
    ensures sleeps == |envs| - Timeouts(PingOutcomes(envs, includeConnSetup))
  {
    ghost var outs := PingOutcomes(envs, includeConnSetup);
    var measurements: seq<real> := [];
    failedAttempts := 0;
    sleeps := 0;
    for i := 0 to |envs|
      invariant measurements == Successes(outs[..i])
      invariant failedAttempts == Failures(outs[..i])
      invariant sleeps + Timeouts(outs[..i]) == i
    {
      TallySnoc(outs, i);
      var measurement := MeasureSingleTnsPing(envs[i], includeConnSetup);
      match measurement {
        case Success(ms) =>
          measurements := measurements + [ms];
          sleeps := sleeps + 1;
        case Failure(e) =>
          failedAttempts := failedAttempts + 1;
          if e != SocketTimeout {
            sleeps := sleeps + 1;
          }
      }
    }
    assert outs[..|envs|] == outs;
    if measurements != [] {
      stats := Stats.Compute(measurements);
    } else {
      stats := Stats.Compute([]);
    }
  }

  /** The returned statistics always report 0 failed attempts and count only the
      successes, whatever failed; with no success the run raises ValueError. */
  lemma TnsPingsDropFailures(envs: seq<PingEnv>, includeConnSetup: bool)
    ensures var outs := PingOutcomes(envs, includeConnSetup);
      var stats := Stats.Compute(Successes(outs));
      && |Successes(outs)| + Failures(outs) == |envs|
      && (stats.Success? ==> stats.value.failedAttempts == 0 && stats.value.attempts == |envs| - Failures(outs))
      && (stats == Failure(EmptyData) <==> forall i :: 0 <= i < |envs| ==> !outs[i].Measured?)
  {
    var outs := PingOutcomes(envs, includeConnSetup);
    Accounting(outs);
    NoSuccesses(outs);
  }
}
