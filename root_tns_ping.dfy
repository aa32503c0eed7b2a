/** The older TNS ping, oracle_tnsping_benchmark.py at the repository root: the
    same packet, pattern and receive loop as src/oracle_tnsping_benchmark.py, all
    inline in one loop, with the latency appended before the answer is checked. */
module RootTnsPing {
  import opened Outcomes
  import opened Trials
  import TnsPing
  import RootSocketBenchmark

  /** The script's own copy of the request frame `packet`. */
  const Packet: seq<TnsPing.byte> := PacketPart1 + PacketPart2 + PacketPart3 + PacketPart4

  /** The four bytes literals of `packet`. */
  const PacketPart1: seq<TnsPing.byte> := [
    0x00, 0x57, 0x00, 0x00, 0x01, 0x00, 0x00, 0x00, 0x01, 0x38, 0x01, 0x2c, 0x00, 0x00, 0x08, 0x00,
    0x7f, 0xff]

  const PacketPart2: seq<TnsPing.byte> := [
    0x7f, 0x08, 0x00, 0x00, 0x01, 0x00, 0x00, 0x1d, 0x00, 0x3a, 0x00, 0x00, 0x00, 0x00, 0x00, 0x00]

  const PacketPart3: seq<TnsPing.byte> := [
    0x00, 0x00, 0x00, 0x00, 0x00, 0x00, 0x00, 0x00, 0x00, 0x00, 0x19, 0x30, 0x00, 0x00, 0x00, 0x8d]

  const PacketPart4: seq<TnsPing.byte> :=
    [0x00, 0x00, 0x00, 0x00, 0x00, 0x00, 0x00, 0x00]
    + [0x28, 0x43, 0x4f, 0x4e, 0x4e, 0x45, 0x43, 0x54, 0x5f, 0x44, 0x41, 0x54, 0x41, 0x3d]
    + [0x28, 0x43, 0x4f, 0x4d, 0x4d, 0x41, 0x4e, 0x44, 0x3d, 0x70, 0x69, 0x6e, 0x67, 0x29, 0x29]

  /** The script's own copy of the regular expression `pattern`. */
  const Pattern: string := "\\(DESCRIPTION=\\(TMP=\\)\\(VSNNUM=0\\)\\(ERR=0\\)\\(ALIAS=.*?\\)\\)"

  /** Both scripts send the same frame and check answers with the same regular
      expression, so TnsPing.Matches is the meaning of this script's pattern too. */
  lemma SameProtocol()
    ensures Packet == TnsPing.Packet && |Packet| == 87
    ensures Pattern == TnsPing.Pattern
  {
    TnsPing.PacketLength();
  }

  /** How one iteration of the loop ends. */
  datatype Attempt =
    | Answered(ms: real, valid: bool)   // the exchange completed; valid: the answer matched
    | AttemptTimedOut                   // except socket.timeout
    | AttemptFailed                     // any other exception before the latency was taken

  function AttemptOf(env: TnsPing.PingEnv, includeConnSetup: bool): Attempt {
    match TnsPing.Exchange(env, includeConnSetup)
    case Failure(e) => if e == SocketTimeout then AttemptTimedOut else AttemptFailed
    case Success(x) => Answered(x.latency, TnsPing.Matches(x.received))
  }

  function Attempts(envs: seq<TnsPing.PingEnv>, includeConnSetup: bool): (outs: seq<Attempt>)
    ensures |outs| == |envs|
    ensures forall i :: 0 <= i < |envs| ==> outs[i] == AttemptOf(envs[i], includeConnSetup)
  {
    seq(|envs|, i requires 0 <= i < |envs| => AttemptOf(envs[i], includeConnSetup))
  }

  /** The latencies list: every completed exchange, whether its answer matched or not. */
  function Latencies(outs: seq<Attempt>): (r: seq<real>)
    ensures |r| <= |outs|
  {
    if outs == [] then []
    else
      var last := outs[|outs| - 1];
      Latencies(outs[..|outs| - 1]) + (if last.Answered? then [last.ms] else [])
  }

  /** failed_attempts: timeouts, other errors, and answers that did not match. */
  function FailedAttempts(outs: seq<Attempt>): nat {
    if outs == [] then 0
    else
      var last := outs[|outs| - 1];
      FailedAttempts(outs[..|outs| - 1]) + (if last.Answered? && last.valid then 0 else 1)
  }

  /** The attempts that count twice: a latency and a failure. */
  function WrongAnswers(outs: seq<Attempt>): nat {
    if outs == [] then 0
    else
      var last := outs[|outs| - 1];
      WrongAnswers(outs[..|outs| - 1]) + (if last.Answered? && !last.valid then 1 else 0)
  }

  function TimedOutAttempts(outs: seq<Attempt>): nat {
    if outs == [] then 0
    else TimedOutAttempts(outs[..|outs| - 1]) + (if outs[|outs| - 1].AttemptTimedOut? then 1 else 0)
  }

  /** The tallies after one more attempt. */
  lemma TallySnoc(outs: seq<Attempt>, i: nat)
    requires i < |outs|
    ensures var last := outs[i];
      && Latencies(outs[..i + 1]) == Latencies(outs[..i]) + (if last.Answered? then [last.ms] else [])
      && FailedAttempts(outs[..i + 1]) == FailedAttempts(outs[..i]) + (if last.Answered? && last.valid then 0 else 1)
      && TimedOutAttempts(outs[..i + 1]) == TimedOutAttempts(outs[..i]) + (if last.AttemptTimedOut? then 1 else 0)
  {
    assert outs[..i + 1][..i] == outs[..i];
  }

  /** measure_latency: one entry of envs per iteration of range(count); the report
      is the statistics dict, or None when the latencies list stayed empty. A sleep
      follows every attempt but a timed out one. */
  method MeasureLatency(envs: seq<TnsPing.PingEnv>, includeConnSetup: bool)
    returns (report: Option<RootSocketBenchmark.LatencyReport>, sleeps: nat)
    ensures report == RootSocketBenchmark.Summarize(Latencies(Attempts(envs, includeConnSetup)),
                                                    FailedAttempts(Attempts(envs, includeConnSetup)))
    ensures sleeps == |envs| - TimedOutAttempts(Attempts(envs, includeConnSetup))
  {
    ghost var outs := Attempts(envs, includeConnSetup);
    var latencies: seq<real> := [];
    var failedAttempts := 0;
    sleeps := 0;
    for i := 0 to |envs|
      invariant latencies == Latencies(outs[..i])
      invariant failedAttempts == FailedAttempts(outs[..i])
      invariant sleeps + TimedOutAttempts(outs[..i]) == i
    {
      TallySnoc(outs, i);
      var exchanged := TnsPing.ExchangePacket(envs[i], includeConnSetup);
      match exchanged {
        case Failure(e) =>
          failedAttempts := failedAttempts + 1;
          if e != SocketTimeout {
            sleeps := sleeps + 1;
          }
        case Success(x) =>
          latencies := latencies + [x.latency];
          if !TnsPing.Matches(x.received) {
            failedAttempts := failedAttempts + 1;
          }
          sleeps := sleeps + 1;
      }
    }
    assert outs[..|envs|] == outs;
    report := RootSocketBenchmark.Summarize(latencies, failedAttempts);
  }

  /** Latencies plus failures count each attempt once, and each wrong answer
      twice: the success rate's denominator lies between count and twice count,
      and equals count exactly when no answer was wrong. */
  lemma {:induction false} Accounting(outs: seq<Attempt>)
    ensures |Latencies(outs)| + FailedAttempts(outs) == |outs| + WrongAnswers(outs)
    ensures WrongAnswers(outs) <= |outs|
  {
    if outs != [] {
      Accounting(outs[..|outs| - 1]);
    }
  }

  /** The report is None only when no exchange completed: a listener that answers
      with anything at all still yields latencies. */
  lemma {:induction false} NoLatencies(outs: seq<Attempt>)
    ensures Latencies(outs) == [] <==> forall i :: 0 <= i < |outs| ==> !outs[i].Answered?
  {
    if outs != [] {
      var init := outs[..|outs| - 1];
      NoLatencies(init);
      assert forall i :: 0 <= i < |init| ==> init[i] == outs[i];
    }
  }

  /** The reported success rate: successful plus failed is count plus the number
      of wrong answers, and the report is None exactly when every exchange failed. */
  lemma ReportAccounting(envs: seq<TnsPing.PingEnv>, includeConnSetup: bool)
    ensures var outs := Attempts(envs, includeConnSetup);
      var report := RootSocketBenchmark.Summarize(Latencies(outs), FailedAttempts(outs));
      && (report.None? <==> forall i :: 0 <= i < |envs| ==> TnsPing.Exchange(envs[i], includeConnSetup).Failure?)
      && (report.Some? ==>
            && |envs| <= report.value.successfulAttempts + report.value.failedAttempts <= 2 * |envs|
            && report.value.successfulAttempts + report.value.failedAttempts == |envs| + WrongAnswers(outs))
  {
    var outs := Attempts(envs, includeConnSetup);
    Accounting(outs);
    NoLatencies(outs);
    assert forall i :: 0 <= i < |envs| ==>
      (outs[i].Answered? <==> TnsPing.Exchange(envs[i], includeConnSetup).Success?);
    var report := RootSocketBenchmark.Summarize(Latencies(outs), FailedAttempts(outs));
    assert report.None? <==> Latencies(outs) == [];
    assert report.Some? ==>
      report.value.successfulAttempts == |Latencies(outs)| && report.value.failedAttempts == FailedAttempts(outs);
  }

  /** One ping whose answer does not match is reported as one successful and one
      failed attempt: "Success rate: 1/2 attempts" for a single attempt. */
  lemma WrongAnswerCountedTwice(env: TnsPing.PingEnv, includeConnSetup: bool)
    requires TnsPing.Exchange(env, includeConnSetup).Success?
    requires !TnsPing.Matches(TnsPing.Exchange(env, includeConnSetup).value.received)
    ensures var outs := Attempts([env], includeConnSetup);
      var report := RootSocketBenchmark.Summarize(Latencies(outs), FailedAttempts(outs));
      && report.Some?
      && report.value.successfulAttempts == 1
      && report.value.failedAttempts == 1
      && report.value.min == TnsPing.Exchange(env, includeConnSetup).value.latency
  {
    var outs := Attempts([env], includeConnSetup);
    assert outs[..0] == [];
    assert Latencies(outs) == [TnsPing.Exchange(env, includeConnSetup).value.latency];
  }
}
