/** The TCP connect timer of src/socket_benchmark.py: count attempts, each one
    opening a socket and timing only its connect call. */
module SocketBenchmark {
  import opened Outcomes
  import opened Trials
  import Stats

  /** What the network and the clock do during one attempt: how connect ends, and
      the perf_counter readings taken just before and just after it. */
  datatype ConnectAttempt = ConnectAttempt(connect: SocketStep, beforeConnect: real, afterConnect: real)

  /** One attempt of the loop: the connect latency in milliseconds, or the
      exception that ended it. */
  function ConnectOutcome(a: ConnectAttempt): Outcome {
    match a.connect
    case Done => Measured((a.afterConnect - a.beforeConnect) * 1000.0)
    case StepTimeout => TimedOut
    case StepError => Failed
  }

  function ConnectOutcomes(attempts: seq<ConnectAttempt>): (outs: seq<Outcome>)
    ensures |outs| == |attempts|
    ensures forall i :: 0 <= i < |attempts| ==> outs[i] == ConnectOutcome(attempts[i])
  {
    seq(|attempts|, i requires 0 <= i < |attempts| => ConnectOutcome(attempts[i]))
  }

  /** The loop of measure_latency, one entry of attempts per iteration of
      range(count): a success appends its latency, any exception adds one to
      failed_attempts, and time.sleep(wait) follows every attempt that did not
      time out. */
  method ConnectLoop(attempts: seq<ConnectAttempt>) returns (measurements: seq<real>, failedAttempts: nat, sleeps: nat)
    ensures measurements == Successes(ConnectOutcomes(attempts))
    ensures failedAttempts == Failures(ConnectOutcomes(attempts))
    ensures sleeps == |attempts| - Timeouts(ConnectOutcomes(attempts))
  {
    ghost var outs := ConnectOutcomes(attempts);
    measurements := [];
    failedAttempts := 0;
    sleeps := 0;
    for i := 0 to |attempts|
      invariant measurements == Successes(outs[..i])
      invariant failedAttempts == Failures(outs[..i])
      invariant sleeps + Timeouts(outs[..i]) == i
    {
      TallySnoc(outs, i);
      var a := attempts[i];
      match a.connect {
        case Done =>
          var latency := (a.afterConnect - a.beforeConnect) * 1000.0;
          measurements := measurements + [latency];
          sleeps := sleeps + 1;
        case StepTimeout =>
          failedAttempts := failedAttempts + 1;
        case StepError =>
          failedAttempts := failedAttempts + 1;
          sleeps := sleeps + 1;
      }
    }
    assert outs[..|attempts|] == outs;
  }

  /** measure_latency: the successes are passed to MeasurementsStats together with
      failed_attempts. */
  method MeasureLatency(attempts: seq<ConnectAttempt>) returns (stats: Result<Stats.MeasurementsStats, Exception>, sleeps: nat)
    ensures stats == Stats.Compute(Successes(ConnectOutcomes(attempts)), Failures(ConnectOutcomes(attempts)))
    ensures sleeps == |attempts| - Timeouts(ConnectOutcomes(attempts))
  {
    var measurements, failedAttempts;
    measurements, failedAttempts, sleeps := ConnectLoop(attempts);
    stats := Stats.Compute(measurements, failedAttempts);
  }

  /** The statistics count every attempt: the successes plus failed_attempts is count. */
  lemma AttemptsAreCount(attempts: seq<ConnectAttempt>)
    requires Stats.Compute(Successes(ConnectOutcomes(attempts)), Failures(ConnectOutcomes(attempts))).Success?
    ensures Stats.Compute(Successes(ConnectOutcomes(attempts)), Failures(ConnectOutcomes(attempts))).value.attempts
      == |attempts|
  {
    Accounting(ConnectOutcomes(attempts));
  }

  /** With no successful connect the MeasurementsStats constructor raises, so
      measure_latency raises instead of returning. */
  lemma NoConnectRaises(attempts: seq<ConnectAttempt>)
    ensures Stats.Compute(Successes(ConnectOutcomes(attempts)), Failures(ConnectOutcomes(attempts))) == Failure(EmptyData)
      <==> forall i :: 0 <= i < |attempts| ==> attempts[i].connect != Done
  {
    var outs := ConnectOutcomes(attempts);
    NoSuccesses(outs);
    assert (forall i :: 0 <= i < |outs| ==> !outs[i].Measured?)
      <==> forall i :: 0 <= i < |attempts| ==> attempts[i].connect != Done;
  }

  /** Every timed out attempt skips its sleep; the others sleep, the last one included. */
  lemma SleepsSkipTimeouts(attempts: seq<ConnectAttempt>)
    ensures |attempts| - Timeouts(ConnectOutcomes(attempts)) >= |Successes(ConnectOutcomes(attempts))|
  {
    Accounting(ConnectOutcomes(attempts));
    TimeoutsAreFailures(ConnectOutcomes(attempts));
  }
}
