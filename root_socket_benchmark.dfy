/** The older TCP connect timer, socket_benchmark.py at the repository root: the
    same loop as src/socket_benchmark.py, but the result is a statistics dict, or
    None when no connect succeeded. */
module RootSocketBenchmark {
  import opened Outcomes
  import opened Trials
  import Stats
  import SocketBenchmark

  /** The dict measure_latency returns; stdev is kept as its square. */
  datatype LatencyReport = LatencyReport(
    min: real,
    max: real,
    mean: real,
    median: real,
    stdevSquared: real,
    successfulAttempts: nat,
    failedAttempts: nat)

  /** The `if latencies: ... else: return None` tail of measure_latency. */
  function Summarize(latencies: seq<real>, failedAttempts: nat): (r: Option<LatencyReport>)
    ensures r.None? <==> latencies == []
    ensures r.Some? ==>
      && r.value.min <= r.value.median <= r.value.max
      && r.value.min <= r.value.mean <= r.value.max
      && (forall x :: x in latencies ==> r.value.min <= x <= r.value.max)
      && r.value.stdevSquared >= 0.0
      && (|latencies| == 1 ==> r.value.stdevSquared == 0.0)
      && r.value.mean == Stats.Mean(latencies)
      && r.value.median == Stats.Median(latencies)
      && (|latencies| > 1 ==> r.value.stdevSquared == Stats.SampleVariance(latencies))
      && r.value.successfulAttempts == |latencies|
      && r.value.failedAttempts == failedAttempts
  {
    if latencies == [] then None
    else
      var stats := Stats.Compute(latencies, failedAttempts).value;
      Some(LatencyReport(stats.min, stats.max, stats.mean, stats.median, stats.stdevSquared,
                         |latencies|, failedAttempts))
  }

  /** The dict carries the same statistics as a MeasurementsStats built from the
      same list. */
  lemma SummarizeAgreesWithStats(latencies: seq<real>, failedAttempts: nat)
    requires latencies != []
    ensures Stats.Compute(latencies, failedAttempts).Success?
    ensures var st := Stats.Compute(latencies, failedAttempts).value;
      Summarize(latencies, failedAttempts)
        == Some(LatencyReport(st.min, st.max, st.mean, st.median, st.stdevSquared, |latencies|, failedAttempts))
  {
  }

  /** measure_latency: the loop is the one of src/socket_benchmark.py; its
      latencies and failed_attempts go into the dict. */
  method MeasureLatency(attempts: seq<SocketBenchmark.ConnectAttempt>) returns (report: Option<LatencyReport>, sleeps: nat)
    ensures report == Summarize(Successes(SocketBenchmark.ConnectOutcomes(attempts)),
                                Failures(SocketBenchmark.ConnectOutcomes(attempts)))
    ensures sleeps == |attempts| - Timeouts(SocketBenchmark.ConnectOutcomes(attempts))
  {
    var latencies, failedAttempts;
    latencies, failedAttempts, sleeps := SocketBenchmark.ConnectLoop(attempts);
    report := Summarize(latencies, failedAttempts);
  }

  /** The reported success rate adds up: successful plus failed is count, and the
      report is None exactly when no connect succeeded. */
  lemma ReportAccounting(attempts: seq<SocketBenchmark.ConnectAttempt>)
    ensures var outs := SocketBenchmark.ConnectOutcomes(attempts);
      var report := Summarize(Successes(outs), Failures(outs));
      && (report.None? <==> forall i :: 0 <= i < |attempts| ==> attempts[i].connect != Done)
      && (report.Some? ==> report.value.successfulAttempts + report.value.failedAttempts == |attempts|)
  {
    var outs := SocketBenchmark.ConnectOutcomes(attempts);
    Accounting(outs);
    NoSuccesses(outs);
  }
}
