/** The older SQL timer, oracle_sql_benchmark.py at the repository root: on one
    connection and cursor, run the statements once timed and twice more untimed to
    warm the caches, then time count iterations, sleeping between them; any
    oracledb.Error gives up with an empty list. */
module RootSqlBenchmark {
  import opened Outcomes
  import opened Trials
  import opened Database
  import Stats
  import SqlFileReader
  import SqlBenchmark

  /** parse_sql_file once the file is read: the same split, strip and drop rule as
      src/sql/sql_file_reader.py. */
  method ParseSqlFile(content: string) returns (statements: seq<string>)
    ensures statements == SqlFileReader.Statements(content)
  {
    statements := SqlFileReader.ReadAndParse(content);
  }

  predicate IsResultSet(a: Answer) {
    a.ResultSet?
  }

  /** One execute followed by a fetchmany loop for a positive batch size, or by
      fetchall; the rows are thrown away. A failed execute raises. */
  method RunStatement(cursor: Cursor, query: string, batchSize: int, answer: Answer) returns (ok: bool)
    modifies cursor
    ensures ok <==> answer.ResultSet?
    ensures cursor.State() == CursorState([], old(cursor.executed) + [query])
  {
    ok := cursor.Execute(query, answer);
    if !ok {
      return;
    }
    if batchSize > 0 {
      var _ := DrainInBatches(cursor, batchSize);
    } else {
      var _ := cursor.FetchAll();
    }
  }

  /** `for query in queries:` with RunStatement as its body, stopping at the first
      execute that raises. */
  method RunQueries(cursor: Cursor, queries: seq<string>, batchSize: int, answers: seq<Answer>) returns (ok: bool)
    requires |answers| == |queries|
    modifies cursor
    ensures var k := Leading(answers, IsResultSet);
      && (ok <==> k == |queries|)
      && cursor.executed == old(cursor.executed) + queries[..if ok then k else k + 1]
    ensures cursor.remaining == if queries == [] then old(cursor.remaining) else []
  {
    ok := true;
    for i := 0 to |queries|
      invariant forall j :: 0 <= j < i ==> answers[j].ResultSet?
      invariant cursor.executed == old(cursor.executed) + queries[..i]
      invariant cursor.remaining == if i == 0 then old(cursor.remaining) else []
    {
      assert queries[..i + 1] == queries[..i] + [queries[i]];
      ok := RunStatement(cursor, queries[i], batchSize, answers[i]);
      if !ok {
        LeadingIs(answers, IsResultSet, i);
        return;
      }
    }
    LeadingIs(answers, IsResultSet, |answers|);
    assert queries[..|queries|] == queries;
  }

  /** One timed block: the perf_counter readings around it and the database's
      answers to its executes. */
  datatype TimedRun = TimedRun(start: real, answers: seq<Answer>, end: real)

  predicate AllAnswered(run: TimedRun) {
    forall i :: 0 <= i < |run.answers| ==> run.answers[i].ResultSet?
  }

  function TimedMs(run: TimedRun): real {
    (run.end - run.start) * 1000.0
  }

  function Times(runs: seq<TimedRun>): (r: seq<real>)
    ensures |r| == |runs|
    ensures forall i :: 0 <= i < |runs| ==> r[i] == TimedMs(runs[i])
  {
    seq(|runs|, i requires 0 <= i < |runs| => TimedMs(runs[i]))
  }

  /** The outside world of one benchmark call: whether connect succeeds, the timed
      first warm-up, the answers to warm-ups 2 and 3, and one timed block per
      iteration. */
  datatype BenchmarkEnv = BenchmarkEnv(connects: bool, warmup1: TimedRun, warmup2: Answer, warmup3: Answer,
                                       runs: seq<TimedRun>)

  /** Every timed block answers each statement of the list once, and there is one
      block per iteration of range(1, count + 1). */
  predicate EnvFits(statements: nat, count: int, env: BenchmarkEnv) {
    && |env.warmup1.answers| == statements
    && |env.runs| == SqlBenchmark.Iterations(count)
    && forall i :: 0 <= i < |env.runs| ==> |env.runs[i].answers| == statements
  }

  /** What a benchmark call returns, and how many time.sleep(wait) it made. */
  datatype Benchmark = Benchmark(results: Result<seq<real>, Exception>, sleeps: nat)

  /** run_benchmark_with_list_of_sql_statements: [] on any database error; with an
      empty list, warm-up 2 reads the unbound loop variable; otherwise the first
      warm-up's time, then each iteration's time for the whole list, with a sleep
      between iterations but none after the last. */
  function ListBenchmark(queries: seq<string>, count: int, env: BenchmarkEnv): Benchmark
    requires EnvFits(|queries|, count, env)
  {
    if !env.connects || !AllAnswered(env.warmup1) then Benchmark(Success([]), 0)
    else if queries == [] then Benchmark(Failure(UnboundLocal), 0)
    else if !env.warmup2.ResultSet? || !env.warmup3.ResultSet? then Benchmark(Success([]), 0)
    else
      var k := Leading(env.runs, AllAnswered);
      if k < |env.runs| then Benchmark(Success([]), k)
      else Benchmark(Success([TimedMs(env.warmup1)] + Times(env.runs)), SqlBenchmark.Iterations(count - 1))
  }

  /** run_benchmark_with_same_sql_multiple_times: the same shape for a single query. */
  function SameBenchmark(query: string, count: int, env: BenchmarkEnv): Benchmark
    requires EnvFits(1, count, env)
  {
    if !env.connects || !env.warmup1.answers[0].ResultSet? then Benchmark(Success([]), 0)
    else if !env.warmup2.ResultSet? || !env.warmup3.ResultSet? then Benchmark(Success([]), 0)
    else
      var k := Leading(env.runs, AllAnswered);
      if k < |env.runs| then Benchmark(Success([]), k)
      else Benchmark(Success([TimedMs(env.warmup1)] + Times(env.runs)), SqlBenchmark.Iterations(count - 1))
  }

  /** The list runs to the end without a database error. */
  predicate Completes(queries: seq<string>, env: BenchmarkEnv) {
    && env.connects && AllAnswered(env.warmup1) && queries != []
    && env.warmup2.ResultSet? && env.warmup3.ResultSet?
    && forall i :: 0 <= i < |env.runs| ==> AllAnswered(env.runs[i])
  }

  /** n copies of xs, one after the other. */
  function Repeat(xs: seq<string>, n: nat): (r: seq<string>)
    ensures |r| == n * |xs|
  {
    if n == 0 then [] else Repeat(xs, n - 1) + xs
  }

  /** The statements a completed list run executes: the list, its last query twice
      more, then the list once per iteration. */
  function ListStatements(queries: seq<string>, count: int): seq<string>
    requires queries != []
  {
    var last := queries[|queries| - 1];
    queries + [last, last] + Repeat(queries, SqlBenchmark.Iterations(count))
  }

  /** Repeating n times and then m times is repeating n + m times. */
  lemma {:induction false} RepeatAdd(xs: seq<string>, n: nat, m: nat)
    ensures Repeat(xs, n) + Repeat(xs, m) == Repeat(xs, n + m)
  {
    if m > 0 {
      RepeatAdd(xs, n, m - 1);
    }
  }

  /** The timed loop of the list run: one block of RunQueries per iteration, a sleep
      after every block but the last, until a block meets a database error. */
  method TimeListIterations(cursor: Cursor, queries: seq<string>, count: int, batchSize: int, runs: seq<TimedRun>)
    returns (ok: bool, times: seq<real>, sleeps: nat)
    requires |runs| == SqlBenchmark.Iterations(count)
    requires forall i :: 0 <= i < |runs| ==> |runs[i].answers| == |queries|
    modifies cursor
    ensures var k := Leading(runs, AllAnswered);
      && (ok <==> k == |runs|)
      && (ok ==> times == Times(runs) && sleeps == SqlBenchmark.Iterations(count - 1))
      && (!ok ==> sleeps == k)
    ensures ok ==> cursor.executed == old(cursor.executed) + Repeat(queries, |runs|)
  {
    times := [];
    sleeps := 0;
    for j := 0 to |runs|
      invariant forall l :: 0 <= l < j ==> AllAnswered(runs[l])
      invariant times == Times(runs[..j])
      invariant sleeps == if 0 < j == count then j - 1 else j
      invariant cursor.executed == old(cursor.executed) + Repeat(queries, j)
    {
      assert Times(runs[..j + 1]) == Times(runs[..j]) + [TimedMs(runs[j])];
      var startTime := runs[j].start;
      var done := RunQueries(cursor, queries, batchSize, runs[j].answers);
      if !done {
        LeadingIs(runs, AllAnswered, j);
        return false, times, sleeps;
      }
      assert queries[..|queries|] == queries;
      var endTime := runs[j].end;
      times := times + [(endTime - startTime) * 1000.0];
      if j + 1 < count {
        sleeps := sleeps + 1;
      }
    }
    LeadingIs(runs, AllAnswered, |runs|);
    assert runs[..|runs|] == runs;
    ok := true;
  }

  method RunListOfSql(queries: seq<string>, count: int, batchSize: int, env: BenchmarkEnv)
    returns (results: Result<seq<real>, Exception>, sleeps: nat, ghost executed: seq<string>)
    requires EnvFits(|queries|, count, env)
    ensures Benchmark(results, sleeps) == ListBenchmark(queries, count, env)
    ensures Completes(queries, env) ==> executed == ListStatements(queries, count)
  {
    executed := [];
    if !env.connects {
      return Success([]), 0, executed;
    }
    var cursor := new Cursor();
    var startInitial := env.warmup1.start;
    var ok := RunQueries(cursor, queries, batchSize, env.warmup1.answers);
    if !ok {
      return Success([]), 0, cursor.executed;
    }
    assert AllAnswered(env.warmup1);
    var endInitial := env.warmup1.end;
    var initial := (endInitial - startInitial) * 1000.0;
    if queries == [] {
      return Failure(UnboundLocal), 0, cursor.executed;
    }
    var query := queries[|queries| - 1];
    ok := RunStatement(cursor, query, batchSize, env.warmup2);
    if !ok {
      return Success([]), 0, cursor.executed;
    }
    ok := RunStatement(cursor, query, batchSize, env.warmup3);
    if !ok {
      return Success([]), 0, cursor.executed;
    }
    assert queries[..|queries|] == queries;
    var times;
    ok, times, sleeps := TimeListIterations(cursor, queries, count, batchSize, env.runs);
    if !ok {
      return Success([]), sleeps, cursor.executed;
    }
    return Success([initial] + times), sleeps, cursor.executed;
  }

  /** The timed loop of the same-query run: one execute of the query per iteration. */
  method TimeSameIterations(cursor: Cursor, query: string, count: int, batchSize: int, runs: seq<TimedRun>)
    returns (ok: bool, times: seq<real>, sleeps: nat)
    requires |runs| == SqlBenchmark.Iterations(count)
    requires forall i :: 0 <= i < |runs| ==> |runs[i].answers| == 1
    modifies cursor
    ensures var k := Leading(runs, AllAnswered);
      && (ok <==> k == |runs|)
      && (ok ==> times == Times(runs) && sleeps == SqlBenchmark.Iterations(count - 1))
      && (!ok ==> sleeps == k)
    ensures ok ==> cursor.executed == old(cursor.executed) + Repeat([query], |runs|)
  {
    times := [];
    sleeps := 0;
    for j := 0 to |runs|
      invariant forall l :: 0 <= l < j ==> AllAnswered(runs[l])
      invariant times == Times(runs[..j])
      invariant sleeps == if 0 < j == count then j - 1 else j
      invariant cursor.executed == old(cursor.executed) + Repeat([query], j)
    {
      assert Times(runs[..j + 1]) == Times(runs[..j]) + [TimedMs(runs[j])];
      var startTime := runs[j].start;
      var done := RunStatement(cursor, query, batchSize, runs[j].answers[0]);
      if !done {
        LeadingIs(runs, AllAnswered, j);
        return false, times, sleeps;
      }
      var endTime := runs[j].end;
      times := times + [(endTime - startTime) * 1000.0];
      if j + 1 < count {
        sleeps := sleeps + 1;
      }
    }
    LeadingIs(runs, AllAnswered, |runs|);
    assert runs[..|runs|] == runs;
    ok := true;
  }

  method RunSameSql(query: string, count: int, batchSize: int, env: BenchmarkEnv)
    returns (results: Result<seq<real>, Exception>, sleeps: nat, ghost executed: seq<string>)
    requires EnvFits(1, count, env)
    ensures Benchmark(results, sleeps) == SameBenchmark(query, count, env)
    ensures Completes([query], env) ==> executed == Repeat([query], SqlBenchmark.Iterations(count) + 3)
  {
    executed := [];
    if !env.connects {
      return Success([]), 0, executed;
    }
    var cursor := new Cursor();
    var startInitial := env.warmup1.start;
    var ok := RunStatement(cursor, query, batchSize, env.warmup1.answers[0]);
    if !ok {
      return Success([]), 0, cursor.executed;
    }
    var endInitial := env.warmup1.end;
    var initial := (endInitial - startInitial) * 1000.0;
    ok := RunStatement(cursor, query, batchSize, env.warmup2);
    if !ok {
      return Success([]), 0, cursor.executed;
    }
    ok := RunStatement(cursor, query, batchSize, env.warmup3);
    if !ok {
      return Success([]), 0, cursor.executed;
    }
    assert Repeat([query], 2) == [query, query];
    assert cursor.executed == Repeat([query], 3);
    var times;
    ok, times, sleeps := TimeSameIterations(cursor, query, count, batchSize, env.runs);
    if !ok {
      return Success([]), sleeps, cursor.executed;
    }
    RepeatAdd([query], 3, |env.runs|);
    return Success([initial] + times), sleeps, cursor.executed;
  }

  /** Timing the same query count times is timing the one-element list [query]. */
  lemma SameIsListOfOne(query: string, count: int, env: BenchmarkEnv)
    requires EnvFits(1, count, env)
    ensures SameBenchmark(query, count, env) == ListBenchmark([query], count, env)
  {
    assert AllAnswered(env.warmup1) <==> env.warmup1.answers[0].ResultSet?;
  }

  /** A list run returns [] exactly when a database error interrupts it, and
      otherwise one time more than there are iterations (only warm-up 1 when
      count <= 0): warm-up 1 first, then each iteration's in order;
      warm-ups 2 and 3 are not recorded. */
  lemma ListResults(queries: seq<string>, count: int, env: BenchmarkEnv)
    requires EnvFits(|queries|, count, env)
    requires queries != []
    ensures var r := ListBenchmark(queries, count, env).results;
      && r.Success?
      && (r.value == [] <==> !Completes(queries, env))
      && (r.value != [] ==>
            && |r.value| == SqlBenchmark.Iterations(count) + 1
            && r.value[0] == TimedMs(env.warmup1)
            && forall i :: 0 <= i < |env.runs| ==> r.value[i + 1] == TimedMs(env.runs[i]))
  {
    if Completes(queries, env) {
      LeadingIs(env.runs, AllAnswered, |env.runs|);
    }
  }

  /** Sleeps fall only between iterations: max(count - 1, 0) of them after a complete run,
      and never more. */
  lemma SleepsBetweenIterations(queries: seq<string>, count: int, env: BenchmarkEnv)
    requires EnvFits(|queries|, count, env)
    ensures ListBenchmark(queries, count, env).sleeps <= SqlBenchmark.Iterations(count - 1)
    ensures Completes(queries, env) ==> ListBenchmark(queries, count, env).sleeps == SqlBenchmark.Iterations(count - 1)
  {
    if Completes(queries, env) {
      LeadingIs(env.runs, AllAnswered, |env.runs|);
    }
  }

  /** An empty list gets past the connect and the (empty) first warm-up, and then
      fails on the unbound loop variable, which is not an oracledb.Error. */
  lemma EmptyListUnbound(count: int, env: BenchmarkEnv)
    requires EnvFits(0, count, env)
    requires env.connects
    ensures ListBenchmark([], count, env) == Benchmark(Failure(UnboundLocal), 0)
  {
  }

  /** The summary print_results prints. */
  datatype Summary = Summary(min: real, max: real, mean: real, median: real)

  /** print_results: nothing for an empty list ("No results gathered."), otherwise
      min, max, mean and median. */
  function PrintResults(results: seq<real>): (r: Option<Summary>)
    ensures r.None? <==> results == []
    ensures r.Some? ==>
      && r.value.min in results && r.value.max in results
      && (forall x :: x in results ==> r.value.min <= x <= r.value.max)
      && r.value.min <= r.value.median <= r.value.max
      && r.value.min <= r.value.mean <= r.value.max
      && r.value.mean == Stats.Mean(results)
      && r.value.median == Stats.Median(results)
  {
    if results == [] then None
    else
      Stats.MeanBetweenMinAndMax(results);
      Stats.MedianBetweenMinAndMax(results);
      Some(Summary(Stats.Min(results), Stats.Max(results), Stats.Mean(results), Stats.Median(results)))
  }

  /** What main prints for the results: nothing for [], else the warm-up time and
      the summary of the rest. */
  datatype Report = Report(warmup: real, summary: Option<Summary>)

  function MainReport(results: seq<real>): Option<Report> {
    if results == [] then None else Some(Report(results[0], PrintResults(results[1..])))
  }

  /** The report of a completed list run: the first warm-up's time is reported
      apart, and the summary covers exactly the measured iterations, none at all for
      a count of 0 or less. */
  lemma CompletedReport(queries: seq<string>, count: int, env: BenchmarkEnv)
    requires EnvFits(|queries|, count, env)
    requires Completes(queries, env)
    ensures ListBenchmark(queries, count, env).results.Success?
    ensures var report := MainReport(ListBenchmark(queries, count, env).results.value);
      && report.Some?
      && report.value.warmup == TimedMs(env.warmup1)
      && (report.value.summary.None? <==> count <= 0)
      && (report.value.summary.Some? ==>
            forall i :: 0 <= i < |env.runs| ==>
              report.value.summary.value.min <= TimedMs(env.runs[i]) <= report.value.summary.value.max)
  {
    LeadingIs(env.runs, AllAnswered, |env.runs|);
    var times := [TimedMs(env.warmup1)] + Times(env.runs);
    assert times[1..] == Times(env.runs);
    forall i | 0 <= i < |env.runs| ensures TimedMs(env.runs[i]) in times[1..] {
      assert times[1..][i] == TimedMs(env.runs[i]);
    }
  }
}
