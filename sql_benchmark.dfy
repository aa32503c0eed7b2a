/** src/oracle_sql_benchmark.py: time a list of SQL statements count times, after
    warmup_cache unrecorded warm-up runs, either on one cursor of one connection
    kept for every run or on a new connection and cursor per run. */
module SqlBenchmark {
  import opened Outcomes
  import opened Trials
  import opened Database
  import opened Measuring
  import Stats
  import Text
  import SqlFileReader

  /** How many times range(n) and range(1, n + 1) iterate. */
  function Iterations(n: int): (k: nat)
    ensures n > 0 ==> k == n
    ensures n <= 0 ==> k == 0
  {
    if n > 0 then n else 0
  }

  /** The query list of main: the statements of the file when one is given, else
      exactly the query of the command line. A blank file gives no query at all. */
  function QueryList(fileContent: Option<string>, query: string): (r: seq<string>)
    ensures fileContent.None? ==> r == [query]
    ensures fileContent.Some? ==> forall x :: x in r ==> x != [] && ';' !in x
    ensures fileContent.Some? && Text.AllSpace(fileContent.value) ==> r == []
    ensures fileContent.Some? ==> r == SqlFileReader.Statements(fileContent.value)
  {
    match fileContent
    case None => [query]
    case Some(content) =>
      SqlFileReader.StatementsWellFormed(content);
      SqlFileReader.BlankAndSingle(content);
      SqlFileReader.Statements(content)
  }

  /** Every run supplies one execution per query. */
  predicate Fits(queries: seq<string>, runs: seq<seq<Execution>>) {
    forall i :: 0 <= i < |runs| ==> |runs[i]| == |queries|
  }

  /** The result of measure_query_execution_time for one run of the list, stated
      without its loop: the unbound local when there is no query, DatabaseError
      when some execute fails, and otherwise the last query's row count and time.
      It depends neither on the cursor nor on the hard parse rewrite. */
  function RunResult(queries: seq<string>, batchSize: int, hardParse: bool, run: seq<Execution>): Result<Measurement, Exception>
    requires |run| == |queries|
  {
    if queries == [] then Failure(UnboundLocal)
    else if exists i :: 0 <= i < |run| && !Answered(run[i]) then Failure(DatabaseError)
    else
      var last := run[|run| - 1];
      Success(Measurement(RowCount(last.answer.rows, batchSize), Elapsed(last)))
  }

  /** measure_query_execution_time gives RunResult whatever statements the cursor
      has seen before. */
  lemma RunIgnoresState(s: CursorState, queries: seq<string>, batchSize: int, hardParse: bool, run: seq<Execution>)
    requires |run| == |queries|
    ensures QueryTimes(s, queries, batchSize, hardParse, run).result == RunResult(queries, batchSize, hardParse, run)
  {
    QueryTimesResult(s, queries, batchSize, hardParse, run);
  }

  function RunResults(queries: seq<string>, batchSize: int, hardParse: bool, runs: seq<seq<Execution>>)
    : (r: seq<Result<Measurement, Exception>>)
    requires Fits(queries, runs)
    ensures |r| == |runs|
    ensures forall i :: 0 <= i < |runs| ==> r[i] == RunResult(queries, batchSize, hardParse, runs[i])
  {
    seq(|runs|, i requires 0 <= i < |runs| => RunResult(queries, batchSize, hardParse, runs[i]))
  }

  predicate Succeeded(r: Result<Measurement, Exception>) {
    r.Success?
  }

  /** How a measured attempt is booked: its time when measured, a failure when the
      exception was caught. */
  function AttemptOutcome(r: Result<Measurement, Exception>): Outcome {
    if r.Success? then Measured(r.value.ms) else Failed
  }

  function AttemptOutcomes(rs: seq<Result<Measurement, Exception>>): (outs: seq<Outcome>)
    ensures |outs| == |rs|
    ensures forall i :: 0 <= i < |rs| ==> outs[i] == AttemptOutcome(rs[i])
  {
    seq(|rs|, i requires 0 <= i < |rs| => AttemptOutcome(rs[i]))
  }

  /** The state of a reused cursor after the first n of the runs, one after the
      other. */
  function AfterRuns(s: CursorState, queries: seq<string>, batchSize: int, hardParse: bool,
                     runs: seq<seq<Execution>>, n: nat): CursorState
    requires Fits(queries, runs) && n <= |runs|
  {
    if n == 0 then s
    else QueryTimes(AfterRuns(s, queries, batchSize, hardParse, runs, n - 1), queries, batchSize, hardParse, runs[n - 1]).after
  }

  /** What a benchmark call returns, and how many time.sleep(wait) it made. */
  datatype Run = Run(stats: Result<Stats.MeasurementsStats, Exception>, sleeps: nat)

  /** The measured loop of execute_sql_stmts_w_reused_cursor: every exception is
      caught and booked as a failure. */
  function ReusedAttempts(queries: seq<string>, batchSize: int, hardParse: bool, attempts: seq<seq<Execution>>): Run
    requires Fits(queries, attempts)
  {
    var outs := AttemptOutcomes(RunResults(queries, batchSize, hardParse, attempts));
    Run(Stats.Compute(Successes(outs), Failures(outs)), |attempts|)
  }

  /** execute_sql_stmts_w_reused_cursor: a warm-up that raises ends the call with
      that exception after the earlier warm-ups' sleeps; otherwise the measured loop. */
  function ReusedRun(queries: seq<string>, batchSize: int, hardParse: bool,
                     warmups: seq<seq<Execution>>, attempts: seq<seq<Execution>>): Run
    requires Fits(queries, warmups) && Fits(queries, attempts)
  {
    var w := RunResults(queries, batchSize, hardParse, warmups);
    var k := Leading(w, Succeeded);
    if k < |w| then Run(Failure(w[k].error), k)
    else
      var measured := ReusedAttempts(queries, batchSize, hardParse, attempts);
      Run(measured.stats, |warmups| + measured.sleeps)
  }

  /** The state the reused cursor is left in: it has run the warm-ups up to the
      first that fails, or all warm-ups and then all attempts. */
  function ReusedAfter(s: CursorState, queries: seq<string>, batchSize: int, hardParse: bool,
                       warmups: seq<seq<Execution>>, attempts: seq<seq<Execution>>): CursorState
    requires Fits(queries, warmups) && Fits(queries, attempts)
  {
    var k := Leading(RunResults(queries, batchSize, hardParse, warmups), Succeeded);
    if k < |warmups| then AfterRuns(s, queries, batchSize, hardParse, warmups, k + 1)
    else AfterRuns(AfterRuns(s, queries, batchSize, hardParse, warmups, |warmups|), queries, batchSize, hardParse,
                   attempts, |attempts|)
  }

  /** Run i of a sequence of runs on the reused cursor, after the runs before it. */
  method RunOnCursor(cursor: Cursor, queries: seq<string>, batchSize: int, hardParse: bool,
                     ghost s0: CursorState, runs: seq<seq<Execution>>, i: nat)
    returns (r: Result<Measurement, Exception>)
    requires Fits(queries, runs) && i < |runs|
    requires cursor.State() == AfterRuns(s0, queries, batchSize, hardParse, runs, i)
    modifies cursor
    ensures r == RunResult(queries, batchSize, hardParse, runs[i])
    ensures cursor.State() == AfterRuns(s0, queries, batchSize, hardParse, runs, i + 1)
  {
    RunIgnoresState(cursor.State(), queries, batchSize, hardParse, runs[i]);
    r := MeasureQueryExecutionTime(cursor, queries, batchSize, hardParse, runs[i]);
  }

  /** The warm-up loop of execute_sql_stmts_w_reused_cursor: the runs in order on
      the one cursor, a sleep after each, until one raises. */
  method WarmUpReusedCursor(cursor: Cursor, queries: seq<string>, batchSize: int, hardParse: bool,
                            warmups: seq<seq<Execution>>)
    returns (escaped: Option<Exception>, sleeps: nat)
    requires Fits(queries, warmups)
    modifies cursor
    ensures var w := RunResults(queries, batchSize, hardParse, warmups);
      var k := Leading(w, Succeeded);
      && sleeps == k
      && (escaped.Some? <==> k < |w|)
      && (k < |w| ==> escaped.value == w[k].error)
    ensures cursor.State()
         == AfterRuns(old(cursor.State()), queries, batchSize, hardParse, warmups,
                      if escaped.Some? then sleeps + 1 else sleeps)
  {
    ghost var s0 := cursor.State();
    ghost var w := RunResults(queries, batchSize, hardParse, warmups);
    sleeps := 0;
    for i := 0 to |warmups|
      invariant i <= Leading(w, Succeeded)
      invariant cursor.State() == AfterRuns(s0, queries, batchSize, hardParse, warmups, i)
      invariant sleeps == i
    {
      var r := RunOnCursor(cursor, queries, batchSize, hardParse, s0, warmups, i);
      if r.Failure? {
        return Some(r.error), sleeps;
      }
      sleeps := sleeps + 1;
    }
    escaped := None;
  }

  method ExecuteWithReusedCursor(cursor: Cursor, queries: seq<string>, count: int, batchSize: int, hardParse: bool,
                                 warmupCache: int, warmups: seq<seq<Execution>>, attempts: seq<seq<Execution>>)
    returns (stats: Result<Stats.MeasurementsStats, Exception>, sleeps: nat)
    requires |warmups| == Iterations(warmupCache) && |attempts| == Iterations(count)
    requires Fits(queries, warmups) && Fits(queries, attempts)
    modifies cursor
    ensures Run(stats, sleeps) == ReusedRun(queries, batchSize, hardParse, warmups, attempts)
    ensures cursor.State() == ReusedAfter(old(cursor.State()), queries, batchSize, hardParse, warmups, attempts)
  {
    var escaped;
    escaped, sleeps := WarmUpReusedCursor(cursor, queries, batchSize, hardParse, warmups);
    if escaped.Some? {
      return Failure(escaped.value), sleeps;
    }
    var measuredSleeps;
    stats, measuredSleeps := MeasureOnReusedCursor(cursor, queries, batchSize, hardParse, attempts);
    sleeps := sleeps + measuredSleeps;
  }

  /** The loop of the measured runs on the reused cursor: every exception is caught
      and booked as a failure, and every run is followed by a sleep. */
  method ReusedCursorLoop(cursor: Cursor, queries: seq<string>, batchSize: int, hardParse: bool,
                          attempts: seq<seq<Execution>>)
    returns (measurements: seq<real>, failedAttempts: nat, sleeps: nat)
    requires Fits(queries, attempts)
    modifies cursor
    ensures var outs := AttemptOutcomes(RunResults(queries, batchSize, hardParse, attempts));
      measurements == Successes(outs) && failedAttempts == Failures(outs)
    ensures sleeps == |attempts|
    ensures cursor.State() == AfterRuns(old(cursor.State()), queries, batchSize, hardParse, attempts, |attempts|)
  {
    ghost var s0 := cursor.State();
    ghost var outs := AttemptOutcomes(RunResults(queries, batchSize, hardParse, attempts));
    measurements := [];
    failedAttempts := 0;
    sleeps := 0;
    for i := 0 to |attempts|
      invariant measurements == Successes(outs[..i])
      invariant failedAttempts == Failures(outs[..i])
      invariant sleeps == i
      invariant cursor.State() == AfterRuns(s0, queries, batchSize, hardParse, attempts, i)
    {
      TallySnoc(outs, i);
      var r := RunOnCursor(cursor, queries, batchSize, hardParse, s0, attempts, i);
      if r.Success? {
        measurements := measurements + [r.value.ms];
      } else {
        failedAttempts := failedAttempts + 1;
      }
      sleeps := sleeps + 1;
    }
    assert outs[..|attempts|] == outs;
  }

  /** The measured part of the reused mode: the loop, one sleep per run, then
      MeasurementsStats of what it gathered. */
  method MeasureOnReusedCursor(cursor: Cursor, queries: seq<string>, batchSize: int, hardParse: bool,
                               attempts: seq<seq<Execution>>)
    returns (stats: Result<Stats.MeasurementsStats, Exception>, sleeps: nat)
    requires Fits(queries, attempts)
    modifies cursor
    ensures Run(stats, sleeps) == ReusedAttempts(queries, batchSize, hardParse, attempts)
    ensures cursor.State() == AfterRuns(old(cursor.State()), queries, batchSize, hardParse, attempts, |attempts|)
  {
    var measurements, failedAttempts;
    measurements, failedAttempts, sleeps := ReusedCursorLoop(cursor, queries, batchSize, hardParse, attempts);
    stats := Stats.Compute(measurements, failedAttempts);
  }

  /** One connection of the non-reused mode: whether oracledb.connect succeeds, and
      the executions of the run on its cursor. */
  datatype Session = Session(connects: bool, executions: seq<Execution>)

  predicate SessionsFit(queries: seq<string>, sessions: seq<Session>) {
    forall i :: 0 <= i < |sessions| ==> |sessions[i].executions| == |queries|
  }

  /** A run on its own connection: a failed connect raises DatabaseError. */
  function SessionResult(queries: seq<string>, batchSize: int, hardParse: bool, session: Session)
    : Result<Measurement, Exception>
    requires |session.executions| == |queries|
  {
    if session.connects then RunResult(queries, batchSize, hardParse, session.executions)
    else Failure(DatabaseError)
  }

  function SessionResults(queries: seq<string>, batchSize: int, hardParse: bool, sessions: seq<Session>)
    : (r: seq<Result<Measurement, Exception>>)
    requires SessionsFit(queries, sessions)
    ensures |r| == |sessions|
    ensures forall i :: 0 <= i < |sessions| ==> r[i] == SessionResult(queries, batchSize, hardParse, sessions[i])
  {
    seq(|sessions|, i requires 0 <= i < |sessions| => SessionResult(queries, batchSize, hardParse, sessions[i]))
  }

  /** The results the non-reused measured loop handles: only DatabaseError is caught. */
  predicate Caught(r: Result<Measurement, Exception>) {
    r.Success? || r.error == DatabaseError
  }

  /** The measured loop of execute_sql_stmts_wo_reused_cursor: a DatabaseError is
      booked as a failure, any other exception escapes. */
  function FreshAttempts(queries: seq<string>, batchSize: int, hardParse: bool, attempts: seq<Session>): Run
    requires SessionsFit(queries, attempts)
  {
    var a := SessionResults(queries, batchSize, hardParse, attempts);
    var j := Leading(a, Caught);
    if j < |a| then Run(Failure(a[j].error), j)
    else
      var outs := AttemptOutcomes(a);
      Run(Stats.Compute(Successes(outs), Failures(outs)), |attempts|)
  }

  /** execute_sql_stmts_wo_reused_cursor: a warm-up DatabaseError ends the call with
      MeasurementsStats([]), any other warm-up exception escapes; then the measured
      loop. */
  function FreshRun(queries: seq<string>, batchSize: int, hardParse: bool,
                    warmups: seq<Session>, attempts: seq<Session>): Run
    requires SessionsFit(queries, warmups) && SessionsFit(queries, attempts)
  {
    var w := SessionResults(queries, batchSize, hardParse, warmups);
    var k := Leading(w, Succeeded);
    if k < |w| then
      Run(if w[k].error == DatabaseError then Stats.Compute([]) else Failure(w[k].error), k)
    else
      var measured := FreshAttempts(queries, batchSize, hardParse, attempts);
      Run(measured.stats, |warmups| + measured.sleeps)
  }

  /** One iteration of either loop of the non-reused mode: connect, open a new
      cursor, measure. */
  method MeasureOnNewConnection(queries: seq<string>, batchSize: int, hardParse: bool, session: Session)
    returns (r: Result<Measurement, Exception>)
    requires |session.executions| == |queries|
    ensures r == SessionResult(queries, batchSize, hardParse, session)
  {
    if !session.connects {
      return Failure(DatabaseError);
    }
    var cursor := new Cursor();
    RunIgnoresState(Fresh, queries, batchSize, hardParse, session.executions);
    r := MeasureQueryExecutionTime(cursor, queries, batchSize, hardParse, session.executions);
  }

  method ExecuteWithoutReusedCursor(queries: seq<string>, count: int, batchSize: int, hardParse: bool,
                                    warmupCache: int, warmups: seq<Session>, attempts: seq<Session>)
    returns (stats: Result<Stats.MeasurementsStats, Exception>, sleeps: nat)
    requires |warmups| == Iterations(warmupCache) && |attempts| == Iterations(count)
    requires SessionsFit(queries, warmups) && SessionsFit(queries, attempts)
    ensures Run(stats, sleeps) == FreshRun(queries, batchSize, hardParse, warmups, attempts)
  {
    ghost var w := SessionResults(queries, batchSize, hardParse, warmups);
    sleeps := 0;
    for i := 0 to |warmups|
      invariant forall j :: 0 <= j < i ==> w[j].Success?
      invariant sleeps == i
    {
      var r := MeasureOnNewConnection(queries, batchSize, hardParse, warmups[i]);
      if r.Failure? {
        LeadingIs(w, Succeeded, i);
        if r.error == DatabaseError {
          return Stats.Compute([]), sleeps;
        }
        return Failure(r.error), sleeps;
      }
      sleeps := sleeps + 1;
    }
    LeadingIs(w, Succeeded, |w|);
    var measuredSleeps;
    stats, measuredSleeps := MeasureOnNewConnections(queries, batchSize, hardParse, attempts);
    sleeps := sleeps + measuredSleeps;
  }

  /** The measured loop of the non-reused mode. */
  method MeasureOnNewConnections(queries: seq<string>, batchSize: int, hardParse: bool, attempts: seq<Session>)
    returns (stats: Result<Stats.MeasurementsStats, Exception>, sleeps: nat)
    requires SessionsFit(queries, attempts)
    ensures Run(stats, sleeps) == FreshAttempts(queries, batchSize, hardParse, attempts)
  {
    ghost var a := SessionResults(queries, batchSize, hardParse, attempts);
    ghost var outs := AttemptOutcomes(a);
    var measurements: seq<real> := [];
    var failedAttempts := 0;
    sleeps := 0;
    for i := 0 to |attempts|
      invariant forall j :: 0 <= j < i ==> Caught(a[j])
      invariant measurements == Successes(outs[..i])
      invariant failedAttempts == Failures(outs[..i])
      invariant sleeps == i
    {
      TallySnoc(outs, i);
      var r := MeasureOnNewConnection(queries, batchSize, hardParse, attempts[i]);
      if r.Success? {
        measurements := measurements + [r.value.ms];
      } else if r.error == DatabaseError {
        failedAttempts := failedAttempts + 1;
      } else {
        LeadingIs(a, Caught, i);
        return Failure(r.error), sleeps;
      }
      sleeps := sleeps + 1;
    }
    LeadingIs(a, Caught, |a|);
    assert outs[..|attempts|] == outs;
    stats := Stats.Compute(measurements, failedAttempts);
  }

  /** The environment of one benchmark call, by mode: for a reused connection,
      whether connect succeeds and the executions of every run on its cursor; for
      the other mode, one session per run. */
  datatype Plan =
    | Reused(connects: bool, warmups: seq<seq<Execution>>, attempts: seq<seq<Execution>>)
    | NotReused(warmupSessions: seq<Session>, attemptSessions: seq<Session>)

  /** The plan matches the mode and the loop counts. */
  predicate PlanFits(queries: seq<string>, count: int, reuseConnection: bool, warmupCache: int, plan: Plan) {
    match plan
    case Reused(_, warmups, attempts) =>
      && reuseConnection
      && |warmups| == Iterations(warmupCache) && |attempts| == Iterations(count)
      && Fits(queries, warmups) && Fits(queries, attempts)
    case NotReused(warmups, attempts) =>
      && !reuseConnection
      && |warmups| == Iterations(warmupCache) && |attempts| == Iterations(count)
      && SessionsFit(queries, warmups) && SessionsFit(queries, attempts)
  }

  /** execute_sql_stmts: in the reused mode a failed connect, or a DatabaseError
      escaping the warm-ups, gives MeasurementsStats([]). */
  function Execute(queries: seq<string>, count: int, batchSize: int, hardParse: bool, reuseConnection: bool,
                   warmupCache: int, plan: Plan): Run
    requires PlanFits(queries, count, reuseConnection, warmupCache, plan)
  {
    match plan
    case Reused(connects, warmups, attempts) =>
      if !connects then Run(Stats.Compute([]), 0)
      else
        var run := ReusedRun(queries, batchSize, hardParse, warmups, attempts);
        if run.stats == Failure(DatabaseError) then Run(Stats.Compute([]), run.sleeps) else run
    case NotReused(warmups, attempts) =>
      FreshRun(queries, batchSize, hardParse, warmups, attempts)
  }

  method ExecuteSqlStmts(queries: seq<string>, count: int, batchSize: int, hardParse: bool, reuseConnection: bool,
                         warmupCache: int, plan: Plan)
    returns (stats: Result<Stats.MeasurementsStats, Exception>, sleeps: nat)
    requires PlanFits(queries, count, reuseConnection, warmupCache, plan)
    ensures Run(stats, sleeps) == Execute(queries, count, batchSize, hardParse, reuseConnection, warmupCache, plan)
  {
    if reuseConnection {
      if !plan.connects {
        return Stats.Compute([]), 0;
      }
      var cursor := new Cursor();
      stats, sleeps := ExecuteWithReusedCursor(cursor, queries, count, batchSize, hardParse, warmupCache,
                                               plan.warmups, plan.attempts);
      if stats == Failure(DatabaseError) {
        stats := Stats.Compute([]);
      }
    } else {
      stats, sleeps := ExecuteWithoutReusedCursor(queries, count, batchSize, hardParse, warmupCache,
                                                  plan.warmupSessions, plan.attemptSessions);
    }
  }

  /** A call that yields statistics booked every measured attempt, as a time or as
      a failure, after sleeping once per warm-up and once per attempt; warm-ups
      never reach the measurements. */
  lemma AttemptAccounting(queries: seq<string>, count: int, batchSize: int, hardParse: bool, reuseConnection: bool,
                          warmupCache: int, plan: Plan)
    requires PlanFits(queries, count, reuseConnection, warmupCache, plan)
    ensures var run := Execute(queries, count, batchSize, hardParse, reuseConnection, warmupCache, plan);
      run.stats.Success? ==>
        && |run.stats.value.latencies| + run.stats.value.failedAttempts == Iterations(count)
        && run.stats.value.attempts == Iterations(count)
        && run.sleeps == Iterations(warmupCache) + Iterations(count)
  {
    match plan
    case Reused(connects, warmups, attempts) =>
      Accounting(AttemptOutcomes(RunResults(queries, batchSize, hardParse, attempts)));
    case NotReused(warmups, attempts) =>
      Accounting(AttemptOutcomes(SessionResults(queries, batchSize, hardParse, attempts)));
  }

  /** A failed run of a list fails with DatabaseError, unless the list is empty. */
  lemma RunFailure(queries: seq<string>, batchSize: int, hardParse: bool, run: seq<Execution>)
    requires |run| == |queries|
    requires RunResult(queries, batchSize, hardParse, run).Failure?
    ensures RunResult(queries, batchSize, hardParse, run).error == if queries == [] then UnboundLocal else DatabaseError
  {
  }

  /** What can go wrong: every DatabaseError ends as the ValueError of
      MeasurementsStats([]), or is booked as a failed attempt; only an empty query
      list lets the unbound local escape. */
  lemma ExecuteFailures(queries: seq<string>, count: int, batchSize: int, hardParse: bool, reuseConnection: bool,
                        warmupCache: int, plan: Plan)
    requires PlanFits(queries, count, reuseConnection, warmupCache, plan)
    ensures var run := Execute(queries, count, batchSize, hardParse, reuseConnection, warmupCache, plan);
      run.stats.Failure? ==> run.stats.error == EmptyData || (run.stats.error == UnboundLocal && queries == [])
  {
    match plan
    case Reused(connects, warmups, attempts) =>
      var w := RunResults(queries, batchSize, hardParse, warmups);
      var k := Leading(w, Succeeded);
      if connects && k < |w| {
        RunFailure(queries, batchSize, hardParse, warmups[k]);
      }
    case NotReused(warmups, attempts) =>
      var w := SessionResults(queries, batchSize, hardParse, warmups);
      var k := Leading(w, Succeeded);
      if k < |w| {
        if warmups[k].connects {
          RunFailure(queries, batchSize, hardParse, warmups[k].executions);
        }
      } else {
        var a := SessionResults(queries, batchSize, hardParse, attempts);
        var j := Leading(a, Caught);
        if j < |a| {
          RunFailure(queries, batchSize, hardParse, attempts[j].executions);
        }
      }
  }

  /** With no query to run, no call yields statistics. */
  lemma EmptyQueriesNeverMeasure(count: int, batchSize: int, hardParse: bool, reuseConnection: bool,
                                 warmupCache: int, plan: Plan)
    requires PlanFits([], count, reuseConnection, warmupCache, plan)
    ensures Execute([], count, batchSize, hardParse, reuseConnection, warmupCache, plan).stats.Failure?
  {
    match plan
    case Reused(connects, warmups, attempts) =>
      var outs := AttemptOutcomes(RunResults([], batchSize, hardParse, attempts));
      forall i | 0 <= i < |outs| ensures !outs[i].Measured? {
      }
      NoSuccesses(outs);
    case NotReused(warmups, attempts) =>
      var outs := AttemptOutcomes(SessionResults([], batchSize, hardParse, attempts));
      forall i | 0 <= i < |outs| ensures !outs[i].Measured? {
        if attempts[i].connects {
        }
      }
      NoSuccesses(outs);
  }

  /** The two modes catch different exceptions: with an empty list and no warm-up,
      the reused cursor books every attempt as failed and ends in the ValueError of
      MeasurementsStats([], count), while the first new connection lets the unbound
      local escape before any sleep. */
  lemma ModesCatchDifferently(count: int, batchSize: int, hardParse: bool, runs: seq<seq<Execution>>)
    requires count > 0 && |runs| == count
    requires forall i :: 0 <= i < |runs| ==> runs[i] == []
    ensures Execute([], count, batchSize, hardParse, true, 0, Reused(true, [], runs))
         == Run(Failure(EmptyData), count)
    ensures Execute([], count, batchSize, hardParse, false, 0, NotReused([], seq(count, i => Session(true, []))))
         == Run(Failure(UnboundLocal), 0)
  {
    var outs := AttemptOutcomes(RunResults([], batchSize, hardParse, runs));
    forall i | 0 <= i < |outs| ensures !outs[i].Measured? {
    }
    NoSuccesses(outs);
    var sessions := seq(count, i => Session(true, []));
    var a := SessionResults([], batchSize, hardParse, sessions);
    LeadingIs(a, Caught, 0);
    LeadingIs(RunResults([], batchSize, hardParse, []), Succeeded, 0);
    LeadingIs(SessionResults([], batchSize, hardParse, []), Succeeded, 0);
  }

  /** A warm-up that meets a DatabaseError, in either mode, aborts the whole call
      with the ValueError of MeasurementsStats([]), after one sleep per earlier
      warm-up and before any measured attempt. */
  lemma WarmupErrorAborts(queries: seq<string>, count: int, batchSize: int, hardParse: bool, reuseConnection: bool,
                          warmupCache: int, plan: Plan)
    requires PlanFits(queries, count, reuseConnection, warmupCache, plan)
    requires queries != []
    ensures plan.Reused? && plan.connects ==>
      var k := Leading(RunResults(queries, batchSize, hardParse, plan.warmups), Succeeded);
      k < |plan.warmups| ==>
        Execute(queries, count, batchSize, hardParse, reuseConnection, warmupCache, plan) == Run(Failure(EmptyData), k)
    ensures plan.NotReused? ==>
      var k := Leading(SessionResults(queries, batchSize, hardParse, plan.warmupSessions), Succeeded);
      k < |plan.warmupSessions| ==>
        Execute(queries, count, batchSize, hardParse, reuseConnection, warmupCache, plan) == Run(Failure(EmptyData), k)
  {
    match plan
    case Reused(connects, warmups, attempts) =>
      var k := Leading(RunResults(queries, batchSize, hardParse, warmups), Succeeded);
      if k < |warmups| {
        RunFailure(queries, batchSize, hardParse, warmups[k]);
      }
    case NotReused(warmups, attempts) =>
      var k := Leading(SessionResults(queries, batchSize, hardParse, warmups), Succeeded);
      if k < |warmups| && warmups[k].connects {
        RunFailure(queries, batchSize, hardParse, warmups[k].executions);
      }
  }
}
