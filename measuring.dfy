/** src/oracle_db/measuring.py: time one execute plus its full fetch, for each
    query of a list, on one cursor; optionally make every statement text unique so
    that the database has to hard parse it. */
module Measuring {
  import opened Outcomes
  import opened Text
  import opened Trials
  import opened Database

  /** The comment convert_to_hard_parse_statemtent appends, for a millisecond
      timestamp round(time.time() * 1000). */
  function HardParseComment(timestamp: nat): string {
    " /* hard parse interrupt: " + NatToDecimal(timestamp) + " */ "
  }

  /** convert_to_hard_parse_statemtent: the query, then the comment. */
  function HardParse(query: string, timestamp: nat): (r: string)
    ensures |r| == |query| + 26 + |NatToDecimal(timestamp)| + 4
    ensures r[..|query|] == query
    ensures r[|r| - 4..] == " */ "
  {
    query + HardParseComment(timestamp)
  }

  /** Two rewrites of the same query at different milliseconds differ, and a
      rewrite never equals the query itself. */
  lemma HardParseUnique(query: string, t1: nat, t2: nat)
    ensures t1 != t2 ==> HardParse(query, t1) != HardParse(query, t2)
    ensures HardParse(query, t1) != query
  {
    if t1 != t2 && HardParse(query, t1) == HardParse(query, t2) {
      var d1 := NatToDecimal(t1);
      var d2 := NatToDecimal(t2);
      assert |d1| == |d2|;
      assert HardParse(query, t1)[|query| + 26..|query| + 26 + |d1|] == d1;
      assert HardParse(query, t2)[|query| + 26..|query| + 26 + |d2|] == d2;
      DecimalInjective(t1, t2);
    }
  }

  /** What happens around one execute: the time.time() reading used for a hard
      parse, the perf_counter readings before execute and after the fetch, and the
      database's answer. */
  datatype Execution = Execution(timestamp: nat, start: real, answer: Answer, end: real)

  predicate Answered(e: Execution) {
    e.answer.ResultSet?
  }

  /** The (affected_rows, execution_time) pair the measuring functions return. */
  datatype Measurement = Measurement(rows: nat, ms: real)

  /** The result of a measuring call and the cursor state it leaves. */
  datatype Step = Step(result: Result<Measurement, Exception>, after: CursorState)

  function Elapsed(e: Execution): real {
    (e.end - e.start) * 1000.0
  }

  /** The text sent to execute for a query. */
  function StatementText(query: string, hardParse: bool, e: Execution): string {
    if hardParse then HardParse(query, e.timestamp) else query
  }

  function StatementTexts(queries: seq<string>, hardParse: bool, executions: seq<Execution>): (r: seq<string>)
    requires |executions| == |queries|
    ensures |r| == |queries|
    ensures forall i :: 0 <= i < |r| ==> r[i] == StatementText(queries[i], hardParse, executions[i])
  {
    seq(|queries|, i requires 0 <= i < |queries| => StatementText(queries[i], hardParse, executions[i]))
  }

  /** The row count of a fetch, as an independent reference: fetchall() and a
      positive batch size see every row; a batch size below 0 sees none. */
  function RowCount(rows: seq<Row>, batchSize: int): nat {
    if batchSize >= 0 then |rows| else 0
  }

  /** measure_fetchall as a function of the cursor state. */
  function FetchAllStep(s: CursorState, statement: string, e: Execution): Step {
    var executed := Executed(s, statement, e.answer);
    match e.answer
    case DbFailure => Step(Failure(DatabaseError), executed)
    case ResultSet(rows) => Step(Success(Measurement(|rows|, Elapsed(e))), executed.(remaining := []))
  }

  /** measure_fetchmany as a function of the cursor state. */
  function FetchManyStep(s: CursorState, statement: string, e: Execution, batchSize: int): Step {
    var executed := Executed(s, statement, e.answer);
    match e.answer
    case DbFailure => Step(Failure(DatabaseError), executed)
    case ResultSet(rows) =>
      Step(Success(Measurement(|Flatten(Batches(rows, batchSize))|, Elapsed(e))),
           executed.(remaining := if batchSize > 0 then [] else rows))
  }

  /** One pass of the loop of measure_query_execution_time: rewrite, then fetchall
      for a batch size of 0 and fetchmany for any other. */
  function MeasureStep(s: CursorState, query: string, batchSize: int, hardParse: bool, e: Execution): (step: Step)
    ensures step.result.Success? <==> Answered(e)
    ensures step.result.Failure? ==> step.result.error == DatabaseError
    ensures step.result.Success? ==> step.result.value == Measurement(RowCount(e.answer.rows, batchSize), Elapsed(e))
    ensures step.after.executed == s.executed + [StatementText(query, hardParse, e)]
  {
    var statement := StatementText(query, hardParse, e);
    FetchManyCount(if Answered(e) then e.answer.rows else [], batchSize);
    if batchSize == 0 then FetchAllStep(s, statement, e) else FetchManyStep(s, statement, e, batchSize)
  }

  /** measure_query_execution_time as a function of the cursor state: the queries
      run in order until one fails; the pair returned is the last query's; with no
      query at all the return reads unbound locals. */
  function QueryTimes(s: CursorState, queries: seq<string>, batchSize: int, hardParse: bool, executions: seq<Execution>): Step
    requires |executions| == |queries|
    decreases |queries|
  {
    if queries == [] then Step(Failure(UnboundLocal), s)
    else
      var n := |queries| - 1;
      var before := QueryTimes(s, queries[..n], batchSize, hardParse, executions[..n]);
      if n > 0 && before.result.Failure? then before
      else MeasureStep(before.after, queries[n], batchSize, hardParse, executions[n])
  }

  /** Once a query has failed, the later ones change nothing. */
  lemma {:induction false} FailureSticks(s: CursorState, queries: seq<string>, batchSize: int, hardParse: bool,
                                         executions: seq<Execution>, i: nat)
    requires |executions| == |queries|
    requires 0 < i <= |queries|
    requires QueryTimes(s, queries[..i], batchSize, hardParse, executions[..i]).result.Failure?
    ensures QueryTimes(s, queries, batchSize, hardParse, executions)
         == QueryTimes(s, queries[..i], batchSize, hardParse, executions[..i])
    decreases |queries|
  {
    if i < |queries| {
      var n := |queries| - 1;
      assert queries[..n][..i] == queries[..i];
      assert executions[..n][..i] == executions[..i];
      FailureSticks(s, queries[..n], batchSize, hardParse, executions[..n], i);
    } else {
      assert queries[..i] == queries;
      assert executions[..i] == executions;
    }
  }

  /** The result: a success exactly when there is a query and every execute
      succeeds, and then the last query's row count and time; otherwise the
      DatabaseError of the first failing query, or the unbound local. */
  lemma {:induction false} QueryTimesResult(s: CursorState, queries: seq<string>, batchSize: int, hardParse: bool,
                                            executions: seq<Execution>)
    requires |executions| == |queries|
    ensures var step := QueryTimes(s, queries, batchSize, hardParse, executions);
      && (step.result.Success? <==> queries != [] && Leading(executions, Answered) == |queries|)
      && (queries == [] ==> step == Step(Failure(UnboundLocal), s))
      && (queries != [] && step.result.Failure? ==> step.result.error == DatabaseError)
      && (step.result.Success? ==>
            var last := executions[|executions| - 1];
            step.result.value == Measurement(RowCount(last.answer.rows, batchSize), Elapsed(last)))
    decreases |queries|
  {
    if queries != [] {
      var n := |queries| - 1;
      QueryTimesResult(s, queries[..n], batchSize, hardParse, executions[..n]);
      assert executions[..|executions| - 1] == executions[..n];
    }
  }

  /** The statements sent: the queries, rewritten when hard parsing, in order, up to
      and including the first one that fails. */
  lemma {:induction false} QueryTimesLog(s: CursorState, queries: seq<string>, batchSize: int, hardParse: bool,
                                         executions: seq<Execution>)
    requires |executions| == |queries|
    ensures var k := Leading(executions, Answered);
      var m := if k < |queries| then k + 1 else k;
      QueryTimes(s, queries, batchSize, hardParse, executions).after.executed
        == s.executed + StatementTexts(queries[..m], hardParse, executions[..m])
    decreases |queries|
  {
    if queries != [] {
      var n := |queries| - 1;
      QueryTimesLog(s, queries[..n], batchSize, hardParse, executions[..n]);
      if n > 0 && QueryTimes(s, queries[..n], batchSize, hardParse, executions[..n]).result.Failure? {
        LogAfterFailure(s, queries, batchSize, hardParse, executions);
      } else {
        LogAfterSuccess(s, queries, batchSize, hardParse, executions);
      }
    }
  }

  /** The case of QueryTimesLog where an earlier query has failed. */
  lemma LogAfterFailure(s: CursorState, queries: seq<string>, batchSize: int, hardParse: bool,
                        executions: seq<Execution>)
    requires |executions| == |queries| > 1
    requires var n := |queries| - 1;
      && QueryTimes(s, queries[..n], batchSize, hardParse, executions[..n]).result.Failure?
      && var j := Leading(executions[..n], Answered);
         var m := if j < n then j + 1 else j;
         QueryTimes(s, queries[..n], batchSize, hardParse, executions[..n]).after.executed
           == s.executed + StatementTexts(queries[..n][..m], hardParse, executions[..n][..m])
    ensures var k := Leading(executions, Answered);
      k < |queries| &&
      QueryTimes(s, queries, batchSize, hardParse, executions).after.executed
        == s.executed + StatementTexts(queries[..k + 1], hardParse, executions[..k + 1])
  {
    var n := |queries| - 1;
    var qs, es := queries[..n], executions[..n];
    PrefixFails(s, qs, batchSize, hardParse, es);
    LeadingSnoc(executions, Answered);
    var j := Leading(es, Answered);
    PrefixOfPrefix(queries, n, j + 1);
    PrefixOfPrefix(executions, n, j + 1);
  }

  /** The case of QueryTimesLog where every earlier query has succeeded. */
  lemma LogAfterSuccess(s: CursorState, queries: seq<string>, batchSize: int, hardParse: bool,
                        executions: seq<Execution>)
    requires |executions| == |queries| > 0
    requires var n := |queries| - 1;
      && (n > 0 ==> QueryTimes(s, queries[..n], batchSize, hardParse, executions[..n]).result.Success?)
      && var j := Leading(executions[..n], Answered);
         var m := if j < n then j + 1 else j;
         QueryTimes(s, queries[..n], batchSize, hardParse, executions[..n]).after.executed
           == s.executed + StatementTexts(queries[..n][..m], hardParse, executions[..n][..m])
    ensures Leading(executions, Answered) >= |queries| - 1
    ensures QueryTimes(s, queries, batchSize, hardParse, executions).after.executed
        == s.executed + StatementTexts(queries, hardParse, executions)
  {
    var n := |queries| - 1;
    var qs, es := queries[..n], executions[..n];
    if n > 0 {
      PrefixFails(s, qs, batchSize, hardParse, es);
    }
    LeadingSnoc(executions, Answered);
    PrefixOfPrefix(queries, n, n);
    PrefixOfPrefix(executions, n, n);
    StatementTextsSnoc(queries, hardParse, executions);
  }

  /** A run fails exactly when some execute fails. */
  lemma PrefixFails(s: CursorState, queries: seq<string>, batchSize: int, hardParse: bool, executions: seq<Execution>)
    requires |executions| == |queries| > 0
    ensures QueryTimes(s, queries, batchSize, hardParse, executions).result.Failure?
        <==> Leading(executions, Answered) < |queries|
  {
    QueryTimesResult(s, queries, batchSize, hardParse, executions);
  }

  lemma StatementTextsSnoc(queries: seq<string>, hardParse: bool, executions: seq<Execution>)
    requires |executions| == |queries| > 0
    ensures var n := |queries| - 1;
      StatementTexts(queries, hardParse, executions)
        == StatementTexts(queries[..n], hardParse, executions[..n]) + [StatementText(queries[n], hardParse, executions[n])]
  {
  }

  /** measure_fetchall: start the clock, execute, fetchall, stop the clock. */
  method MeasureFetchall(cursor: Cursor, statement: string, e: Execution) returns (r: Result<Measurement, Exception>)
    modifies cursor
    ensures Step(r, cursor.State()) == FetchAllStep(old(cursor.State()), statement, e)
  {
    var startTime := e.start;
    var ok := cursor.Execute(statement, e.answer);
    if !ok {
      return Failure(DatabaseError);
    }
    var rows := cursor.FetchAll();
    var endTime := e.end;
    return Success(Measurement(|rows|, (endTime - startTime) * 1000.0));
  }

  /** measure_fetchmany: start the clock, execute, fetchmany until an empty batch,
      stop the clock. */
  method MeasureFetchmany(cursor: Cursor, statement: string, e: Execution, batchSize: int)
    returns (r: Result<Measurement, Exception>)
    modifies cursor
    ensures Step(r, cursor.State()) == FetchManyStep(old(cursor.State()), statement, e, batchSize)
  {
    var startTime := e.start;
    var ok := cursor.Execute(statement, e.answer);
    if !ok {
      return Failure(DatabaseError);
    }
    var affected := DrainInBatches(cursor, batchSize);
    var endTime := e.end;
    return Success(Measurement(affected, (endTime - startTime) * 1000.0));
  }

  /** measure_query_execution_time: one entry of executions per query. */
  method MeasureQueryExecutionTime(cursor: Cursor, queries: seq<string>, batchSize: int, hardParse: bool,
                                   executions: seq<Execution>)
    returns (r: Result<Measurement, Exception>)
    requires |executions| == |queries|
    modifies cursor
    ensures Step(r, cursor.State()) == QueryTimes(old(cursor.State()), queries, batchSize, hardParse, executions)
  {
    var measured: Option<Measurement> := None;
    for i := 0 to |queries|
      invariant i == 0 ==> measured.None? && cursor.State() == old(cursor.State())
      invariant i > 0 ==>
        && measured.Some?
        && QueryTimes(old(cursor.State()), queries[..i], batchSize, hardParse, executions[..i])
             == Step(Success(measured.value), cursor.State())
    {
      assert queries[..i + 1][..i] == queries[..i];
      assert executions[..i + 1][..i] == executions[..i];
      var query := queries[i];
      if hardParse {
        query := HardParse(query, executions[i].timestamp);
      }
      var m;
      if batchSize == 0 {
        m := MeasureFetchall(cursor, query, executions[i]);
      } else {
        m := MeasureFetchmany(cursor, query, executions[i], batchSize);
      }
      if m.Failure? {
        FailureSticks(old(cursor.State()), queries, batchSize, hardParse, executions, i + 1);
        return m;
      }
      measured := Some(m.value);
    }
    assert queries[..|queries|] == queries;
    assert executions[..|queries|] == executions;
    if measured.None? {
      return Failure(UnboundLocal);
    }
    return Success(measured.value);
  }
}
