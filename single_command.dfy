/** src/oracle_sql_benchmark_single_command.py: connect once, run one statement,
    and report its row count and time. */
module SingleCommand {
  import opened Outcomes
  import opened Text
  import opened Database
  import opened Measuring
  import ConnectionString

  /** The row count execute_query reports for a result set: summed fetchmany
      batches for a positive batch size, len(fetchall()) otherwise. */
  function QueryRows(rows: seq<Row>, batchSize: int): nat {
    if batchSize > 0 then |Flatten(Batches(rows, batchSize))| else |rows|
  }

  /** Both fetch paths count every row of the result set, whatever the batch size. */
  lemma QueryRowsCountsAll(rows: seq<Row>, batchSize: int)
    ensures QueryRows(rows, batchSize) == |rows|
  {
    FetchManyCount(rows, batchSize);
  }

  /** For a negative batch size this script takes fetchall and counts every row,
      while measure_query_execution_time takes fetchmany and counts none. */
  lemma NegativeBatchDiffers(rows: seq<Row>, batchSize: int)
    requires batchSize < 0 && rows != []
    ensures QueryRows(rows, batchSize) == |rows|
    ensures RowCount(rows, batchSize) == 0
    ensures MeasureStep(Fresh, "", batchSize, false, Execution(0, 0.0, ResultSet(rows), 0.0)).result
         == Success(Measurement(0, 0.0))
  {
    QueryRowsCountsAll(rows, batchSize);
  }

  /** execute_query: start the clock, execute, fetch every row, stop the clock. A
      failed execute raises DatabaseError. */
  method ExecuteQuery(cursor: Cursor, query: string, batchSize: int, e: Execution)
    returns (r: Result<Measurement, Exception>)
    modifies cursor
    ensures r.Success? <==> e.answer.ResultSet?
    ensures r.Failure? ==> r.error == DatabaseError
    ensures r.Success? ==> r.value == Measurement(|e.answer.rows|, Elapsed(e))
    ensures cursor.State() == CursorState([], old(cursor.executed) + [query])
  {
    var affectedRows := 0;
    var startTime := e.start;
    var ok := cursor.Execute(query, e.answer);
    if !ok {
      return Failure(DatabaseError);
    }
    if batchSize > 0 {
      affectedRows := DrainInBatches(cursor, batchSize);
    } else {
      var rows := cursor.FetchAll();
      affectedRows := |rows|;
    }
    QueryRowsCountsAll(e.answer.rows, batchSize);
    var endTime := e.end;
    return Success(Measurement(affectedRows, (endTime - startTime) * 1000.0));
  }

  /** What the call comes to: None after printing the measurement, or the []
      returned for an oracledb.Error. */
  datatype Returned = Printed(m: Measurement) | EmptyList

  /** The outside world of one call: the time.time() reading for the hard parse,
      whether connect succeeds, and the execution of the statement. */
  datatype StatementEnv = StatementEnv(timestamp: nat, connects: bool, execution: Execution)

  /** The statement sent: rewritten once for a hard parse, with the timestamp read
      before connecting. */
  function Statement(query: string, hardParse: bool, timestamp: nat): (s: string)
    ensures !hardParse ==> s == query
    ensures hardParse ==> |s| >= |query| + 31 && s[..|query|] == query && s[|s| - 4..] == " */ "
  {
    if hardParse then HardParse(query, timestamp) else query
  }

  /** The outcome of execute_sql_stmt: a measurement when connect and execute both
      succeed, [] otherwise; the row count does not depend on the batch size. */
  function StatementOutcome(env: StatementEnv): (r: Returned)
    ensures r.Printed? <==> env.connects && Answered(env.execution)
    ensures r.Printed? ==> r.m == Measurement(|env.execution.answer.rows|, Elapsed(env.execution))
  {
    if env.connects && Answered(env.execution)
    then Printed(Measurement(|env.execution.answer.rows|, Elapsed(env.execution)))
    else EmptyList
  }

  /** execute_sql_stmt: build the connection string from its parts, rewrite the
      query for a hard parse, then connect and run it on a new cursor. */
  method ExecuteSqlStmt(host: string, service: string, user: string, password: string, query: string,
                        port: int, timeout: string, batchSize: int, hardParse: bool, env: StatementEnv)
    returns (connectionString: string, statement: string, returned: Returned)
    ensures connectionString == ConnectionString.Get(host, service, user, password, port, timeout)
    ensures statement == Statement(query, hardParse, env.timestamp)
    ensures returned == StatementOutcome(env)
  {
    var hostPort := host + ":" + IntToDecimal(port);
    var credentials := user + "/" + password;
    var timeoutParam := "?transport_connect_timeout=" + timeout;
    connectionString := credentials + "@" + hostPort + "/" + service + timeoutParam;
    statement := query;
    if hardParse {
      statement := statement + HardParseComment(env.timestamp);
    }
    if !env.connects {
      return connectionString, statement, EmptyList;
    }
    var cursor := new Cursor();
    var r := ExecuteQuery(cursor, statement, batchSize, env.execution);
    if r.Failure? {
      return connectionString, statement, EmptyList;
    }
    returned := Printed(r.value);
  }
}
