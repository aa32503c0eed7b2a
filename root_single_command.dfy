/** The older single-statement timer, oracle_sql_benchmark_single_command.py at the
    repository root: the first statement of a file, or the query of the command
    line, is run once on a new connection. */
module RootSingleCommand {
  import opened Outcomes
  import opened Text
  import opened Database
  import SqlFileReader
  import ConnectionString
  import SingleCommand

  /** parse_sql_file of this script: the first statement the split, strip and drop
      rule keeps; [0] of an empty list raises IndexError, which nothing catches. */
  function FirstStatement(content: string): (r: Result<string, Exception>)
    ensures r.Failure? <==> SqlFileReader.Blank(Split(content, ';'))
    ensures r.Failure? ==> r.error == IndexOutOfRange
    ensures r.Success? ==> r.value != [] && ';' !in r.value && !IsSpace(r.value[0]) && !IsSpace(r.value[|r.value| - 1])
    ensures ';' !in content && !AllSpace(content) ==> r == Success(Strip(content))
  {
    var statements := SqlFileReader.Statements(content);
    SqlFileReader.CleanedBlank(Split(content, ';'));
    SqlFileReader.StatementsWellFormed(content);
    SqlFileReader.BlankAndSingle(content);
    if statements == [] then Failure(IndexOutOfRange) else Success(statements[0])
  }

  method ParseSqlFile(content: string) returns (r: Result<string, Exception>)
    ensures r == FirstStatement(content)
  {
    var statements := SqlFileReader.ReadAndParse(content);
    if statements == [] {
      return Failure(IndexOutOfRange);
    }
    return Success(statements[0]);
  }

  /** run_single_sql: the connection string in one line, the query rewritten for a
      hard parse before connecting, then execute and fetch on a new cursor; [] on
      an oracledb.Error. */
  method RunSingleSql(host: string, service: string, user: string, password: string, query: string,
                      port: int, timeout: string, batchSize: int, hardParse: bool, env: SingleCommand.StatementEnv)
    returns (connectionString: string, statement: string, returned: SingleCommand.Returned)
    ensures connectionString == ConnectionString.Get(host, service, user, password, port, timeout)
    ensures statement == SingleCommand.Statement(query, hardParse, env.timestamp)
    ensures returned == SingleCommand.StatementOutcome(env)
  {
    connectionString := user + "/" + password + "@" + host + ":" + IntToDecimal(port) + "/" + service
      + "?transport_connect_timeout=" + timeout;
    ConnectionString.InlineAgrees(host, service, user, password, port, timeout);
    statement := query;
    if hardParse {
      statement := statement + " /* hard parse interrupt: " + NatToDecimal(env.timestamp) + " */ ";
    }
    if !env.connects {
      return connectionString, statement, SingleCommand.EmptyList;
    }
    var cursor := new Cursor();
    var r := SingleCommand.ExecuteQuery(cursor, statement, batchSize, env.execution);
    if r.Failure? {
      return connectionString, statement, SingleCommand.EmptyList;
    }
    returned := SingleCommand.Printed(r.value);
  }
}
