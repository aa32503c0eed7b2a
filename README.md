# Latency probes, modelled in Dafny

This project models the core of a small set of latency probes. There are three:

- a TCP connect timer (`socket_benchmark.py`);
- an Oracle Net "TNS ping" that sends a fixed CONNECT frame to a listener and checks the answer (`oracle_tnsping_benchmark.py`);
- SQL execution timers that run statements through an oracledb cursor (`oracle_sql_benchmark.py`, `oracle_sql_benchmark_single_command.py`).

Each probe exists twice: as an older script at the repository root, and as a refactored copy under `src/`. The refactored copies share these helpers:

- `MeasurementsStats`, the statistics summary;
- the SQL file reader;
- the connection-string builder;
- the measuring functions that time one execute plus its fetch.

The model has one module per source file:

| module | file |
|---|---|
| `Stats` | `measurements_stats.dfy` |
| `SqlFileReader` | `sql_file_reader.dfy` |
| `ConnectionString` | `connection_string.dfy` |
| `Measuring` | `measuring.dfy` |
| `SocketBenchmark`, `RootSocketBenchmark` | `socket_benchmark.dfy`, `root_socket_benchmark.dfy` |
| `TnsPing`, `RootTnsPing` | `tns_ping.dfy`, `root_tns_ping.dfy` |
| `SqlBenchmark`, `RootSqlBenchmark` | `sql_benchmark.dfy`, `root_sql_benchmark.dfy` |
| `SingleCommand`, `RootSingleCommand` | `single_command.dfy`, `root_single_command.dfy` |

Four supporting modules hold what several probes use:

- `Outcomes`: Option, Result, and the Python exception kinds that decide a path.
- `Text`: `str.strip`, `str.split`, `sep.join`, and `str(int)`.
- `Trials`: the bookkeeping of a trial loop.
  - `Successes` is the `measurements` list.
  - `Failures` is `failed_attempts`.
  - `Timeouts` counts the attempts that do not sleep.
- `Database`: a `Cursor` class.
  - It holds the rows of the current result set still to fetch, and the log of executed statements.
  - `execute`, `fetchmany` and `fetchall` update them in place.

The outside world is passed in as data, one record per attempt. This covers:

- how a connect, send or recv ends;
- the chunks a listener sends;
- the database's answer to each execute;
- the `perf_counter` and `time.time()` readings.

Sleeps are counted. Durations are `real`, so the statistics are exact.

Where the code and the repository's written description differ, the model follows the code:

- The TNS request frame is 87 bytes, not 64. Its length field says 87.
- `MeasurementsStats([])` raises: `min([])` fails before any field is set. The description says an empty list gives zero statistics.
  - `src/oracle_sql_benchmark.py:46` and `:147` construct it with `[]`, and so does `src/oracle_tnsping_benchmark.py:96`. Each of these therefore raises in the model.
- Only the last non-empty chunk received is checked against the answer pattern, not the whole stream.
- A trial error does not always stay inside its trial:
  - a warm-up DatabaseError aborts a whole SQL run;
  - the non-reused SQL loop lets any error other than DatabaseError escape.

## Model

| member | source | states |
|---|---|---|
| Stats.Min | src/measurements/measurements_stats.py:7 | min is an element of the list and no element is smaller |
| Stats.Max | src/measurements/measurements_stats.py:8 | max is an element of the list and no element is larger |
| Stats.Insert | src/measurements/measurements_stats.py:10 | inserting into a sorted list keeps it sorted, adds exactly that value to the multiset, and puts the new value or the old head first |
| Stats.Sort | src/measurements/measurements_stats.py:10 | the sorted copy statistics.median works on is ascending and a permutation of the data |
| Stats.SortedPermutationUnique | src/measurements/measurements_stats.py:10 | two ascending permutations of the same data are equal, so the median does not depend on how the data is sorted |
| Stats.MedianIsMiddle | src/measurements/measurements_stats.py:10 | the median is the middle element of any ascending arrangement for odd length, and the mean of the two middle ones for even length |
| Stats.SquaredDeviations | src/measurements/measurements_stats.py:11-13 | the sum of squared deviations, from which the sample variance is built, is never negative |
| Stats.Compute | src/measurements/measurements_stats.py:5-16 | fails with the ValueError of min() exactly on an empty list; otherwise keeps the list, min and max are members bounding every element, min <= median <= max, min <= mean <= max, mean is the arithmetic mean (Mean) and median the median (Median) of the list, the variance is the sample variance (SampleVariance) for more than one sample and 0 for one, failed_attempts is kept, attempts = len + failed_attempts |
| Stats.MeanBetweenMinAndMax | src/measurements/measurements_stats.py:7-9 | the mean of a non-empty list lies between its min and max |
| Stats.MedianBetweenMinAndMax | src/measurements/measurements_stats.py:7-10 | the median of a non-empty list lies between its min and max |
| Stats.SumBetween | src/measurements/measurements_stats.py:9 | a sum of n values in [lo, hi] lies in [n*lo, n*hi] |
| Stats.SingleSample | src/measurements/measurements_stats.py:7-13 | for [x], min = max = mean = median = x and the deviation is 0 |
| Stats.AttemptsCount | src/measurements/measurements_stats.py:5-16 | failed_attempts defaults to 0, and then attempts is the number of measurements |
| Text.Strip | src/sql/sql_file_reader.py:15 | str.strip(): the result is the contiguous middle of the text, everything cut off on both sides is whitespace, the result neither starts nor ends with whitespace, and it is empty exactly for blank text |
| Text.StripUnchanged | src/sql/sql_file_reader.py:15 | stripping text that neither starts nor ends with whitespace leaves it unchanged |
| Text.StripKeepsCharacters | src/sql/sql_file_reader.py:15 | every character of the stripped text occurs in the original |
| Text.Split | src/sql/sql_file_reader.py:12 | str.split(sep): one more piece than there are separators, and no piece contains the separator |
| Text.SplitKeepsCharacters | src/sql/sql_file_reader.py:12 | every character of every piece occurs in the text |
| Text.JoinSplit | src/sql/sql_file_reader.py:12 | joining the pieces of a split with the separator gives the text back |
| Text.SplitJoin | src/sql/sql_file_reader.py:12 | splitting a join of separator-free pieces gives the pieces back |
| Text.NatToDecimal | src/oracle_db/measuring.py:7-8 | str(n) of a non-negative int is a non-empty string of digits |
| Text.DecimalRoundTrip | src/oracle_db/measuring.py:7-8 | reading back the decimal text of n gives n |
| Text.DecimalInjective | src/oracle_db/measuring.py:7-8 | different numbers have different decimal texts |
| SqlFileReader.Cleaned | src/sql/sql_file_reader.py:14-18 | the kept statements are no more than the pieces and each is non-empty and stripped |
| SqlFileReader.ReadAndParse | src/sql/sql_file_reader.py:10-20 | the append loop of _read_and_parse_file returns Statements(content): the pieces of the split, stripped, blank ones dropped, in order |
| SqlFileReader.CleanedPrefix | src/sql/sql_file_reader.py:14-18 | one more piece is appended, stripped, exactly when something is left of it |
| SqlFileReader.StatementsWellFormed | src/sql/sql_file_reader.py:12-18 | no statement is empty, contains `;`, or starts or ends with whitespace |
| SqlFileReader.StatementCount | src/sql/sql_file_reader.py:12 | there are at most one more statements than `;` characters |
| SqlFileReader.CleanedBlank | src/sql/sql_file_reader.py:14-18 | the result is empty exactly when every piece is blank |
| SqlFileReader.BlankAndSingle | src/sql/sql_file_reader.py:10-20 | blank content gives []; non-blank content without `;` gives [content.strip()] |
| SqlFileReader.CleanedKeepsCharacters | src/sql/sql_file_reader.py:14-18 | a character of a statement comes from one of the pieces |
| SqlFileReader.CleanedFixed | src/sql/sql_file_reader.py:14-18 | pieces that are already clean are all kept as they are |
| SqlFileReader.StatementsOfJoin | src/sql/sql_file_reader.py:10-20 | joining clean, separator-free statements with `;` and parsing gives them back |
| SqlFileReader.ReparseIdempotent | src/sql/sql_file_reader.py:10-20 | parsing the statements joined again with `;` gives the same statements |
| SqlFileReader.QuotedSeparatorSplits | src/sql/sql_file_reader.py:12 | a `;` inside a string literal still splits: quotes protect nothing |
| ConnectionString.Get | src/oracle_db/connection_string.py:1-12 | the string starts with user + "/", ends with "?transport_connect_timeout=" + timeout, and is exactly 31 characters longer than its parts |
| ConnectionString.InlineAgrees | src/oracle_sql_benchmark_single_command.py:43-46 | the one-line f-string of the single-command scripts and the root SQL benchmark builds the same text as get_connection_string |
| ConnectionString.PasswordNotEscaped | src/oracle_db/connection_string.py:10-12 | nothing is escaped: user "scott" with password "ti/ger" gives the same string as user "scott/ti" with password "ger" |
| Database.Executed | src/oracle_db/measuring.py:29 | execute logs the statement, and a result set becomes the rows left to fetch |
| Database.BatchLength | src/oracle_db/measuring.py:44 | fetchmany(size) returns min(size, rows left) rows, and none for a size of 0 or less |
| Database.Cursor.constructor | src/oracle_sql_benchmark.py:34 | a new cursor has nothing to fetch and has executed nothing |
| Database.Cursor.Execute | src/oracle_db/measuring.py:29 | succeeds exactly when the database answers with a result set, and moves to the Executed state |
| Database.Cursor.FetchMany | src/oracle_db/measuring.py:44 | returns the next BatchLength rows and removes them; the log is unchanged |
| Database.Cursor.FetchAll | src/oracle_db/measuring.py:30 | returns every row left and leaves none |
| Database.BatchesCover | src/oracle_db/measuring.py:42-47 | for a positive size the batches are non-empty, no longer than size, and concatenate to the rows; for a size of 0 or less there are none |
| Database.FetchManyCount | src/oracle_db/measuring.py:42-47 | the batched loop counts every row for a positive size, and none otherwise |
| Database.DrainInBatches | src/oracle_db/measuring.py:42-47 | the fetchmany loop ends, counts the rows of all batches, and leaves nothing to fetch for a positive size |
| Measuring.HardParse | src/oracle_db/measuring.py:6-8 | the rewrite starts with the query, ends with " */ ", and is 30 characters plus the timestamp's digits longer |
| Measuring.HardParseUnique | src/oracle_db/measuring.py:7-8 | rewrites at different milliseconds differ, and a rewrite never equals the query |
| Measuring.StatementTexts | src/oracle_db/measuring.py:17-19 | the i-th statement sent is the i-th query, rewritten when hard parsing |
| Measuring.MeasureStep | src/oracle_db/measuring.py:18-23 | one pass succeeds exactly when execute returns a result set, else DatabaseError; it reports the row count of the fetch that batch_size == 0 selects and the time around it, and logs the statement |
| Measuring.MeasureFetchall | src/oracle_db/measuring.py:27-32 | measure_fetchall returns the rows of the result set and the time between the readings, and leaves the cursor drained |
| Measuring.MeasureFetchmany | src/oracle_db/measuring.py:35-49 | measure_fetchmany returns the summed batch lengths and the time, and leaves the cursor as FetchManyStep says |
| Measuring.MeasureQueryExecutionTime | src/oracle_db/measuring.py:11-24 | the loop over the queries gives QueryTimes of the cursor state: result and new cursor state |
| Measuring.QueryTimesResult | src/oracle_db/measuring.py:17-24 | success exactly when the list is non-empty and every execute succeeds, reporting only the last query's rows and time; an empty list fails with the unbound local; any other failure is DatabaseError |
| Measuring.FailureSticks | src/oracle_db/measuring.py:17-24 | once a query has failed, the later ones change neither the result nor the cursor |
| Measuring.QueryTimesLog | src/oracle_db/measuring.py:17-24 | the statements sent are the queries in order, rewritten when hard parsing, up to and including the first that fails |
| Measuring.PrefixFails | src/oracle_db/measuring.py:17-24 | a run of a non-empty list fails exactly when some execute fails |
| SocketBenchmark.ConnectOutcomes | src/socket_benchmark.py:22-53 | one outcome per attempt: the connect latency in ms, a timeout, or another error |
| SocketBenchmark.ConnectLoop | src/socket_benchmark.py:19-54 | the loop's measurements are the successful latencies in attempt order, failed_attempts counts the rest, and every attempt except a timeout sleeps |
| SocketBenchmark.MeasureLatency | src/socket_benchmark.py:12-59 | measure_latency returns MeasurementsStats of the successes with failed_attempts, and sleeps after every attempt except a timeout |
| SocketBenchmark.AttemptsAreCount | src/socket_benchmark.py:56-59 | the returned statistics' attempts is count |
| SocketBenchmark.NoConnectRaises | src/socket_benchmark.py:56-59 | the statistics raise on the empty list exactly when no connect succeeded |
| SocketBenchmark.SleepsSkipTimeouts | src/socket_benchmark.py:42-54 | there are at least as many sleeps as successes: only timeouts skip the sleep |
| RootSocketBenchmark.Summarize | socket_benchmark.py:41-53 | None exactly for no latency; otherwise mean, median and variance are Stats.Mean, Stats.Median and Stats.SampleVariance of the latencies (0 for one latency), min <= median <= max, min <= mean <= max, every latency in [min, max], and both attempt counts as given |
| RootSocketBenchmark.SummarizeAgreesWithStats | socket_benchmark.py:42-50 | the dict carries the same statistics as MeasurementsStats built from the same list |
| RootSocketBenchmark.MeasureLatency | socket_benchmark.py:6-53 | the root measure_latency returns Summarize of the successful latencies and failures, and sleeps after every attempt except a timeout |
| RootSocketBenchmark.ReportAccounting | socket_benchmark.py:12-53 | None exactly when no connect succeeded; otherwise successful plus failed attempts is count |
| TnsPing.PacketLength | src/oracle_tnsping_benchmark.py:14-19 | the frame is 87 bytes and its big-endian length field (bytes 0-1) says 87 |
| TnsPing.ConnectDataFields | src/oracle_tnsping_benchmark.py:14-18 | bytes 24-25 give the connect-data length 29, bytes 26-27 its offset 58, and the frame from offset 58 is the connect data |
| TnsPing.ConnectDataEncoding | src/oracle_tnsping_benchmark.py:18 | the last 29 bytes are the ASCII encoding of "(CONNECT_DATA=(COMMAND=ping))" |
| TnsPing.DecodeAscii | src/oracle_tnsping_benchmark.py:45 | decoding succeeds exactly on bytes below 128 and then gives back text whose encoding is those bytes |
| TnsPing.EncodeAscii | src/oracle_tnsping_benchmark.py:18 | one byte per character |
| TnsPing.ScanCloseFinds | src/oracle_tnsping_benchmark.py:21 | the lazy `.*?\)\)` scan succeeds exactly when a "))" follows with no newline before it |
| TnsPing.MatchesIffPattern | src/oracle_tnsping_benchmark.py:21-50 | re.match accepts exactly the texts that start with the literal prefix and then reach a "))" with no newline before it |
| TnsPing.MatchIgnoresTrailer | src/oracle_tnsping_benchmark.py:50 | re.match anchors only at the start: whatever follows a match is ignored |
| TnsPing.NonZeroErrorRejected | src/oracle_tnsping_benchmark.py:21-50 | an answer with an error code other than 0 is rejected |
| TnsPing.ListenerAnswerAccepted | src/oracle_tnsping_benchmark.py:21-50 | a listener answer with any newline-free alias is accepted |
| TnsPing.NoDataRejected | src/oracle_tnsping_benchmark.py:32-51 | the initial "no data" is not an acceptable answer |
| TnsPing.AsChunks | src/oracle_tnsping_benchmark.py:42 | one recv result per chunk, in order |
| TnsPing.LastChunkWins | src/oracle_tnsping_benchmark.py:41-45 | the receive loop keeps only the last non-empty chunk, minus its 12-byte header, or "no data" when there is none |
| TnsPing.Exchange | src/oracle_tnsping_benchmark.py:30-48 | the exchange completes exactly when connect and send succeed and the receive loop ends without error; the timer starts before connect exactly when include_conn_setup, otherwise after it, and stops after the loop |
| TnsPing.SingleTnsPingResult | src/oracle_tnsping_benchmark.py:24-53 | a ping succeeds exactly when the exchange completes and the kept text matches the pattern, and then returns the exchange's latency; a mismatch raises ValueError, and so does a peer that closes without sending |
| TnsPing.ExchangePacket | src/oracle_tnsping_benchmark.py:30-48 | the socket part with its recv loop computes Exchange |
| TnsPing.MeasureSingleTnsPing | src/oracle_tnsping_benchmark.py:24-53 | measure_single_tns_ping computes SingleTnsPing |
| TnsPing.PingOutcomes | src/oracle_tnsping_benchmark.py:67-92 | one outcome per attempt: a latency, a timeout, or another error |
| TnsPing.MeasureTnsPings | src/oracle_tnsping_benchmark.py:56-96 | the loop returns MeasurementsStats of the successful latencies only, counts every failure, and sleeps after every attempt except a timeout |
| TnsPing.TnsPingsDropFailures | src/oracle_tnsping_benchmark.py:67-96 | each attempt adds one measurement or one failure; the returned statistics report 0 failed attempts and count only the successes; they raise exactly when no ping succeeded |
| RootTnsPing.SameProtocol | oracle_tnsping_benchmark.py:7-14 | the root script sends the same 87-byte frame and uses the same pattern as the src copy |
| RootTnsPing.Attempts | oracle_tnsping_benchmark.py:22-61 | one classified attempt per iteration |
| RootTnsPing.Latencies | oracle_tnsping_benchmark.py:44-45 | no more latencies than attempts |
| RootTnsPing.MeasureLatency | oracle_tnsping_benchmark.py:16-75 | the root loop returns Summarize of every completed exchange's latency, matched or not, with the failures including wrong answers, and sleeps after every attempt except a timeout |
| RootTnsPing.Accounting | oracle_tnsping_benchmark.py:44-60 | latencies plus failures is the number of attempts plus the wrong answers, which are at most the attempts |
| RootTnsPing.NoLatencies | oracle_tnsping_benchmark.py:44-63 | the latencies list is empty exactly when no exchange completed |
| RootTnsPing.ReportAccounting | oracle_tnsping_benchmark.py:22-75 | None exactly when no exchange completed; otherwise count <= successful + failed <= 2*count |
| RootTnsPing.WrongAnswerCountedTwice | oracle_tnsping_benchmark.py:44-60 | a ping whose answer does not match is reported as one success and one failure, with its latency in the statistics |
| SqlBenchmark.Iterations | src/oracle_sql_benchmark.py:68-86 | range(n) and range(1, n + 1) iterate n times for positive n and never otherwise |
| SqlBenchmark.QueryList | src/oracle_sql_benchmark.py:267 | without a file the list is [query]; with one, exactly the file's statements (SqlFileReader.Statements), none empty or holding `;`, and none for blank content |
| SqlBenchmark.RunIgnoresState | src/oracle_db/measuring.py:17-24 | the result of a run of the list does not depend on the cursor's earlier state |
| SqlBenchmark.RunResults | src/oracle_sql_benchmark.py:68-93 | one run result per iteration |
| SqlBenchmark.AttemptOutcomes | src/oracle_sql_benchmark.py:94-107 | a measured run is booked as its time, a caught exception as a failure |
| SqlBenchmark.RunOnCursor | src/oracle_sql_benchmark.py:69-93 | a run on the reused cursor gives the run's result and leaves the cursor after one more run |
| SqlBenchmark.WarmUpReusedCursor | src/oracle_sql_benchmark.py:68-81 | the warm-ups run in order, each followed by a sleep; the first failing one stops the loop and its exception escapes; the cursor has run exactly the warm-ups attempted |
| SqlBenchmark.ReusedCursorLoop | src/oracle_sql_benchmark.py:83-107 | every exception is caught: the measurements are the successful times in order and failed_attempts counts the rest, and the loop sleeps once per run |
| SqlBenchmark.MeasureOnReusedCursor | src/oracle_sql_benchmark.py:83-109 | the measured loop sleeps once per run and builds MeasurementsStats from the times and failures |
| SqlBenchmark.ExecuteWithReusedCursor | src/oracle_sql_benchmark.py:59-109 | execute_sql_stmts_w_reused_cursor: a warm-up that raises ends the call with that exception; otherwise the measured loop; the cursor is left after the runs made |
| SqlBenchmark.SessionResults | src/oracle_sql_benchmark.py:122-163 | one result per connection: DatabaseError when connect fails, else the run on a new cursor |
| SqlBenchmark.MeasureOnNewConnection | src/oracle_sql_benchmark.py:124-163 | a run on its own connection and fresh cursor gives SessionResult |
| SqlBenchmark.ExecuteWithoutReusedCursor | src/oracle_sql_benchmark.py:113-179 | execute_sql_stmts_wo_reused_cursor computes FreshRun: a warm-up DatabaseError returns MeasurementsStats([]), which raises |
| SqlBenchmark.MeasureOnNewConnections | src/oracle_sql_benchmark.py:149-179 | the non-reused measured loop books DatabaseError as a failure, lets any other exception escape, and sleeps after every attempt |
| SqlBenchmark.ExecuteSqlStmts | src/oracle_sql_benchmark.py:18-56 | execute_sql_stmts dispatches on reuse_connection; in the reused mode a failed connect or an escaping DatabaseError gives MeasurementsStats([]) |
| SqlBenchmark.AttemptAccounting | src/oracle_sql_benchmark.py:81-179 | a call that yields statistics booked every measured attempt once (latencies + failed = attempts = count) and slept after every warm-up and attempt |
| SqlBenchmark.RunFailure | src/oracle_db/measuring.py:17-24 | a failed run fails with DatabaseError, or with the unbound local for an empty list |
| SqlBenchmark.ExecuteFailures | src/oracle_sql_benchmark.py:18-179 | for statements that are all queries: a call that raises raises the ValueError of MeasurementsStats([]), or the unbound local of an empty list |
| SqlBenchmark.EmptyQueriesNeverMeasure | src/oracle_sql_benchmark.py:18-179 | with no query, no call yields statistics |
| SqlBenchmark.ModesCatchDifferently | src/oracle_sql_benchmark.py:94-174 | for an empty list, with warmup_cache = 0, count > 0 and a successful connect, the reused mode catches every unbound local, sleeps count times and raises on the empty statistics; the non-reused mode lets the first one escape without sleeping |
| SqlBenchmark.WarmupErrorAborts | src/oracle_sql_benchmark.py:44-147 | a failing warm-up, in either mode, aborts the call with MeasurementsStats([]) after the sleeps of the warm-ups before it; no attempt is measured |
| SingleCommand.QueryRowsCountsAll | src/oracle_sql_benchmark_single_command.py:18-25 | both fetch paths count every row of the result set, whatever the batch size |
| SingleCommand.NegativeBatchDiffers | src/oracle_sql_benchmark_single_command.py:18-25 | for a negative batch size this script counts every row while measure_query_execution_time counts none |
| SingleCommand.ExecuteQuery | src/oracle_sql_benchmark_single_command.py:13-29 | succeeds exactly when execute returns a result set, else DatabaseError; reports every row and the time; leaves the cursor drained with the query logged |
| SingleCommand.Statement | src/oracle_sql_benchmark_single_command.py:49-51 | without hard parse the query is sent as is; with it the query is extended once by the comment ending " */ " |
| SingleCommand.StatementOutcome | src/oracle_sql_benchmark_single_command.py:52-64 | a measurement exactly when connect and execute succeed, with every row counted; [] otherwise |
| SingleCommand.ExecuteSqlStmt | src/oracle_sql_benchmark_single_command.py:32-64 | builds get_connection_string's text inline, rewrites the query before connecting, and returns StatementOutcome |
| RootSingleCommand.FirstStatement | oracle_sql_benchmark_single_command.py:13-25 | raises IndexError exactly when every piece of the split is blank; otherwise returns a well-formed statement, and the stripped content when there is no `;` |
| RootSingleCommand.ParseSqlFile | oracle_sql_benchmark_single_command.py:13-25 | the append loop followed by [0] computes FirstStatement |
| RootSingleCommand.RunSingleSql | oracle_sql_benchmark_single_command.py:33-75 | the same connection string, hard-parse rewrite and outcome as the src execute_sql_stmt |
| RootSqlBenchmark.ParseSqlFile | oracle_sql_benchmark.py:13-25 | the same split, strip and drop rule as the src reader |
| RootSqlBenchmark.RunStatement | oracle_sql_benchmark.py:64-72 | one execute followed by a full fetch: succeeds exactly on a result set; the cursor is drained and the query logged |
| RootSqlBenchmark.RunQueries | oracle_sql_benchmark.py:63-115 | runs the list in order up to and including the first failure, and succeeds exactly when every statement answers |
| RootSqlBenchmark.Times | oracle_sql_benchmark.py:104-121 | one time per timed block, in order |
| RootSqlBenchmark.Repeat | oracle_sql_benchmark.py:103-115 | n copies of the list |
| RootSqlBenchmark.RepeatAdd | oracle_sql_benchmark.py:103-115 | n copies followed by m copies are n + m copies |
| RootSqlBenchmark.TimeListIterations | oracle_sql_benchmark.py:103-124 | the timed loop completes exactly when every block answers; then it returns every block's time, sleeps max(count - 1, 0) times and has run the list max(count, 0) times; otherwise it slept once per completed block |
| RootSqlBenchmark.RunListOfSql | oracle_sql_benchmark.py:33-130 | run_benchmark_with_list_of_sql_statements computes ListBenchmark; a completed run executes the list, the last query twice, then the list max(count, 0) times |
| RootSqlBenchmark.TimeSameIterations | oracle_sql_benchmark.py:203-223 | the same as TimeListIterations for the single query |
| RootSqlBenchmark.RunSameSql | oracle_sql_benchmark.py:133-229 | run_benchmark_with_same_sql_multiple_times computes SameBenchmark; a completed run executes the query max(count, 0) + 3 times |
| RootSqlBenchmark.SameIsListOfOne | oracle_sql_benchmark.py:33-229 | timing one query count times is timing the list [query] |
| RootSqlBenchmark.ListResults | oracle_sql_benchmark.py:45-130 | [] exactly when a database error interrupts; otherwise max(count, 0) + 1 results (just warm-up 1 when count <= 0): warm-up 1 first, then each measured iteration; warm-ups 2 and 3 are not recorded |
| RootSqlBenchmark.SleepsBetweenIterations | oracle_sql_benchmark.py:123-124 | at most max(count - 1, 0) sleeps, exactly max(count - 1, 0) after a completed run: none after the last iteration |
| RootSqlBenchmark.EmptyListUnbound | oracle_sql_benchmark.py:63-82 | an empty list reaches warm-up 2 with `query` unbound and raises UnboundLocalError, which the oracledb.Error handler does not catch |
| RootSqlBenchmark.PrintResults | oracle_sql_benchmark.py:232-247 | nothing for []; otherwise min and max are members bounding every result, mean and median are statistics.mean and statistics.median of the results (Stats.Mean, Stats.Median), min <= median <= max and min <= mean <= max |
| RootSqlBenchmark.CompletedReport | oracle_sql_benchmark.py:335-337 | main reports warm-up 1 apart and summarises exactly the measured iterations, with no summary when count <= 0 |
| Trials.Successes | src/socket_benchmark.py:36 | no more measurements than attempts |
| Trials.Accounting | src/socket_benchmark.py:22-54 | each attempt adds exactly one measurement or one failure |
| Trials.TimeoutsAreFailures | src/socket_benchmark.py:44-48 | timeouts are among the failures |
| Trials.NoSuccesses | src/socket_benchmark.py:56-59 | the measurements stay empty exactly when no attempt succeeded |
| Trials.AllSucceeded | src/socket_benchmark.py:35-36 | when every attempt succeeds, the k-th measurement is the k-th attempt's duration |
| Trials.Leading | src/oracle_sql_benchmark.py:68-74 | the number of leading elements that pass: all of them pass, and the next one, if any, does not |

## Left out

- Sockets, oracledb, clocks and `time.sleep` are not called. Each attempt's environment is a parameter:
  - how connect, send and recv end;
  - the chunks received;
  - the database's answer to each execute;
  - the `perf_counter` and `time.time()` readings.
  Sleeps are counted, not timed.
- Stats.Compute: the standard deviation is kept as its square, the sample variance. `sqrt` and floating-point rounding are not modelled.
- RootSocketBenchmark.Summarize: the same holds for the dict's stdev.
- Durations are exact `real` numbers, not IEEE doubles.
- Printing is not modelled: every progress line, `format_time`, `format_seconds` and `print_measurement_results`. The output formatter is not part of this model.
  - The success-rate line of `src/measurements/measurement_printing.py:23` prints attempts/(attempts + failed). `attempts` already includes the failures, so the failures are counted twice.
- Argument parsing, `getpass`, the `main` functions of the src scripts, and opening and reading files are not modelled. File reading is modelled from the content string onwards.
  - FileNotFoundError and IOError are not modelled.
  - The src single-command `main` passes the whole statement list as `query`. This is not modelled.
- `round(time.time() * 1000)` is a natural-number parameter. Dafny's `IntToDecimal` stands for `str()` of the port.
- The timeout is passed into the connection string as text, which stands for `str()` of the float.
- TnsPing.DecodeAscii: `bytes.decode()` is modelled for ASCII only. Any byte of 0x80 or above is a decode error, which the loop books as a failed attempt. Multi-byte UTF-8 text is not decoded.
- The receive buffer size and other constants from modules not shown are not modelled. recv chunks have arbitrary length.
- `fetchmany(n)` with n <= 0 is taken to return no rows, as python-oracledb's loop `while len(result) < size` does. So a negative batch size counts 0 rows in `measure_query_execution_time`.
- A failed execute is taken to leave nothing to fetch. No later fetch happens in that case.
- SqlBenchmark.ExecuteFailures / Database.Answer: every executed statement is taken to be a query that returns a result set, or to fail with DatabaseError. Statements that return no rows, such as DML, DDL or `COMMIT`, are not modelled.
  - For such a statement, both fetch paths of `src/oracle_db/measuring.py` fetch right after the execute, and python-oracledb raises InterfaceError there.
  - InterfaceError is not a DatabaseError. It would escape the `except oracledb.DatabaseError` handlers of `src/oracle_sql_benchmark.py`: those around the reused-mode warm-ups and the two in the non-reused mode.
  - Only the reused measured loop (`except Exception`) and the root scripts (`except oracledb.Error`) would catch it.
  - So ExecuteFailures' list of possible exceptions (EmptyData, or UnboundLocal for an empty list) holds only for statement lists whose every statement is a query.
- The root scripts' own copies of shared logic reuse the src model where the code is the same:
  - RootSingleCommand.RunSingleSql uses SingleCommand.ExecuteQuery;
  - RootSocketBenchmark.MeasureLatency uses SocketBenchmark.ConnectLoop;
  - RootSingleCommand.ParseSqlFile and RootSqlBenchmark.ParseSqlFile use SqlFileReader.ReadAndParse.
- Exception messages, and closing connections and cursors, are not modelled.
