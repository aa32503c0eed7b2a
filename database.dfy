/** The part of an oracledb cursor the SQL probes use: execute a statement, then
    drain its result set with fetchall() or with repeated fetchmany(size). The
    database's answer to each statement is a parameter of execute. */
module Database {

  /** One fetched row; its column values are never looked at. */
  type Row = seq<string>

  /** What the database does with one executed statement. */
  datatype Answer = ResultSet(rows: seq<Row>) | DbFailure

  /** The cursor's state as a value: the rows of the current result set still to
      be fetched, and every statement text executed on it so far. */
  datatype CursorState = CursorState(remaining: seq<Row>, executed: seq<string>)

  /** A cursor just opened on a new connection. */
  const Fresh := CursorState([], [])

  /** The state after execute(statement): the statement is logged, and its result
      set, if any, replaces whatever was left of the previous one. */
  function Executed(s: CursorState, statement: string, answer: Answer): (t: CursorState)
    ensures t.executed == s.executed + [statement]
    ensures answer.ResultSet? ==> t.remaining == answer.rows
  {
    CursorState(if answer.ResultSet? then answer.rows else [], s.executed + [statement])
  }

  /** How many rows fetchmany(size) returns when `available` rows are left: up to
      size, and none at all for a size of 0 or less. */
  function BatchLength(size: int, available: nat): (k: nat)
    ensures k <= available
    ensures k == 0 <==> size <= 0 || available == 0
    ensures size > 0 ==> k == if size < available then size else available
  {
    if size <= 0 then 0 else if size < available then size else available
  }

  class Cursor {
    var remaining: seq<Row>
    var executed: seq<string>

    function State(): CursorState
      reads this
    {
      CursorState(remaining, executed)
    }

    constructor()
      ensures State() == Fresh
    {
      remaining := [];
      executed := [];
    }

    /** cursor.execute(statement); ok is false where oracledb raises DatabaseError. */
    method Execute(statement: string, answer: Answer) returns (ok: bool)
      modifies this
      ensures ok <==> answer.ResultSet?
      ensures State() == Executed(old(State()), statement, answer)
    {
      executed := executed + [statement];
      if answer.ResultSet? {
        remaining := answer.rows;
      } else {
        remaining := [];
      }
      ok := answer.ResultSet?;
    }

    /** cursor.fetchmany(size): the next rows, at most size of them. */
    method FetchMany(size: int) returns (batch: seq<Row>)
      modifies this
      ensures batch == old(remaining)[..BatchLength(size, |old(remaining)|)]
      ensures remaining == old(remaining)[BatchLength(size, |old(remaining)|)..]
      ensures executed == old(executed)
    {
      var k := BatchLength(size, |remaining|);
      batch := remaining[..k];
      remaining := remaining[k..];
    }

    /** cursor.fetchall(): every row left. */
    method FetchAll() returns (rows: seq<Row>)
      modifies this
      ensures rows == old(remaining)
      ensures remaining == []
      ensures executed == old(executed)
    {
      rows := remaining;
      remaining := [];
    }
  }

  /** The batches `while True: rows = fetchmany(size); if not rows: break` sees,
      in order, before the empty one that ends it. */
  function Batches(rows: seq<Row>, size: int): seq<seq<Row>>
    decreases |rows|
  {
    var k := BatchLength(size, |rows|);
    if k == 0 then [] else [rows[..k]] + Batches(rows[k..], size)
  }

  function Flatten(batches: seq<seq<Row>>): seq<Row> {
    if batches == [] then [] else batches[0] + Flatten(batches[1..])
  }

  /** For a positive size the batches are non-empty, no longer than size, and
      together are the whole result set in order; for any other size there are none. */
  lemma {:induction false} BatchesCover(rows: seq<Row>, size: int)
    ensures size <= 0 ==> Batches(rows, size) == []
    ensures size > 0 ==> Flatten(Batches(rows, size)) == rows
    ensures size > 0 ==> forall b :: b in Batches(rows, size) ==> 0 < |b| <= size
    decreases |rows|
  {
    var k := BatchLength(size, |rows|);
    if k != 0 {
      BatchesCover(rows[k..], size);
      var rest := Batches(rows[k..], size);
      assert Batches(rows, size) == [rows[..k]] + rest;
      assert ([rows[..k]] + rest)[1..] == rest;
      assert rows == rows[..k] + rows[k..];
    }
  }

  /** The batched loop counts the same rows as fetchall() when size is positive,
      and none otherwise. */
  lemma FetchManyCount(rows: seq<Row>, size: int)
    ensures |Flatten(Batches(rows, size))| == if size > 0 then |rows| else 0
  {
    BatchesCover(rows, size);
  }

  /** The fetchmany loop of the probes: drain the current result set in batches of
      size, adding up the batch lengths, until a batch comes back empty. */
  method DrainInBatches(cursor: Cursor, size: int) returns (affected: nat)
    modifies cursor
    ensures affected == |Flatten(Batches(old(cursor.remaining), size))|
    ensures cursor.remaining == if size > 0 then [] else old(cursor.remaining)
    ensures cursor.executed == old(cursor.executed)
  {
    affected := 0;
    while true
      invariant size > 0 ==> affected + |cursor.remaining| == |old(cursor.remaining)|
      invariant size <= 0 ==> affected == 0 && cursor.remaining == old(cursor.remaining)
      invariant cursor.executed == old(cursor.executed)
      decreases |cursor.remaining|
    {
      var batch := cursor.FetchMany(size);
      if batch == [] {
        break;
      }
      affected := affected + |batch|;
    }
    FetchManyCount(old(cursor.remaining), size);
  }
}
