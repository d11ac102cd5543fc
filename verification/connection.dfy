/**
 * The connection to a MySQL/MariaDB server and the queries it shapes. The client library is
 * replaced by `Session`, an oracle fixed when the connection is opened: for each query text it
 * gives the status `mysql_query` returns and the rows `mysql_fetch_row` hands out one call after
 * another (a null row is `None`; fetching past the end also gives a null row). The session logs
 * every query text it is sent, so that contracts can say which queries an operation issues.
 */
module Connection {
  import opened Ints
  import opened Wrappers
  import Decimal
  import Cbox

  /** One fetched row: the NUL-terminated text of each of its columns. */
  type Row = seq<seq<CChar>>

  /** The foreign session handle, as far as the library can observe it. */
  class Session {
    /** What `mysql_query` returns for a query text: zero on success. */
    const status: string -> int
    /** What `mysql_fetch_row` returns, call after call, once a query text has run. */
    const results: string -> seq<Option<Row>>
    /** Every query text sent so far, in order. */
    ghost var sent: seq<string>
    /** Whether `mysql_close` has been called. */
    ghost var closed: bool

    /** `mysql_init`. */
    constructor (status: string -> int, results: string -> seq<Option<Row>>)
      ensures this.status == status && this.results == results
      ensures sent == [] && !closed
    {
      this.status := status;
      this.results := results;
      sent := [];
      closed := false;
    }

    /** `mysql_query`. */
    method Query(q: string) returns (code: int)
      requires !closed
      modifies this
      ensures code == status(q)
      ensures sent == old(sent) + [q] && !closed
    {
      sent := sent + [q];
      code := status(q);
    }

    /** `mysql_close`. */
    method Close()
      requires !closed
      modifies this
      ensures closed && sent == old(sent)
    {
      closed := true;
    }
  }

  /** The rows fetched before the first null row, in fetch order. */
  function FetchedRows(stream: seq<Option<Row>>): (rows: seq<Row>)
    ensures |rows| <= |stream|
    ensures forall i :: 0 <= i < |rows| ==> stream[i] == Some(rows[i])
    ensures |rows| < |stream| ==> stream[|rows|] == None
  {
    if stream == [] || stream[0] == None then [] else [stream[0].value] + FetchedRows(stream[1..])
  }

  /** A stream that yields exactly the given rows. */
  function Present(rows: seq<Row>): seq<Option<Row>>
  {
    seq(|rows|, i requires 0 <= i < |rows| => Some(rows[i]))
  }

  /**
   * Fetching stops at the first null row: the rows before it are returned, in order, and
   * nothing after it is ever read.
   */
  lemma {:induction false} FetchedRowsUpToNull(rows: seq<Row>, rest: seq<Option<Row>>)
    requires rest == [] || rest[0] == None
    ensures FetchedRows(Present(rows) + rest) == rows
  {
    var stream := Present(rows) + rest;
    if rows == [] {
      assert stream == rest;
    } else {
      assert stream[0] == Some(rows[0]);
      assert stream[1..] == Present(rows[1..]) + rest;
      FetchedRowsUpToNull(rows[1..], rest);
      assert rows == [rows[0]] + rows[1..];
    }
  }

  /** The first `wide` columns of a row exist and each holds a NUL. */
  predicate Readable(row: Row, wide: int)
  {
    wide <= |row| && forall j :: 0 <= j < wide ==> 0 in row[j]
  }

  predicate AllReadable(rows: seq<Row>, wide: int)
  {
    forall i :: 0 <= i < |rows| ==> Readable(rows[i], wide)
  }

  /** The text of the first `wide` columns of a row. */
  function DecodeRow(row: Row, wide: nat): seq<string>
    requires Readable(row, wide)
  {
    seq(wide, j requires 0 <= j < wide => Cbox.Decode(row[j]))
  }

  function WidthError(wide: int): string
  {
    "Invalid width for query. Must be larger than zero. Given width was " + Decimal.IntToDecimal(wide)
  }

  function QueryFailed(query: string): string
  {
    "Query of (" + query + ") failed."
  }

  function SwitchDbFailed(newDb: string): string
  {
    "Switch to database of the name \"" + newDb + "\" failed"
  }

  function CreateTableFailed(name: string, contents: string): string
  {
    "Create table of the name \"" + name + "\" and contents \"" + contents + "\" failed."
  }

  function ConnectFailed(clientError: string): string
  {
    "Failed to connect to SQL. Reason: " + clientError
  }

  /** What `raw_query` returns, given the status of the query and the stream of rows after it. */
  function RawQueryResult(query: string, wide: int, status: int, stream: seq<Option<Row>>): Result<seq<seq<string>>>
    requires wide >= 1 && status == 0 ==> AllReadable(FetchedRows(stream), wide)
  {
    if wide < 1 then Err(WidthError(wide))
    else if status != 0 then Err(QueryFailed(query))
    else
      var rows := FetchedRows(stream);
      Ok(seq(|rows|, i requires 0 <= i < |rows| => DecodeRow(rows[i], wide)))
  }

  /**
   * `raw_query` succeeds exactly when the width is at least one and the query runs; it then
   * returns one list per row fetched before the first null row, in fetch order, each holding
   * exactly `wide` column texts. A width below one is refused whatever the server would say.
   */
  lemma RawQueryShape(query: string, wide: int, status: int, stream: seq<Option<Row>>)
    requires wide >= 1 && status == 0 ==> AllReadable(FetchedRows(stream), wide)
    ensures var r := RawQueryResult(query, wide, status, stream);
      && (r.Ok? <==> wide >= 1 && status == 0)
      && (wide < 1 ==> r == Err(WidthError(wide)))
      && (wide >= 1 && status != 0 ==> r == Err(QueryFailed(query)))
      && (r.Ok? ==>
            && |r.value| == |FetchedRows(stream)|
            && (forall i :: 0 <= i < |r.value| ==> |r.value[i]| == wide)
            && (forall i, j :: 0 <= i < |r.value| && 0 <= j < wide ==>
                  r.value[i][j] == Cbox.Decode(FetchedRows(stream)[i][j])))
  {
  }

  /** Rows after the first null row never influence the result of `raw_query`. */
  lemma RawQueryIgnoresAfterNull(query: string, wide: int, rows: seq<Row>, rest: seq<Option<Row>>)
    requires rest == [] || rest[0] == None
    requires AllReadable(rows, wide)
    ensures FetchedRows(Present(rows) + rest) == rows
    ensures RawQueryResult(query, wide, 0, Present(rows) + rest) == RawQueryResult(query, wide, 0, Present(rows))
  {
    FetchedRowsUpToNull(rows, rest);
    FetchedRowsUpToNull(rows, []);
    assert Present(rows) + [] == Present(rows);
  }

  /** The width error names the width it refused: its last characters read back as it. */
  lemma WidthErrorNamesWidth(wide: int)
    ensures var msg := WidthError(wide);
      var n := |Decimal.IntToDecimal(wide)|;
      n <= |msg| && Decimal.ParseInt(msg[|msg| - n..]) == Some(wide)
  {
    var msg := WidthError(wide);
    assert msg[|msg| - |Decimal.IntToDecimal(wide)|..] == Decimal.IntToDecimal(wide);
    Decimal.IntRoundTrip(wide);
  }

  /** The projection of `get_tables_list`: the first column of every row, in order. */
  function Column0(rows: seq<seq<string>>): (names: seq<string>)
    requires forall i :: 0 <= i < |rows| ==> |rows[i]| >= 1
    ensures |names| == |rows|
    ensures forall i :: 0 <= i < |rows| ==> names[i] == rows[i][0]
  {
    seq(|rows|, i requires 0 <= i < |rows| => rows[i][0])
  }

  /**
   * The guard of `Connection::new` as written: `! mysql_real_connect(..).is_null()` takes the
   * error branch when the handshake returned a handle, that is, when it succeeded.
   */
  function ConnectOutcomeAsWritten(connected: bool, clientError: string): (r: Result<()>)
    ensures r.Ok? <==> !connected
    ensures r.Err? ==> r.error == ConnectFailed(clientError)
  {
    if connected then Err(ConnectFailed(clientError)) else Ok(())
  }

  /** The guard as intended: fail exactly when the handshake returned null. */
  function ConnectOutcome(connected: bool, clientError: string): (r: Result<()>)
    ensures r.Ok? <==> connected
    ensures r.Err? ==> r.error == ConnectFailed(clientError)
  {
    if !connected then Err(ConnectFailed(clientError)) else Ok(())
  }

  /** As written, every successful handshake is reported as a failure and every failed one as a success. */
  lemma ConnectGuardInverted(connected: bool, clientError: string)
    ensures ConnectOutcomeAsWritten(connected, clientError).Ok? <==> !connected
    ensures ConnectOutcomeAsWritten(true, clientError) == Err(ConnectFailed(clientError))
    ensures ConnectOutcomeAsWritten(connected, clientError).Ok? != ConnectOutcome(connected, clientError).Ok?
  {
  }

  /**
   * `Connection::new`, with the handshake's guard as intended. `connected` is whether
   * `mysql_real_connect` returned a handle, `clientError` the text `mysql_error` reports; on
   * failure the session is closed and the error folds that text in.
   */
  method Connect(address: string, user: string, password: string, database: string,
                 status: string -> int, results: string -> seq<Option<Row>>,
                 connected: bool, clientError: string)
    returns (r: Result<Connection>)
    ensures r.Ok? <==> connected
    ensures r.Err? ==> r.error == ConnectFailed(clientError)
    ensures r.Ok? ==>
      && fresh(r.value) && fresh(r.value.conn)
      && r.value.db == database && r.value.conn.sent == [] && !r.value.conn.closed
      && r.value.conn.status == status && r.value.conn.results == results
  {
    var session := new Session(status, results);
    var outcome := ConnectOutcome(connected, clientError);
    if outcome.Err? {
      session.Close();
      return Err(outcome.error);
    }
    var c := new Connection(session, database);
    return Ok(c);
  }

  class Connection {
    /** The session handle, owned for the connection's whole life. */
    const conn: Session
    /** The database named at connect time; `SwitchDb` does not update it. */
    var db: string

    constructor (conn: Session, db: string)
      ensures this.conn == conn && this.db == db
    {
      this.conn := conn;
      this.db := db;
    }

    /**
     * `raw_query`: refuse a width below one without sending anything; otherwise send the query,
     * and if it runs, fetch rows until the first null row, decoding the first `wide` columns of
     * each.
     */
    method RawQuery(query: string, wide: isize) returns (r: Result<seq<seq<string>>>)
      requires !conn.closed
      requires wide >= 1 && conn.status(query) == 0 ==> AllReadable(FetchedRows(conn.results(query)), wide as int)
      modifies conn
      ensures r == RawQueryResult(query, wide as int, conn.status(query), conn.results(query))
      ensures conn.sent == if wide < 1 then old(conn.sent) else old(conn.sent) + [query]
      ensures !conn.closed
    {
      if wide < 1 {
        return Err(WidthError(wide as int));
      }
      var code := conn.Query(query);
      if code != 0 {
        return Err(QueryFailed(query));
      }
      var stream := conn.results(query);
      ghost var rows := FetchedRows(stream);
      var vec: seq<seq<string>> := [];
      var n := 0;
      while true
        invariant n <= |rows|
        invariant vec == seq(n, i requires 0 <= i < n => DecodeRow(rows[i], wide as int))
        decreases |stream| - n
      {
        var row := if n < |stream| then stream[n] else None;
        if row == None {
          break;
        }
        var inner: seq<string> := [];
        for j := 0 to wide as int
          invariant inner == seq(j, k requires 0 <= k < j => Cbox.Decode(row.value[k]))
        {
          inner := inner + [Cbox.Decode(row.value[j])];
        }
        vec := vec + [inner];
        n := n + 1;
      }
      r := Ok(vec);
    }

    /** `raw_query_no_res`: send the query and report only whether it ran. */
    method RawQueryNoRes(query: string) returns (r: Result<()>)
      requires !conn.closed
      modifies conn
      ensures r == if conn.status(query) != 0 then Err(QueryFailed(query)) else Ok(())
      ensures conn.sent == old(conn.sent) + [query] && !conn.closed
    {
      var code := conn.Query(query);
      if code != 0 {
        r := Err(QueryFailed(query));
      } else {
        r := Ok(());
      }
    }

    /**
     * `switch_db`: send `use<name>;` (no space); a failure is reported naming the database.
     * The cached database name is left as it was, whatever the outcome.
     */
    method SwitchDb(newDb: string) returns (r: Result<()>)
      requires !conn.closed
      modifies conn
      ensures r == if conn.status("use" + newDb + ";") != 0 then Err(SwitchDbFailed(newDb)) else Ok(())
      ensures conn.sent == old(conn.sent) + ["use" + newDb + ";"] && !conn.closed
      ensures db == old(db)
    {
      var res := RawQueryNoRes("use" + newDb + ";");
      match res
      case Ok(o) => r := Ok(o);
      case Err(_) => r := Err(SwitchDbFailed(newDb));
    }

    /**
     * `get_tables_list`: run `show tables;` one column wide and keep the first column of every
     * row, same count and order; an error from the query is passed on unchanged.
     */
    method GetTablesList() returns (r: Result<seq<string>>)
      requires !conn.closed
      requires conn.status("show tables;") == 0 ==> AllReadable(FetchedRows(conn.results("show tables;")), 1)
      modifies conn
      ensures var rows := FetchedRows(conn.results("show tables;"));
        && (conn.status("show tables;") != 0 ==> r == Err(QueryFailed("show tables;")))
        && (conn.status("show tables;") == 0 ==>
              r.Ok? && |r.value| == |rows|
              && forall i :: 0 <= i < |rows| ==> r.value[i] == Cbox.Decode(rows[i][0]))
      ensures conn.sent == old(conn.sent) + ["show tables;"] && !conn.closed
    {
      var res := RawQuery("show tables;", 1);
      match res
      case Ok(rows) => r := Ok(Column0(rows));
      case Err(e) => r := Err(e);
    }

    /** `read_table_strings`: `raw_query` of `select * from <name>;` at the given width. */
    method ReadTableStrings(name: string, width: isize) returns (r: Result<seq<seq<string>>>)
      requires !conn.closed
      requires var q := "select * from " + name + ";";
        width >= 1 && conn.status(q) == 0 ==> AllReadable(FetchedRows(conn.results(q)), width as int)
      modifies conn
      ensures var q := "select * from " + name + ";";
        && r == RawQueryResult(q, width as int, conn.status(q), conn.results(q))
        && conn.sent == if width < 1 then old(conn.sent) else old(conn.sent) + [q]
      ensures !conn.closed
    {
      var query := "select * from " + name + ";";
      r := RawQuery(query, width);
    }

    /**
     * `create_table`: send `create table <name> <contents>;`; a failure is reported naming both.
     */
    method CreateTable(name: string, contents: string) returns (r: Result<()>)
      requires !conn.closed
      modifies conn
      ensures var q := "create table " + name + " " + contents + ";";
        && r == (if conn.status(q) != 0 then Err(CreateTableFailed(name, contents)) else Ok(()))
        && conn.sent == old(conn.sent) + [q]
      ensures !conn.closed
    {
      var res := RawQueryNoRes("create table " + name + " " + contents + ";");
      match res
      case Ok(o) => r := Ok(o);
      case Err(_) => r := Err(CreateTableFailed(name, contents));
    }

    /** `Drop::drop`: close the session, once. */
    method Drop()
      requires !conn.closed
      modifies conn
      ensures conn.closed && conn.sent == old(conn.sent)
    {
      conn.Close();
    }
  }
}
