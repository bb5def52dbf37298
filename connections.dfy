/** The connection object and the result object of
    pycovenantsql/connections.py, with the state they update in place. The
    transport is not called: each command takes the `Reply` the transport
    gives to its POST, and the POSTs made are recorded in the ghost trace
    `posts`. Each method is proved against the functions of the Protocol
    module. */
module Connections {

  import opened Wrappers
  import opened Json
  import opened Errors
  import opened Commands
  import opened Settings
  import opened Protocol

  /** One POST as the transport received it: the endpoint and the two form
      fields. */
  datatype Post = Post(uri: string, database: Option<string>, query: Bytes)

  /** `_resp` after a command that got past the closed guard: cleared before
      the POST, set to the reply if the transport answered. */
  function ResponseAfter(reply: Reply): Option<HttpResponse>
  {
    if reply.Answered? then Some(reply.response) else None
  }

  /** `_resp_json` after such a command: replaced only when the body decodes,
      otherwise the previous body stays. */
  function BodyAfter(previous: Option<JsonValue>, reply: Reply): Option<JsonValue>
  {
    if reply.Answered? && reply.response.json.Some? then reply.response.json else previous
  }

  /** `server_status` after `_read_ok_packet`: assigned as soon as the
      `success` member could be read, before either check. */
  function StatusAfterRead(previous: Option<JsonValue>, respJson: Option<JsonValue>): Option<JsonValue>
  {
    if SuccessFlag(respJson).Success? then Some(SuccessFlag(respJson).value) else previous
  }

  /** `server_status` after a whole command: `_read_ok_packet` runs only when
      the exchange succeeded. */
  function StatusAfter(previous: Option<JsonValue>, reply: Reply): Option<JsonValue>
  {
    match Exchange(reply)
    case Failure(_) => previous
    case Success((_, body)) => StatusAfterRead(previous, Some(body))
  }

  class Connection {
    const host: string
    const port: int
    const database: Option<string>
    const queryUri: string
    const execUri: string

    var closed: bool                      // `_closed`
    var sock: bool                        // `_sock`: True, or None (false)
    var resp: Option<HttpResponse>        // `_resp`
    var respJson: Option<JsonValue>       // `_resp_json`; None until first assigned
    var serverStatus: Option<JsonValue>   // `server_status`; None until first assigned
    var result: CovenantSQLResult?        // `_result`
    var affectedRows: Option<nat>         // `_affected_rows`
    ghost var posts: seq<Post>            // every POST made, in order

    /** The endpoint a command is posted to. */
    function Endpoint(sql: Bytes): string
    {
      if IsSelect(sql) then queryUri else execUri
    }

    ghost predicate Valid()
      reads this
    {
      && (closed ==> !sock)
      && (forall p :: p in posts ==> p.uri == Endpoint(p.query) && p.database == database)
      && (result != null ==> result.connection == this)
    }

    /** The state `__init__` leaves before it may connect
        (pycovenantsql/connections.py:85-94, :119-126). */
    constructor(s: Settings)
      requires s.queryUri == Uri(s.host, s.port, QueryPath)
      requires s.execUri == Uri(s.host, s.port, ExecPath)
      ensures Valid()
      ensures queryUri == Uri(host, port, QueryPath) && execUri == Uri(host, port, ExecPath)
      ensures host == s.host && port == s.port && database == s.database
      ensures queryUri == s.queryUri && execUri == s.execUri
      ensures !closed && !sock && resp.None? && respJson.None? && serverStatus.None?
      ensures result == null && affectedRows == Some(0) && posts == []
    {
      host, port, database := s.host, s.port, s.database;
      queryUri, execUri := s.queryUri, s.execUri;
      closed, sock := false, false;
      resp, respJson, serverStatus := None, None, None;
      result, affectedRows := null, Some(0);
      posts := [];
    }

    /** `Connection(...)`: the timeout checks raise ValueError before any
        POST; otherwise the connection is built and, unless deferred,
        connected with the probe `select 1;`. */
    static method Create(o: Options, reply: Reply) returns (r: Result<Connection>)
      ensures Configure(o).Failure? ==> r == Failure(Configure(o).error)
      ensures Configure(o).Success? && o.deferConnect ==>
                && r.Success? && fresh(r.value) && r.value.Valid()
                && !r.value.closed && !r.value.sock && r.value.posts == []
                && r.value.resp.None? && r.value.respJson.None? && r.value.serverStatus.None?
                && r.value.result == null && r.value.affectedRows == Some(0)
      ensures Configure(o).Success? && !o.deferConnect ==>
                && r.ToOutcome() == CommandResult(reply).ToOutcome()
                && (r.Success? ==>
                      && fresh(r.value) && r.value.Valid() && !r.value.closed && r.value.sock
                      && r.value.posts == [Post(r.value.queryUri, o.database, Encode(Probe))]
                      && r.value.resp == ResponseAfter(reply)
                      && r.value.respJson == BodyAfter(None, reply)
                      && r.value.serverStatus == StatusAfter(None, reply)
                      && r.value.result == null && r.value.affectedRows == Some(0))
      ensures r.Success? ==> && r.value.host == Configure(o).value.host
                             && r.value.port == Configure(o).value.port
                             && r.value.database == o.database
                             && r.value.queryUri == Configure(o).value.queryUri
                             && r.value.execUri == Configure(o).value.execUri
    {
      var s := Configure(o);
      if s.Failure? {
        return Failure(s.error);
      }
      var c := new Connection(s.value);
      if !o.deferConnect {
        var connected := c.Connect(reply);
        if connected.Fail? {
          return Failure(connected.error);
        }
      }
      return Success(c);
    }

    /** `connect()`: reopens, takes the transport handle and validates the
        reply to the probe `select 1;`, which goes to the query endpoint. */
    method Connect(reply: Reply) returns (o: Outcome)
      requires Valid()
      modifies this
      ensures Valid()
      ensures !closed && sock
      ensures posts == old(posts) + [Post(queryUri, database, Encode(Probe))]
      ensures resp == ResponseAfter(reply) && respJson == BodyAfter(old(respJson), reply)
      ensures serverStatus == StatusAfter(old(serverStatus), reply)
      ensures o == CommandResult(reply).ToOutcome()
      ensures result == old(result) && affectedRows == old(affectedRows)
    {
      closed := false;
      sock := true;
      ProbeIsSelect();
      o := ExecuteCommand(Encode(Probe), reply);
      if o.Fail? {
        return;
      }
      var ok := ReadOkPacket();
      o := ok.ToOutcome();
    }

    /** `close()`: strict, not idempotent. */
    method Close() returns (o: Outcome)
      requires Valid()
      modifies this`closed, this`sock
      ensures Valid() && closed
      ensures old(closed) ==> o == Fail(Error("Already closed")) && sock == old(sock)
      ensures !old(closed) ==> o == Pass && !sock
    {
      if closed {
        return Fail(Error("Already closed"));
      }
      sock := false;
      closed := true;
      o := Pass;
    }

    /** `commit()`: the command `COMMIT`, which goes to the exec endpoint. */
    method Commit(reply: Reply) returns (o: Outcome)
      requires Valid()
      modifies this
      ensures Valid()
      ensures closed == old(closed) && sock == old(sock)
      ensures result == old(result) && affectedRows == old(affectedRows)
      ensures old(closed) ==> o == Fail(InterfaceError("Connection closed", NoDetail)) && unchanged(this)
      ensures !old(closed) ==>
                && posts == old(posts) + [Post(execUri, database, Encode(CommitCommand))]
                && resp == ResponseAfter(reply) && respJson == BodyAfter(old(respJson), reply)
                && serverStatus == StatusAfter(old(serverStatus), reply)
                && o == CommandResult(reply).ToOutcome()
    {
      CommitIsNotSelect();
      o := ExecuteCommand(Encode(CommitCommand), reply);
      if o.Fail? {
        return;
      }
      var ok := ReadOkPacket();
      o := ok.ToOutcome();
    }

    /** `rollback()`: the command `ROLLBACK`, which goes to the exec endpoint. */
    method Rollback(reply: Reply) returns (o: Outcome)
      requires Valid()
      modifies this
      ensures Valid()
      ensures closed == old(closed) && sock == old(sock)
      ensures result == old(result) && affectedRows == old(affectedRows)
      ensures old(closed) ==> o == Fail(InterfaceError("Connection closed", NoDetail)) && unchanged(this)
      ensures !old(closed) ==>
                && posts == old(posts) + [Post(execUri, database, Encode(RollbackCommand))]
                && resp == ResponseAfter(reply) && respJson == BodyAfter(old(respJson), reply)
                && serverStatus == StatusAfter(old(serverStatus), reply)
                && o == CommandResult(reply).ToOutcome()
    {
      RollbackIsNotSelect();
      o := ExecuteCommand(Encode(RollbackCommand), reply);
      if o.Fail? {
        return;
      }
      var ok := ReadOkPacket();
      o := ok.ToOutcome();
    }

    /** `query(sql)` on a command already encoded to bytes: returns the number
        of rows read, or None for an exec result. */
    method Query(sql: Bytes, reply: Reply) returns (r: Result<Option<nat>>)
      requires Valid()
      modifies this
      ensures Valid()
      ensures closed == old(closed) && sock == old(sock)
      ensures old(closed) ==> r == Failure(InterfaceError("Connection closed", NoDetail)) && unchanged(this)
      ensures !old(closed) ==>
                && posts == old(posts) + [Post(Endpoint(sql), database, sql)]
                && resp == ResponseAfter(reply) && respJson == BodyAfter(old(respJson), reply)
                && serverStatus == StatusAfter(old(serverStatus), reply)
      ensures !old(closed) && QueryResult(reply).Failure? ==>
                && r == Failure(QueryResult(reply).error)
                && affectedRows == old(affectedRows)
                && result == (if Exchange(reply).Failure? then old(result) else null)
      ensures !old(closed) && QueryResult(reply).Success? ==>
                && r == Success(QueryResult(reply).value.affectedRows)
                && affectedRows == QueryResult(reply).value.affectedRows
                && result != null && fresh(result)
                && result.affectedRows == QueryResult(reply).value.affectedRows
                && result.rows == QueryResult(reply).value.rows
    {
      var executed := ExecuteCommand(sql, reply);
      if executed.Fail? {
        if !old(closed) {
          ExchangeFailuresAreInterfaceErrors(reply);
        }
        return Failure(executed.error);
      }
      assert Exchange(reply).Success?;
      ghost var response := Exchange(reply).value.0;
      assert respJson == Some(Exchange(reply).value.1) && resp == Some(response);
      assert ReadQuery(respJson, resp) == QueryResult(reply);
      assert StatusAfterRead(serverStatus, respJson) == StatusAfter(old(serverStatus), reply);
      r := ReadQueryResult();
      if r.Success? {
        affectedRows := r.value;
      }
    }

    /** `_execute_command`: the closed guard, then the previous reply is
        dropped and the command is posted to the endpoint its routing test
        chooses. */
    method ExecuteCommand(sql: Bytes, reply: Reply) returns (o: Outcome)
      requires Valid()
      modifies this`resp, this`respJson, this`posts
      ensures Valid()
      ensures old(closed) ==>
                && o == Fail(InterfaceError("Connection closed", NoDetail))
                && resp == old(resp) && respJson == old(respJson) && posts == old(posts)
      ensures !old(closed) ==>
                && posts == old(posts) + [Post(Endpoint(sql), database, sql)]
                && resp == ResponseAfter(reply) && respJson == BodyAfter(old(respJson), reply)
                && o == Exchange(reply).ToOutcome()
    {
      if closed {
        return Fail(InterfaceError("Connection closed", NoDetail));
      }
      if resp.Some? {
        resp := None;
      }
      posts := posts + [Post(Endpoint(sql), database, sql)];
      match reply
      case Refused(cause) =>
        return Fail(InterfaceError("Request proxy err: " + cause, NoDetail));
      case Answered(response) =>
        resp := Some(response);
        match response.json
        case None =>
          return Fail(InterfaceError("Proxy return invalid data", Reason(response.reason)));
        case Some(body) =>
          respJson := Some(body);
          return Pass;
    }

    /** `_read_query_result`: the current result is dropped before
        validation and replaced only by a result read in full. */
    method ReadQueryResult() returns (r: Result<Option<nat>>)
      requires Valid()
      modifies this`result, this`serverStatus
      ensures Valid()
      ensures serverStatus == StatusAfterRead(old(serverStatus), respJson)
      ensures ReadQuery(respJson, resp).Failure? ==>
                r == Failure(ReadQuery(respJson, resp).error) && result == null
      ensures ReadQuery(respJson, resp).Success? ==>
                && r == Success(ReadQuery(respJson, resp).value.affectedRows)
                && result != null && fresh(result)
                && result.affectedRows == ReadQuery(respJson, resp).value.affectedRows
                && result.rows == ReadQuery(respJson, resp).value.rows
    {
      result := null;
      var ok := ReadOkPacket();
      if ok.Failure? {
        return Failure(ok.error);
      }
      var fetched := new CovenantSQLResult(this);
      var read := fetched.Read();
      if read.Fail? {
        return Failure(read.error);
      }
      result := fetched;
      return Success(fetched.affectedRows);
    }

    /** `_read_ok_packet`: returns the truthy `success` member, or raises. */
    method ReadOkPacket() returns (r: Result<JsonValue>)
      modifies this`serverStatus
      ensures r == OkPacket(respJson, resp)
      ensures serverStatus == StatusAfterRead(old(serverStatus), respJson)
    {
      if respJson.None? {
        return Failure(AttributeError("_resp_json"));
      }
      var flag := Subscript(respJson.value, "success");
      if flag.Failure? {
        return Failure(flag.error);
      }
      serverStatus := Some(flag.value);
      if !Truthy(flag.value) {
        var status := Subscript(respJson.value, "status");
        if status.Failure? {
          return Failure(status.error);
        }
        return Failure(OperationalError("Syntax error", Status(status.value)));
      }
      if resp.None? {
        return Failure(AttributeError("ok"));
      }
      if !resp.value.ok {
        return Failure(OperationalError("Proxy return false", Reason(resp.value.reason)));
      }
      return Success(flag.value);
    }
  }

  /** `CovenantSQLResult`: the rows and the row count read from the
      connection's current body. */
  class CovenantSQLResult {
    const connection: Connection
    var affectedRows: Option<nat>
    var rows: Option<seq<seq<JsonValue>>>

    constructor(connection: Connection)
      ensures this.connection == connection
      ensures affectedRows.None? && rows.None?
    {
      this.connection := connection;
      affectedRows, rows := None, None;
    }

    /** `read()`: a null data member leaves the result empty; otherwise the
        count is set first and the rows once every line has been copied. */
    method Read() returns (o: Outcome)
      modifies this
      ensures o == ReadData(connection.respJson).ToOutcome()
      ensures o.Pass? && DataMember(connection.respJson) == Success(JNull) ==>
                affectedRows == old(affectedRows) && rows == old(rows)
      ensures o.Pass? && DataMember(connection.respJson) != Success(JNull) ==>
                Table(affectedRows, rows) == ReadData(connection.respJson).value
      ensures o.Fail? ==> rows == old(rows)
      ensures o.Fail? ==> affectedRows == CountOnFailure(old(affectedRows), connection.respJson)
    {
      var data := DataMember(connection.respJson);
      if data.Failure? {
        return Fail(data.error);
      }
      if data.value == JNull {
        return Pass;
      }
      var lines := RowLines(data.value);
      if lines.Failure? {
        return Fail(lines.error);
      }
      affectedRows := Some(|lines.value|);
      var collected := CollectRows(lines.value);
      if collected.Failure? {
        return Fail(collected.error);
      }
      rows := Some(collected.value);
      return Pass;
    }
  }

  /** `affected_rows` after a `read` that raised: the count is assigned
      before the lines are copied, so it is set when the failure came from a
      line; otherwise it is untouched. */
  function CountOnFailure(previous: Option<nat>, respJson: Option<JsonValue>): (r: Option<nat>)
    ensures DataMember(respJson).Failure? || DataMember(respJson).value == JNull ==> r == previous
    ensures var data := DataMember(respJson);
            data.Success? && data.value != JNull ==>
              var rows := Subscript(data.value, "rows");
              r == (if rows.Success? && Iterate(rows.value).Some? then Some(|Iterate(rows.value).value|) else previous)
  {
    var data := DataMember(respJson);
    if data.Success? && data.value != JNull && RowLines(data.value).Success?
    then Some(|RowLines(data.value).value|)
    else previous
  }

  /** After `close()`, `query`, `commit` and `rollback` raise InterfaceError
      without posting anything, and a second `close()` raises Error. */
  method UseAfterClose(c: Connection, sql: Bytes, reply: Reply)
    returns (closing: Outcome, query: Result<Option<nat>>, commit: Outcome, rollback: Outcome, again: Outcome)
    requires c.Valid() && !c.closed
    modifies c
    ensures closing == Pass
    ensures query == Failure(InterfaceError("Connection closed", NoDetail))
    ensures commit == Fail(InterfaceError("Connection closed", NoDetail))
    ensures rollback == Fail(InterfaceError("Connection closed", NoDetail))
    ensures again == Fail(Error("Already closed"))
    ensures c.Valid() && c.closed && !c.sock && c.posts == old(c.posts)
  {
    closing := c.Close();
    query := c.Query(sql, reply);
    commit := c.Commit(reply);
    rollback := c.Rollback(reply);
    again := c.Close();
  }

  /** The nested loops of `read` (pycovenantsql/connections.py:270-276):
      each line's columns are appended to a row, each row to the result. */
  method CollectRows(lines: seq<JsonValue>) returns (r: Result<seq<seq<JsonValue>>>)
    ensures r == Materialize(lines)
  {
    var collected: seq<seq<JsonValue>> := [];
    for i := 0 to |lines|
      invariant forall k :: 0 <= k < i ==> Iterate(lines[k]).Some?
      invariant |collected| == i
      invariant forall k :: 0 <= k < i ==> collected[k] == Iterate(lines[k]).value
    {
      var columns := Iterate(lines[i]);
      if columns.None? {
        return Failure(TypeError);
      }
      var row: seq<JsonValue> := [];
      for j := 0 to |columns.value|
        invariant row == columns.value[..j]
      {
        row := row + [columns.value[j]];
      }
      collected := collected + [row];
    }
    assert Materialize(lines).Success?;
    assert Materialize(lines).value == collected;
    r := Success(collected);
  }
}
