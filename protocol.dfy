/** The request/response protocol of a connection, as pure functions: what
    one POST yields (pycovenantsql/connections.py:211-224), the two-stage
    envelope validation of `_read_ok_packet` (:235-243) and the
    materialisation of `CovenantSQLResult.read` (:260-276). The methods of
    the Connections module are proved against these functions. */
module Protocol {

  import opened Wrappers
  import opened Json
  import opened Errors

  /** The reply object of the HTTP library: its `ok` flag, its reason phrase
      and what its `json()` decodes the body to (None when the body is not
      JSON). */
  datatype HttpResponse = HttpResponse(ok: bool, reason: string, json: Option<JsonValue>)

  /** What the transport does with one POST: raise (connection refused,
      timeout, TLS failure, ...) or answer. */
  datatype Reply = Refused(cause: string) | Answered(response: HttpResponse)

  /** The materialised result of a command: `affected_rows` and `rows` of a
      `CovenantSQLResult`, None standing for Python's `None`. */
  datatype Table = Table(affectedRows: Option<nat>, rows: Option<seq<seq<JsonValue>>>)

  /** Python's `v[key]` on a decoded value: a dict lookup, KeyError when the
      key is absent and TypeError when `v` is not a dict. */
  function Subscript(v: JsonValue, key: string): (r: Result<JsonValue>)
    ensures r.Success? <==> v.JObject? && Lookup(v.members, key).Some?
    ensures r.Success? ==> (key, r.value) in v.members
    ensures r.Failure? ==> r.error == (if v.JObject? then KeyError(key) else TypeError)
  {
    match v
    case JObject(members) =>
      (match Lookup(members, key)
       case Some(x) => Success(x)
       case None => Failure(KeyError(key)))
    case _ => Failure(TypeError)
  }

  /** The POST itself (:213-224): a transport failure becomes an
      InterfaceError naming its cause, a body that does not decode becomes an
      InterfaceError carrying the reason phrase; otherwise the reply and its
      decoded body. */
  function Exchange(reply: Reply): (r: Result<(HttpResponse, JsonValue)>)
    ensures r.Success? <==> reply.Answered? && reply.response.json.Some?
    ensures r.Success? ==> r.value == (reply.response, reply.response.json.value)
    ensures reply.Refused? ==> r == Failure(InterfaceError("Request proxy err: " + reply.cause, NoDetail))
    ensures reply.Answered? && reply.response.json.None? ==>
              r == Failure(InterfaceError("Proxy return invalid data", Reason(reply.response.reason)))
  {
    match reply
    case Refused(cause) => Failure(InterfaceError("Request proxy err: " + cause, NoDetail))
    case Answered(response) =>
      match response.json
      case None => Failure(InterfaceError("Proxy return invalid data", Reason(response.reason)))
      case Some(body) => Success((response, body))
  }

  /** `self._resp_json["success"]`, where the attribute may never have been
      assigned. */
  function SuccessFlag(respJson: Option<JsonValue>): (r: Result<JsonValue>)
    ensures respJson.None? ==> r == Failure(AttributeError("_resp_json"))
    ensures respJson.Some? ==> r == Subscript(respJson.value, "success")
    ensures r.Success? <==> respJson.Some? && respJson.value.JObject?
                            && Lookup(respJson.value.members, "success").Some?
  {
    match respJson
    case None => Failure(AttributeError("_resp_json"))
    case Some(body) => Subscript(body, "success")
  }

  /** The envelope is accepted: a dict whose `success` member is true in
      Python's sense, delivered by a reply whose `ok` flag is set. */
  predicate Accepted(respJson: Option<JsonValue>, resp: Option<HttpResponse>)
  {
    && respJson.Some?
    && SuccessFlag(respJson).Success?
    && Truthy(SuccessFlag(respJson).value)
    && resp.Some?
    && resp.value.ok
  }

  /** `_read_ok_packet`: first the envelope's own `success` flag, whose
      failure carries the envelope's `status`; only then the transport's
      `ok` flag, whose failure carries the reason phrase. */
  function OkPacket(respJson: Option<JsonValue>, resp: Option<HttpResponse>): (r: Result<JsonValue>)
    ensures r.Success? <==> Accepted(respJson, resp)
    ensures r.Success? ==> Truthy(r.value) && SuccessFlag(respJson) == r
    ensures r.Failure? && r.error.OperationalError? ==>
              && SuccessFlag(respJson).Success?
              && (r.error.msg == "Syntax error" <==> !Truthy(SuccessFlag(respJson).value))
  {
    match SuccessFlag(respJson)
    case Failure(e) => Failure(e)
    case Success(flag) =>
      if !Truthy(flag) then
        match Subscript(respJson.value, "status")
        case Failure(e) => Failure(e)
        case Success(status) => Failure(OperationalError("Syntax error", Status(status)))
      else if resp.None? then
        Failure(AttributeError("ok"))
      else if !resp.value.ok then
        Failure(OperationalError("Proxy return false", Reason(resp.value.reason)))
      else
        Success(flag)
  }

  /** An envelope whose `success` is false fails with its `status`, whatever
      the transport flag says: the envelope is checked first. */
  lemma RejectedEnvelopeWins(body: JsonValue, resp: Option<HttpResponse>)
    requires Subscript(body, "success").Success? && !Truthy(Subscript(body, "success").value)
    requires Subscript(body, "status").Success?
    ensures OkPacket(Some(body), resp)
            == Failure(OperationalError("Syntax error", Status(Subscript(body, "status").value)))
  {
  }

  /** A successful envelope in a reply whose `ok` flag is clear fails with the
      reply's reason phrase. */
  lemma TransportFlagChecked(body: JsonValue, resp: HttpResponse)
    requires Subscript(body, "success").Success? && Truthy(Subscript(body, "success").value)
    requires !resp.ok
    ensures OkPacket(Some(body), Some(resp)) == Failure(OperationalError("Proxy return false", Reason(resp.reason)))
  {
  }

  /** The lines of `data['rows']` that `read` counts and loops over; None
      stands for a Python `None` data member (an exec result). */
  function RowLines(data: JsonValue): (r: Result<seq<JsonValue>>)
    requires data != JNull
    ensures r.Success? <==> Subscript(data, "rows").Success? && Iterate(Subscript(data, "rows").value).Some?
    ensures r.Success? ==> r.value == Iterate(Subscript(data, "rows").value).value
    ensures r.Failure? ==> r.error.KeyError? || r.error.TypeError?
  {
    match Subscript(data, "rows")
    case Failure(e) => Failure(e)
    case Success(rows) =>
      match Iterate(rows)
      case None => Failure(TypeError)
      case Some(lines) => Success(lines)
  }

  /** The tuple of tuples built by the nested loops of `read`: line by line,
      the columns a Python `for` loop visits, in order. A line that cannot be
      iterated raises TypeError. */
  function Materialize(lines: seq<JsonValue>): (r: Result<seq<seq<JsonValue>>>)
    ensures r.Success? <==> forall i :: 0 <= i < |lines| ==> Iterate(lines[i]).Some?
    ensures r.Success? ==> |r.value| == |lines|
                           && forall i :: 0 <= i < |lines| ==> r.value[i] == Iterate(lines[i]).value
    ensures r.Failure? ==> r.error == TypeError
  {
    if lines == [] then Success([])
    else
      match Iterate(lines[0])
      case None => Failure(TypeError)
      case Some(columns) =>
        match Materialize(lines[1..])
        case Failure(e) => Failure(e)
        case Success(rest) =>
          assert forall i :: 1 <= i < |lines| ==> lines[i] == lines[1..][i - 1];
          Success([columns] + rest)
  }

  /** `self.connection._resp_json["data"]` under the bare `except` of
      `read`: any failure, the missing attribute included, becomes
      "Unsupported response format". */
  function DataMember(respJson: Option<JsonValue>): (r: Result<JsonValue>)
    ensures r.Success? <==> respJson.Some? && Subscript(respJson.value, "data").Success?
    ensures r.Success? ==> r == Subscript(respJson.value, "data")
    ensures r.Failure? ==> r.error == InterfaceError("Unsupported response format", NoDetail)
  {
    match respJson
    case None => Failure(InterfaceError("Unsupported response format", NoDetail))
    case Some(body) =>
      match Subscript(body, "data")
      case Failure(_) => Failure(InterfaceError("Unsupported response format", NoDetail))
      case Success(data) => Success(data)
  }

  /** What `CovenantSQLResult.read` leaves in a fresh result: nothing for a
      null data member (an exec result), otherwise the materialised rows and
      their number. */
  function ReadData(respJson: Option<JsonValue>): (r: Result<Table>)
    ensures r.Success? ==> (r.value.rows.Some? <==> r.value.affectedRows.Some?)
    ensures r.Success? && r.value.rows.Some? ==> r.value.affectedRows == Some(|r.value.rows.value|)
    ensures r.Success? && r.value.rows.None? <==> DataMember(respJson) == Success(JNull)
    ensures DataMember(respJson).Failure? ==> r == Failure(InterfaceError("Unsupported response format", NoDetail))
    ensures DataMember(respJson).Success? && DataMember(respJson).value != JNull ==>
              var lines := RowLines(DataMember(respJson).value);
              && (r.Success? <==> lines.Success? && Materialize(lines.value).Success?)
              && (r.Success? ==> r.value == Table(Some(|lines.value|), Some(Materialize(lines.value).value)))
              && (r.Failure? ==> r.error.KeyError? || r.error.TypeError?)
  {
    match DataMember(respJson)
    case Failure(e) => Failure(e)
    case Success(data) =>
      if data == JNull then Success(Table(None, None))
      else
        match RowLines(data)
        case Failure(e) => Failure(e)
        case Success(lines) =>
          match Materialize(lines)
          case Failure(e) => Failure(e)
          case Success(rows) => Success(Table(Some(|lines|), Some(rows)))
  }

  /** The whole of `commit`, `rollback` and `connect` after the closed guard:
      one exchange, then validation. */
  function CommandResult(reply: Reply): (r: Result<JsonValue>)
    ensures r.Success? <==> reply.Answered? && reply.response.json.Some?
                            && Accepted(reply.response.json, Some(reply.response))
    ensures r.Success? ==> reply.response.ok && Truthy(r.value)
  {
    match Exchange(reply)
    case Failure(e) => Failure(e)
    case Success((response, body)) => OkPacket(Some(body), Some(response))
  }

  /** `_read_query_result` on the stored reply and body: validation, then
      materialisation. */
  function ReadQuery(respJson: Option<JsonValue>, resp: Option<HttpResponse>): (r: Result<Table>)
    ensures r.Success? ==> Accepted(respJson, resp)
    ensures Accepted(respJson, resp) ==> r == ReadData(respJson)
    ensures !Accepted(respJson, resp) ==> r == Failure(OkPacket(respJson, resp).error)
  {
    match OkPacket(respJson, resp)
    case Failure(e) => Failure(e)
    case Success(_) => ReadData(respJson)
  }

  /** The whole of `query` after the closed guard: one exchange, validation,
      then materialisation. */
  function QueryResult(reply: Reply): (r: Result<Table>)
    ensures r.Success? <==> && reply.Answered? && reply.response.json.Some?
                            && Accepted(reply.response.json, Some(reply.response))
                            && ReadData(reply.response.json).Success?
    ensures r.Success? ==> reply.response.ok && CommandResult(reply).Success?
                           && r == ReadData(reply.response.json)
  {
    match Exchange(reply)
    case Failure(e) => Failure(e)
    case Success((response, body)) => ReadQuery(Some(body), Some(response))
  }

  /** A transport failure is reported as an InterfaceError wrapping its cause
      and never reaches validation; a body that does not decode is an
      InterfaceError too, never an OperationalError. */
  lemma ExchangeFailuresAreInterfaceErrors(reply: Reply)
    requires Exchange(reply).Failure?
    ensures CommandResult(reply) == Failure(Exchange(reply).error)
    ensures QueryResult(reply) == Failure(Exchange(reply).error)
    ensures Exchange(reply).error.InterfaceError?
  {
  }

  /** A query whose data member is absent fails with an InterfaceError; one
      whose data member is null succeeds with neither rows nor a count. */
  lemma MissingAndNullData(response: HttpResponse, members: seq<(string, JsonValue)>)
    requires response.ok && response.json == Some(JObject(members))
    requires Lookup(members, "success") == Some(JBool(true))
    ensures Lookup(members, "data").None? ==>
              QueryResult(Answered(response)) == Failure(InterfaceError("Unsupported response format", NoDetail))
    ensures Lookup(members, "data") == Some(JNull) ==>
              QueryResult(Answered(response)) == Success(Table(None, None))
  {
  }

  /** In any envelope whose `data` member is a dict whose `rows` member is a
      list of lists, the materialised rows are those lists, in order and
      column for column, and the count is their number. */
  lemma {:induction false} ListRowsRoundTrip(body: seq<(string, JsonValue)>, dm: seq<(string, JsonValue)>,
                                             lines: seq<seq<JsonValue>>)
    requires Lookup(body, "data") == Some(JObject(dm))
    requires Lookup(dm, "rows") == Some(JArray(seq(|lines|, i requires 0 <= i < |lines| => JArray(lines[i]))))
    ensures ReadData(Some(JObject(body))) == Success(Table(Some(|lines|), Some(lines)))
  {
    var wrapped := seq(|lines|, i requires 0 <= i < |lines| => JArray(lines[i]));
    var data := JObject(dm);
    assert RowLines(data) == Success(wrapped);
    var m := Materialize(wrapped);
    assert m.Success?;
    assert m.value == lines;
  }

  /** The envelope {"success": true, "data": {"rows": [[1, "a"], [2, "b"]]}}
      reads as two rows, (1, "a") then (2, "b"). */
  lemma TwoRowExample()
    ensures var body := JObject([("success", JBool(true)),
                                 ("data", JObject([("rows", JArray([JArray([JNumber(1), JString("a")]),
                                                                    JArray([JNumber(2), JString("b")])]))]))]);
            QueryResult(Answered(HttpResponse(true, "OK", Some(body))))
            == Success(Table(Some(2), Some([[JNumber(1), JString("a")], [JNumber(2), JString("b")]])))
  {
    var lines := [[JNumber(1), JString("a")], [JNumber(2), JString("b")]];
    var rows := JArray([JArray([JNumber(1), JString("a")]), JArray([JNumber(2), JString("b")])]);
    var dm := [("rows", rows)];
    var body := [("success", JBool(true)), ("data", JObject(dm))];
    assert rows == JArray(seq(|lines|, i requires 0 <= i < |lines| => JArray(lines[i])));
    assert Lookup(body, "data") == Some(JObject(dm));
    ListRowsRoundTrip(body, dm, lines);
  }
}
