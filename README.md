# CovenantSQL Python driver: connection protocol

This project models the connection object of the CovenantSQL Python driver
(`pycovenantsql/connections.py`). The driver talks to a CovenantSQL HTTPS
proxy one request at a time, behind the Python DB-API 2.0 connection
interface (PEP 249, "Connection Objects"). The model covers four things:

- the connection's lifecycle: `connect`, the strict `close` and the closed
  guard that every command passes first;
- command dispatch: a command is posted to `/v1/query` when its bytes,
  lower-cased and stripped of leading whitespace, start with `select`, and
  to `/v1/exec` otherwise;
- the two-stage validation of the reply (`_read_ok_packet`): the JSON
  `success` member first, then the HTTP reply's `ok` flag;
- the materialisation of `data.rows` into a tuple of tuples
  (`CovenantSQLResult.read`).

It also covers the constructor's pure part: the host and port defaults,
the two endpoint URIs and the timeout bounds.

Layout, one module per file:

- `wrappers.dfy` (`Wrappers`): `Option`.
- `json.dfy` (`Json`): the decoded JSON value. It also gives the three Python
  operations the driver applies to that value: truth testing, member lookup
  and what a `for` loop visits.
- `errors.dfy` (`Errors`): the exceptions raised and the `Result`/`Outcome`
  types that carry them.
- `commands.dfy` (`Commands`): commands as bytes, `bytes.lower()`,
  `bytes.lstrip()` and the routing test.
- `settings.dfy` (`Settings`): the constructor's defaults, URIs and timeout
  checks.
- `protocol.dfy` (`Protocol`): pure functions that say what one exchange,
  the validation and the materialisation yield.
- `connections.dfy` (`Connections`): the classes `Connection` and
  `CovenantSQLResult`. Their methods update fields in place, as the Python
  methods do, and are proved against the `Protocol` functions.

The transport is a parameter. Each command takes the `Reply` that the
transport gives to its POST. A reply is either `Refused(cause)`, for the
exception the HTTP library raises, or `Answered(HttpResponse(ok, reason,
json))`. Here `json` is what the reply's `json()` decodes the body to, or
None when the body is not JSON. The POSTs a connection makes are recorded
in the ghost field `posts`, so contracts can say what was posted and where.

Behaviour of the code a reader may not expect; the model keeps each point:

- `connect()` sets the closed flag back to false, so a closed connection can
  be reopened: `Connect` ensures `!closed` from any state.
- An exec result (`data` is null) leaves `affected_rows` as `None`.
  `query()` then returns `None` and stores it in `_affected_rows`.
- A failed query does not always leave the previous result in place.
  `_read_query_result` clears `_result` before validating. So a query that
  fails validation or materialisation leaves `_result` as `None`. A query
  whose POST or decoding fails keeps the old result. `commit`, `rollback`
  and `connect` never touch `_result`.
- A rejected envelope with no `status` member raises Python's `KeyError`. A reply body that is JSON but not an object
  raises `TypeError` in `_read_ok_packet`.
- `_resp_json` is not cleared when a new command starts. A reply whose body
  does not decode leaves the previous body in place.
- The read and write timeout checks reject 0, but their message says
  "should be >= 0".

## Model

| member | source | states |
|---|---|---|
| Settings.TimeoutError | pycovenantsql/connections.py:104-112 | no error exactly when 0 < connect_timeout <= 31536000 and each given read/write timeout is > 0; connect_timeout is checked first; every error is a ValueError |
| Settings.Configure | pycovenantsql/connections.py:85-112 | fails (with ValueError) exactly when a timeout is out of bounds; otherwise keeps the defaulted host and port and the query and exec URIs built from them |
| Settings.EffectiveHost | pycovenantsql/connections.py:88 | the host is "localhost" exactly when none, an empty one or "localhost" itself was given; any other host is kept |
| Settings.EffectivePort | pycovenantsql/connections.py:89 | port 0 (the default) becomes 11108; any other port is kept; the result is never 0 |
| Settings.NatToDecimal | pycovenantsql/connections.py:93-94 | `str(n)` of a natural number is non-empty and starts with a digit |
| Settings.IntToDecimal | pycovenantsql/connections.py:93-94 | `str(port)` is non-empty and starts with '-' exactly when the port is negative |
| Settings.Uri | pycovenantsql/connections.py:93-94 | a URI is longer than its scheme, host, colon and path together: the port always contributes at least one character |
| Settings.NatToDecimalRoundTrip | pycovenantsql/connections.py:93-94 | `str(port)` is a non-empty digit string with no leading zero whose decimal value is the port |
| Settings.UriParts | pycovenantsql/connections.py:93-94 | a URI splits back into "https://", the host, ':', the port's digits and the path |
| Settings.EndpointsDiffer | pycovenantsql/connections.py:93-94 | the query URI and the exec URI of one host and port always differ |
| Settings.DefaultEndpoints | pycovenantsql/connections.py:88-94 | with no host and no port the endpoints are https://localhost:11108/v1/query and /v1/exec |
| Commands.Lower | pycovenantsql/connections.py:214 | `bytes.lower()` keeps the length; byte by byte it maps only ASCII capitals |
| Commands.LStrip | pycovenantsql/connections.py:214 | `bytes.lstrip()` never lengthens its input |
| Commands.IsSelect | pycovenantsql/connections.py:214 | `sql.lower().lstrip().startswith(b'select')`; a command that passes has at least six bytes |
| Commands.LStripDropsLeadingSpace | pycovenantsql/connections.py:214 | `lstrip()` removes exactly the leading run of ASCII whitespace: what it drops is whitespace, what it keeps does not start with whitespace |
| Commands.IsSelectCharacterized | pycovenantsql/connections.py:214-217 | a command routes to the query endpoint if and only if, after some run of whitespace, its next six bytes spell `select` in any mix of cases |
| Commands.ProbeIsSelect | pycovenantsql/connections.py:133 | the probe `select 1;` of `connect` routes to the query endpoint |
| Commands.CommitIsNotSelect | pycovenantsql/connections.py:157 | `COMMIT` routes to the exec endpoint |
| Commands.RollbackIsNotSelect | pycovenantsql/connections.py:167 | `ROLLBACK` routes to the exec endpoint |
| Commands.PaddedUpperCaseSelect | pycovenantsql/connections.py:214-215 | `  SELECT 1` routes to the query endpoint |
| Commands.InsertIsNotSelect | pycovenantsql/connections.py:216-217 | `insert into t values (1)` routes to the exec endpoint |
| Json.Iterate | pycovenantsql/connections.py:271-274 | a `for` loop visits a list's elements, a string's characters or a dict's keys in order, and cannot iterate anything else |
| Json.Truthy | pycovenantsql/connections.py:237 | `not server_status`: None is false, and a list, string or dict is true exactly when a `for` loop over it visits something |
| Json.Lookup | pycovenantsql/connections.py:236 | a dict lookup finds a value exactly when some member has the key, and the value found is stored under that key |
| Protocol.Subscript | pycovenantsql/connections.py:236 | `v[key]` succeeds exactly on a dict holding the key and yields a value stored under it; otherwise KeyError on a dict, TypeError on anything else |
| Protocol.Exchange | pycovenantsql/connections.py:213-224 | succeeds exactly when the transport answered with a decodable body; a transport failure is InterfaceError "Request proxy err: " + cause; an undecodable body is InterfaceError carrying the reason phrase |
| Protocol.SuccessFlag | pycovenantsql/connections.py:236 | `self._resp_json["success"]`: AttributeError when no body was ever stored, else the subscript; it succeeds exactly on a dict holding `success` |
| Protocol.OkPacket | pycovenantsql/connections.py:235-243 | accepts exactly when `success` is truthy and the reply is ok, and then returns `success`; an OperationalError says "Syntax error" exactly when `success` was falsy |
| Protocol.RejectedEnvelopeWins | pycovenantsql/connections.py:236-238 | a falsy `success` raises OperationalError("Syntax error", status) whatever the transport flag is |
| Protocol.TransportFlagChecked | pycovenantsql/connections.py:240-241 | a truthy `success` in a reply that is not ok raises OperationalError("Proxy return false", reason) |
| Protocol.DataMember | pycovenantsql/connections.py:261-264 | any failure to read `data` (missing body or key, non-dict body) is InterfaceError "Unsupported response format" |
| Protocol.RowLines | pycovenantsql/connections.py:269-271 | the lines counted and looped over are what iterating `data['rows']` visits; failures are KeyError or TypeError |
| Protocol.Materialize | pycovenantsql/connections.py:270-276 | succeeds exactly when every line can be iterated; then there is one tuple per line, in order, and the i-th tuple holds the i-th line's columns; otherwise TypeError |
| Protocol.ReadData | pycovenantsql/connections.py:260-276 | nothing is set exactly when `data` is null; a missing `data` is InterfaceError "Unsupported response format"; otherwise it succeeds exactly when `data['rows']` can be iterated and so can each of its lines, and then the count is `len(data['rows'])` and the rows are the materialised lines; its other failures are KeyError or TypeError |
| Protocol.ReadQuery | pycovenantsql/connections.py:227-233 | an accepted envelope yields exactly what reading its data yields, and only an accepted envelope can succeed; an envelope that is not accepted yields the validation error |
| Protocol.CommandResult | pycovenantsql/connections.py:133-134 | a command succeeds exactly when the transport answered with a decodable body whose `success` is truthy and the reply is ok, and then yields that truthy `success` |
| Protocol.QueryResult | pycovenantsql/connections.py:192-193 | a query succeeds exactly when the transport answered with a decodable, accepted body whose data can be read, and then yields the table read from that body; a successful query also validates as a command |
| Protocol.ExchangeFailuresAreInterfaceErrors | pycovenantsql/connections.py:218-224 | a transport or decoding failure is an InterfaceError and is the outcome of the command, before any validation |
| Protocol.MissingAndNullData | pycovenantsql/connections.py:261-267 | in an accepted envelope a missing `data` fails with InterfaceError, and a null `data` succeeds with neither rows nor count |
| Protocol.ListRowsRoundTrip | pycovenantsql/connections.py:269-276 | in any envelope whose `data` is a dict with `rows` a list of lists, the rows come back as those lists, in order, column for column, with their number as the count |
| Protocol.TwoRowExample | pycovenantsql/connections.py:269-276 | {"success": true, "data": {"rows": [[1, "a"], [2, "b"]]}} reads as count 2 and rows (1, "a"), (2, "b") |
| Connections.Connection.constructor | pycovenantsql/connections.py:43-126 | a new connection is open, holds no transport handle, reply or result, has affected-row count 0, has posted nothing, and its URIs are its host and port's endpoints |
| Connections.Connection.Create | pycovenantsql/connections.py:104-128 | a bad timeout raises ValueError before any connection exists; a returned connection carries the configured host, port, database and URIs, has no result and count 0; a deferred one has posted nothing and holds no reply; otherwise the probe is posted to the query URI, construction fails exactly when the probe's validation fails, and the reply, body and `server_status` are the probe's |
| Connections.Connection.Connect | pycovenantsql/connections.py:130-134 | from any state, including closed: open, handle held, probe posted to the query URI, outcome that of the probe's validation; the result is untouched |
| Connections.Connection.Close | pycovenantsql/connections.py:145-148 | on an open connection: closed, handle released; on a closed one: Error("Already closed") and the handle untouched |
| Connections.Connection.Commit | pycovenantsql/connections.py:157-158 | closed: InterfaceError and nothing changes; open: `COMMIT` posted to the exec URI, outcome that of its validation |
| Connections.Connection.Rollback | pycovenantsql/connections.py:167-168 | closed: InterfaceError and nothing changes; open: `ROLLBACK` posted to the exec URI, outcome that of its validation |
| Connections.Connection.Query | pycovenantsql/connections.py:184-194 | closed: InterfaceError and nothing changes; open: one POST to the routed endpoint; on success the stored and returned count and the fresh result's rows are the materialised ones; on failure the count is untouched and the result is cleared unless the exchange itself failed |
| Connections.Connection.ExecuteCommand | pycovenantsql/connections.py:196-224 | closed: InterfaceError, nothing posted, nothing changes; open: the previous reply dropped, exactly one POST to the endpoint the routing test picks, the new reply and body stored |
| Connections.Connection.ReadQueryResult | pycovenantsql/connections.py:227-233 | the result is cleared before validation and replaced by a fresh, fully read result only on success; a failed validation leaves no result |
| Connections.Connection.ReadOkPacket | pycovenantsql/connections.py:235-243 | returns exactly the validation of the stored body and reply; `server_status` is assigned as soon as `success` can be read |
| Connections.CovenantSQLResult.constructor | pycovenantsql/connections.py:246-258 | a new result has neither rows nor count |
| Connections.CovenantSQLResult.Read | pycovenantsql/connections.py:260-276 | succeeds exactly when the body's data can be read; null data leaves the result as it was; otherwise rows and count are the materialised ones; after a failure the rows are untouched and the count is set only if the lines were obtained |
| Connections.CollectRows | pycovenantsql/connections.py:270-276 | the nested loops build exactly the materialised rows, or raise TypeError at a line that cannot be iterated |
| Connections.CountOnFailure | pycovenantsql/connections.py:269-276 | after a failed `read`, `affected_rows` is `len(data['rows'])` when `data` is a non-null value whose rows could be iterated, and is unchanged otherwise |
| Connections.UseAfterClose | pycovenantsql/connections.py:145-148 | after `close()`, `query`, `commit` and `rollback` raise InterfaceError without posting and a second `close()` raises Error("Already closed") |

## Left out

- Configuration-file loading (pycovenantsql/connections.py:60-83): the
  option-file parser is not part of this model, and the port read from a file
  goes through Python's `int()` on a string. `Options` holds the arguments as
  they stand after that step.
- Text encoding (:55-57, :114-115, :187-191, :204-205): which Python runtime
  is running decides between encodings. Commands are taken as bytes already
  encoded.
- The HTTP session, the TLS client certificate and the disabled server
  certificate check (:96-102): a foreign library. It appears only as the
  `Reply` given to each POST.
- JSON decoding (`self._resp.json()`, :222): a library call. It appears as the
  `json` field of `HttpResponse`. Decoded numbers are integers; JSON
  fractions, and so the truth value of 0.0, are not modelled.
- Dict keys: a decoded object is an ordered member list taken to have
  distinct keys, as a Python dict has. Lookup picks the first match.
- Timeout types: Python accepts floats, and `None` for `connect_timeout`
  raises TypeError on comparison. The model takes integer timeouts.
- `cursor()` and `cursorclass` (:117, :171-180): the cursor class is not part
  of this model.
- Values stored but never read by the core: `dsn`, `key`,
  `autocommit_mode`, the stored timeouts and `use_unicode`; and in
  `CovenantSQLResult`: `insert_id`, `warning_count`, `message`,
  `field_count`, `description`, `has_next`. (`encoding` is read only by the
  text encoding left out above.)
- The `init_command` parameter: the constructor accepts it and never uses
  it.
- Exception chaining and message formatting: "Request proxy err: %s" is
  modelled as the message followed by the cause's text.
- Concurrency: the driver is sequential, with one request in flight, so there
  is nothing to model.
