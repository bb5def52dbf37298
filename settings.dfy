/** The pure part of `Connection.__init__`: the host and port defaults, the
    two endpoint URIs and the timeout checks
    (pycovenantsql/connections.py:85-112). */
module Settings {

  import opened Wrappers
  import opened Errors

  const DefaultHost: string := "localhost"
  const DefaultPort: int := 11108
  const MaxConnectTimeout: int := 31536000
  const QueryPath: string := "/v1/query"
  const ExecPath: string := "/v1/exec"
  const Scheme: string := "https://"

  /** The constructor arguments the core uses, after the configuration file
      (if any) has filled the ones left unset. `host` is None for Python's
      `None`; a port of 0 is the parameter's default. */
  datatype Options = Options(
    host: Option<string>,
    port: int,
    database: Option<string>,
    connectTimeout: int,
    readTimeout: Option<int>,
    writeTimeout: Option<int>,
    deferConnect: bool)

  /** What the constructor keeps of its arguments. */
  datatype Settings = Settings(
    host: string,
    port: int,
    database: Option<string>,
    queryUri: string,
    execUri: string)

  /** `host or "localhost"`: None and the empty string are falsy. */
  function EffectiveHost(host: Option<string>): (r: string)
    ensures r == DefaultHost <==> host.None? || host.value == "" || host.value == DefaultHost
    ensures host.Some? && host.value != "" ==> r == host.value
  {
    if host.Some? && host.value != "" then host.value else DefaultHost
  }

  /** `port or 11108`: 0 is falsy. */
  function EffectivePort(port: int): (r: int)
    ensures r != 0
    ensures port != 0 ==> r == port
    ensures port == 0 ==> r == DefaultPort
  {
    if port != 0 then port else DefaultPort
  }

  function DigitChar(d: int): (c: char)
    requires 0 <= d < 10
    ensures IsDigit(c) && DigitValue(c) == d
  {
    ('0' as int + d) as char
  }

  predicate IsDigit(c: char)
  {
    '0' <= c <= '9'
  }

  function DigitValue(c: char): int
    requires IsDigit(c)
  {
    c as int - '0' as int
  }

  /** Python's `str(n)` for a natural number: its decimal digits. */
  function NatToDecimal(n: nat): (s: string)
    ensures s != [] && IsDigit(s[0])
    decreases n
  {
    if n < 10 then [DigitChar(n)] else NatToDecimal(n / 10) + [DigitChar(n % 10)]
  }

  /** Python's `str(n)` for any integer. */
  function IntToDecimal(n: int): (r: string)
    ensures r != [] && (r[0] == '-' <==> n < 0)
  {
    if n < 0 then "-" + NatToDecimal(-n) else NatToDecimal(n)
  }

  /** The number a string of decimal digits denotes (the reference reading
      `NatToDecimal` is checked against). */
  function DecimalValue(s: string): int
    requires forall i :: 0 <= i < |s| ==> IsDigit(s[i])
  {
    if s == [] then 0 else 10 * DecimalValue(s[..|s| - 1]) + DigitValue(s[|s| - 1])
  }

  /** `str(n)` writes a natural number as a non-empty string of digits with
      no leading zero, and reading those digits back gives `n`. */
  lemma {:induction false} NatToDecimalRoundTrip(n: nat)
    ensures var s := NatToDecimal(n);
            && s != []
            && (forall i :: 0 <= i < |s| ==> IsDigit(s[i]))
            && (|s| > 1 ==> s[0] != '0')
            && DecimalValue(s) == n
  {
    var s := NatToDecimal(n);
    if n >= 10 {
      NatToDecimalRoundTrip(n / 10);
      var t := NatToDecimal(n / 10);
      assert s == t + [DigitChar(n % 10)];
      assert s[..|s| - 1] == t;
      assert s[0] == t[0];
    }
  }

  /** `"https://" + host + ":" + str(port) + path`. */
  function Uri(host: string, port: int, path: string): (r: string)
    ensures |r| > |Scheme| + |host| + 1 + |path|
  {
    Scheme + host + ":" + IntToDecimal(port) + path
  }

  /** A URI reads back as its parts: the scheme, the host, a colon, the
      port's digits (with a sign if negative) and the path. */
  lemma UriParts(host: string, port: int, path: string)
    ensures var r := Uri(host, port, path);
            var digits := |r| - |Scheme| - |host| - 1 - |path|;
            && digits > 0
            && r[..|Scheme|] == Scheme
            && r[|Scheme|..|Scheme| + |host|] == host
            && r[|Scheme| + |host|] == ':'
            && r[|Scheme| + |host| + 1..|r| - |path|] == IntToDecimal(port)
            && r[|r| - |path|..] == path
  {
    var r := Uri(host, port, path);
    var d := IntToDecimal(port);
    assert r == Scheme + host + ":" + d + path;
    NatToDecimalRoundTrip(if port < 0 then -port else port);
    assert |d| > 0;
  }

  /** The two endpoints of one host and port are never the same URI, so the
      routing decision is visible in the URI posted to. */
  lemma EndpointsDiffer(host: string, port: int)
    ensures Uri(host, port, QueryPath) != Uri(host, port, ExecPath)
  {
    assert |Uri(host, port, QueryPath)| == |Uri(host, port, ExecPath)| + 1;
  }

  /** The timeout checks of lines 104-112, in their order; None when every
      timeout is acceptable. */
  function TimeoutError(o: Options): (r: Option<Exc>)
    ensures r.None? <==> && 0 < o.connectTimeout <= MaxConnectTimeout
                         && (o.readTimeout.None? || o.readTimeout.value > 0)
                         && (o.writeTimeout.None? || o.writeTimeout.value > 0)
    ensures r.Some? ==> r.value.ValueError?
    ensures !(0 < o.connectTimeout <= MaxConnectTimeout) ==>
              r == Some(ValueError("connect_timeout should be >0 and <=31536000"))
  {
    if !(0 < o.connectTimeout <= MaxConnectTimeout) then
      Some(ValueError("connect_timeout should be >0 and <=31536000"))
    else if o.readTimeout.Some? && o.readTimeout.value <= 0 then
      Some(ValueError("read_timeout should be >= 0"))
    else if o.writeTimeout.Some? && o.writeTimeout.value <= 0 then
      Some(ValueError("write_timeout should be >= 0"))
    else
      None
  }

  /** Everything the constructor computes before it may connect: the
      defaults, the URIs and the timeout checks. */
  function Configure(o: Options): (r: Result<Settings>)
    ensures r.Failure? <==> TimeoutError(o).Some?
    ensures r.Failure? ==> r.error.ValueError?
    ensures r.Success? ==>
              && r.value.host == EffectiveHost(o.host)
              && r.value.port == EffectivePort(o.port)
              && r.value.database == o.database
              && r.value.queryUri == Uri(r.value.host, r.value.port, QueryPath)
              && r.value.execUri == Uri(r.value.host, r.value.port, ExecPath)
  {
    var host := EffectiveHost(o.host);
    var port := EffectivePort(o.port);
    match TimeoutError(o)
    case Some(e) => Failure(e)
    case None => Success(Settings(host, port, o.database,
                                  Uri(host, port, QueryPath), Uri(host, port, ExecPath)))
  }

  /** With neither host nor port given, the endpoints are those of the
      default local proxy, https://localhost:11108/v1/query and
      https://localhost:11108/v1/exec. */
  lemma DefaultEndpoints()
    ensures Uri(EffectiveHost(None), EffectivePort(0), QueryPath) == Scheme + DefaultHost + ":11108" + QueryPath
    ensures Uri(EffectiveHost(None), EffectivePort(0), ExecPath) == Scheme + DefaultHost + ":11108" + ExecPath
  {
    assert NatToDecimal(1) == "1";
    assert NatToDecimal(11) == "11";
    assert NatToDecimal(111) == "111";
    assert NatToDecimal(1110) == "1110";
    assert IntToDecimal(EffectivePort(0)) == "11108";
  }
}
