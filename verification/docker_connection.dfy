/** How the Docker connection settings are resolved from the environment
    variables DOCKER_HOST, DOCKER_TLS_VERIFY, DOCKER_CERT_PATH and
    DOCKER_PORT into the options handed to the Docker client: either a
    Unix socket path, or a host, a port and a protocol (`http`/`https`). */
module DockerConnection {
  import opened Wrappers
  import opened JsStrings

  /** A snapshot of the process environment. */
  type Env = map<string, string>

  const DefaultSocketPath: string := "/var/run/docker.sock"
  const UnixScheme: string := "unix://"
  const TcpScheme: string := "tcp://"
  const HttpScheme: string := "http://"
  const HttpsScheme: string := "https://"

  datatype Protocol = Http | Https

  /** Where the client connects: the options `{ socketPath }` or
      `{ host, port, protocol }` of the Docker client. */
  datatype Target =
    | Socket(socketPath: string)
    | Remote(host: string, port: nat, protocol: Protocol)

  /** The resolved connection: the target, whether TLS verification was
      requested, and the certificate directory carried through as given. */
  datatype ConnConfig = ConnConfig(target: Target, tlsVerify: bool, certPath: Option<string>)

  /** A port text that does not read as a TCP port number. */
  datatype ConfigError = InvalidPort(text: string)

  function Lookup(env: Env, key: string): Option<string> {
    if key in env then Some(env[key]) else None
  }

  predicate StartsWith(s: string, prefix: string) {
    |prefix| <= |s| && s[..|prefix|] == prefix
  }

  /** The DOCKER_HOST value begins with one of the four known schemes. */
  predicate HasScheme(h: string) {
    StartsWith(h, UnixScheme) || StartsWith(h, TcpScheme)
    || StartsWith(h, HttpScheme) || StartsWith(h, HttpsScheme)
  }

  /** The protocol a network scheme selects: `https://` is https, the rest http. */
  function SchemeProtocol(scheme: string): Protocol {
    if scheme == HttpsScheme then Https else Http
  }

  // ---------------------------------------------------------------------
  // DOCKER_TLS_VERIFY
  // ---------------------------------------------------------------------

  /** TLS verification is requested only by the exact texts "1" and "true". */
  function TlsVerify(value: Option<string>): (r: bool)
    ensures r <==> value in {Some("1"), Some("true")}
  {
    match value
    case None => false
    case Some(v) => v == "1" || v == "true"
  }

  /** Every other value, and no value at all, leaves verification off:
      case, padding and other truthy spellings do not count. */
  lemma {:induction false} TlsVerifyOnlyLiterals(v: string)
    requires v != "1" && v != "true"
    ensures !TlsVerify(Some(v)) && !TlsVerify(None)
    ensures TlsVerify(Some("1")) && TlsVerify(Some("true"))
    ensures !TlsVerify(Some("0")) && !TlsVerify(Some("TRUE")) && !TlsVerify(Some(" 1"))
  {
  }

  // ---------------------------------------------------------------------
  // Ports: DOCKER_PORT and the protocol defaults
  // ---------------------------------------------------------------------

  /** The default port text of each protocol, as written in the fallback
      `DOCKER_PORT || '2375'` and `DOCKER_PORT || '2376'`. */
  function DefaultPortText(protocol: Protocol): string {
    match protocol
    case Http => "2375"
    case Https => "2376"
  }

  /** JavaScript `value || fallback` on an optional string: an unset or
      empty value is falsy and gives way to the fallback. */
  function OrElse(value: Option<string>, fallback: string): (r: string)
    ensures value.Some? && value.value != "" ==> r == value.value
    ensures value.None? || value.value == "" ==> r == fallback
  {
    match value
    case Some(v) => if v != "" then v else fallback
    case None => fallback
  }

  /** `parseInt(text, 10)`, accepted only as a TCP port number. */
  function ParsePort(text: string): (r: Result<nat, ConfigError>)
    ensures r.Ok? <==> ParseInt(text).Some? && 1 <= ParseInt(text).value <= 65535
    ensures r.Ok? ==> r.value == ParseInt(text).value
    ensures r.Err? ==> r.error == InvalidPort(text)
  {
    match ParseInt(text)
    case Some(n) => if 1 <= n <= 65535 then Ok(n) else Err(InvalidPort(text))
    case None => Err(InvalidPort(text))
  }

  /** The port: the one written in DOCKER_HOST if there is one, otherwise
      DOCKER_PORT, otherwise 2375 for http and 2376 for https. */
  function ResolvePort(embedded: Option<string>, dockerPort: Option<string>, protocol: Protocol)
    : (r: Result<nat, ConfigError>)
    ensures embedded.Some? ==> r == ParsePort(embedded.value)
    ensures embedded.None? && (dockerPort.None? || dockerPort.value == "") ==>
      r == Ok(if protocol == Https then 2376 else 2375)
    ensures embedded.None? && dockerPort.Some? && dockerPort.value != "" ==>
      r == ParsePort(dockerPort.value)
  {
    match embedded
    case Some(text) => ParsePort(text)
    case None =>
      var text := OrElse(dockerPort, DefaultPortText(protocol));
      if dockerPort.None? || dockerPort.value == "" then
        DefaultPortValue(protocol);
        ParsePort(text)
      else
        ParsePort(text)
  }

  lemma {:induction false} DefaultPortValue(protocol: Protocol)
    ensures ParseInt(DefaultPortText(protocol)) == Some(if protocol == Https then 2376 else 2375)
  {
    var text := DefaultPortText(protocol);
    FourDigitValue(text);
    ParseDigitString(text, if protocol == Https then 2376 else 2375);
  }

  // ---------------------------------------------------------------------
  // DOCKER_HOST
  // ---------------------------------------------------------------------

  /** `url.split(':')`, read as `parts[0]` (the host) and `parts[1]` (the
      port text, undefined when there is no colon). */
  function SplitAuthority(authority: string): (r: (string, Option<string>))
    ensures ':' !in r.0
    ensures r.1.None? <==> ':' !in authority
    ensures ':' !in authority ==> r.0 == authority
    ensures r.1.Some? ==> ':' !in r.1.value && StartsWith(authority, r.0 + ":" + r.1.value)
    ensures r.1.Some? ==>
      var n := |r.0| + 1 + |r.1.value|;
      n == |authority| || authority[n] == ':'
  {
    var parts := Split(authority, ':');
    if |parts| >= 2 then
      JoinFirstTwo(parts, ':');
      var head := parts[0] + ":" + parts[1];
      assert authority[..|head|] == head;
      assert authority[|parts[0]|] == ':';
      (parts[0], Some(parts[1]))
    else
      (parts[0], None)
  }

  /** `host:port` with neither part holding a colon splits back into the
      host and the whole port text. */
  lemma {:induction false} SplitAuthorityHostPort(host: string, port: string)
    requires ':' !in host && ':' !in port
    ensures SplitAuthority(host + ":" + port) == (host, Some(port))
  {
    SplitHostPort(host, port);
  }

  /** The `{ host, port, protocol }` target read from a scheme-less
      authority `host[:port]`. */
  function RemoteTarget(authority: string, dockerPort: Option<string>, protocol: Protocol)
    : (r: Result<Target, ConfigError>)
    ensures r.Ok? ==> r.value.Remote? && r.value.protocol == protocol
    ensures r.Ok? ==> ':' !in r.value.host && 1 <= r.value.port <= 65535
  {
    var (host, portText) := SplitAuthority(authority);
    match ResolvePort(portText, dockerPort, protocol)
    case Err(e) => Err(e)
    case Ok(port) => Ok(Remote(host, port, protocol))
  }

  /** The target selected by DOCKER_HOST, classified by its scheme prefix;
      the prefix is removed with `replace(scheme, '')`. */
  function ResolveTarget(dockerHost: Option<string>, dockerPort: Option<string>)
    : (r: Result<Target, ConfigError>)
    ensures r.Ok? && r.value.Socket? <==> dockerHost.None? || StartsWith(dockerHost.value, UnixScheme)
    ensures r.Ok? && r.value.Remote? ==> ':' !in r.value.host && 1 <= r.value.port <= 65535
    ensures r.Ok? && r.value.Remote? ==>
      (r.value.protocol == Https <==> StartsWith(dockerHost.value, HttpsScheme))
  {
    match dockerHost
    case None => Ok(Socket(DefaultSocketPath))
    case Some(h) =>
      if StartsWith(h, UnixScheme) then Ok(Socket(ReplaceFirst(h, UnixScheme, "")))
      else if StartsWith(h, TcpScheme) then
        assert !StartsWith(h, HttpsScheme);
        RemoteTarget(ReplaceFirst(h, TcpScheme, ""), dockerPort, Http)
      else if StartsWith(h, HttpScheme) then
        assert h[4] == h[..|HttpScheme|][4] == ':';
        assert !StartsWith(h, HttpsScheme);
        RemoteTarget(ReplaceFirst(h, HttpScheme, ""), dockerPort, Http)
      else if StartsWith(h, HttpsScheme) then
        RemoteTarget(ReplaceFirst(h, HttpsScheme, ""), dockerPort, Https)
      else
        RemoteTarget(h, dockerPort, Http)
  }

  /** The connection configuration resolved from the environment. */
  function Resolve(env: Env): (r: Result<ConnConfig, ConfigError>)
    ensures r.Ok? ==> r.value.tlsVerify == TlsVerify(Lookup(env, "DOCKER_TLS_VERIFY"))
    ensures r.Ok? ==> r.value.certPath == Lookup(env, "DOCKER_CERT_PATH")
    ensures r.Ok? && r.value.target.Socket? <==>
      "DOCKER_HOST" !in env || StartsWith(env["DOCKER_HOST"], UnixScheme)
    ensures r.Err? ==> "DOCKER_HOST" in env && r.error.InvalidPort?
  {
    match ResolveTarget(Lookup(env, "DOCKER_HOST"), Lookup(env, "DOCKER_PORT"))
    case Err(e) => Err(e)
    case Ok(target) =>
      Ok(ConnConfig(target, TlsVerify(Lookup(env, "DOCKER_TLS_VERIFY")), Lookup(env, "DOCKER_CERT_PATH")))
  }

  // ---------------------------------------------------------------------
  // Scheme classification
  // ---------------------------------------------------------------------

  /** A string that differs from `prefix` at index `j` (or ends before
      it) does not start with `prefix`. */
  lemma {:induction false} DiffersAt(s: string, prefix: string, j: nat)
    requires j < |prefix| && (j >= |s| || s[j] != prefix[j])
    ensures !StartsWith(s, prefix)
  {
    if |prefix| <= |s| {
      assert s[..|prefix|][j] != prefix[j];
    }
  }

  /** A network scheme is recognised as such, whatever follows it, and is
      stripped to exactly what follows it. */
  lemma {:induction false} ResolveTargetStripsScheme(scheme: string, rest: string, dockerPort: Option<string>)
    requires scheme in {TcpScheme, HttpScheme, HttpsScheme}
    ensures ResolveTarget(Some(scheme + rest), dockerPort)
         == RemoteTarget(rest, dockerPort, SchemeProtocol(scheme))
  {
    var h := scheme + rest;
    assert h[..|scheme|] == scheme;
    assert StartsWith(h, scheme);
    StripPrefix(scheme, rest);
    DiffersAt(h, UnixScheme, 0);
    if scheme == HttpScheme || scheme == HttpsScheme {
      DiffersAt(h, TcpScheme, 0);
    }
    if scheme == HttpsScheme {
      DiffersAt(h, HttpScheme, 4);
    }
  }

  /** A DOCKER_HOST value without a known scheme is read whole as
      `host[:port]` over http. */
  lemma {:induction false} ResolveTargetBare(h: string, dockerPort: Option<string>)
    requires !HasScheme(h)
    ensures ResolveTarget(Some(h), dockerPort) == RemoteTarget(h, dockerPort, Http)
  {
  }

  /** A colon-free string, or a colon-free host followed by `:` and a port
      text that does not start with `/`, carries no scheme. */
  lemma {:induction false} NoSchemeBeforeColon(host: string, rest: string)
    requires ':' !in host
    requires rest == [] || rest[0] != '/'
    ensures !HasScheme(host)
    ensures !HasScheme(host + ":" + rest)
  {
    var s := host + ":" + rest;
    forall scheme | scheme in {UnixScheme, TcpScheme, HttpScheme, HttpsScheme}
      ensures !StartsWith(host, scheme) && !StartsWith(s, scheme)
    {
      // Every scheme has its one colon at index k, followed by '/'.
      var k := if scheme == TcpScheme then 3 else if scheme == HttpsScheme then 5 else 4;
      assert scheme[k] == ':' && scheme[k + 1] == '/';
      assert forall j :: 0 <= j < k ==> scheme[j] != ':';
      DiffersAt(host, scheme, k);
      if |host| < k {
        assert s[|host|] == ':';
        DiffersAt(s, scheme, |host|);
      } else if |host| == k {
        DiffersAt(s, scheme, k + 1);
      } else {
        assert s[k] == host[k];
        DiffersAt(s, scheme, k);
      }
    }
  }

  // ---------------------------------------------------------------------
  // Host and port
  // ---------------------------------------------------------------------

  /** `host:port` with a colon-free host and a digit string gives back the
      host and the port's decimal value; DOCKER_PORT plays no part. */
  lemma {:induction false} RemoteTargetHostPort(host: string, digits: string, dockerPort: Option<string>, protocol: Protocol)
    requires ':' !in host
    requires |digits| >= 1 && AllDigits(digits) && 1 <= DecimalValue(digits) <= 65535
    ensures RemoteTarget(host + ":" + digits, dockerPort, protocol)
         == Ok(Remote(host, DecimalValue(digits), protocol))
  {
    assert ':' !in digits by {
      forall k | 0 <= k < |digits| ensures digits[k] != ':' {
        assert IsDigit(digits[k]);
      }
    }
    SplitAuthorityHostPort(host, digits);
    ParseDigitString(digits, DecimalValue(digits));
    assert ResolvePort(Some(digits), dockerPort, protocol) == Ok(DecimalValue(digits));
  }

  /** A colon-free authority is all host: the port comes from DOCKER_PORT,
      else from the protocol default, and never fails for want of one. */
  lemma {:induction false} RemoteTargetHostOnly(host: string, dockerPort: Option<string>, protocol: Protocol)
    requires ':' !in host
    ensures var port := ResolvePort(None, dockerPort, protocol);
      RemoteTarget(host, dockerPort, protocol)
        == if port.Ok? then Ok(Remote(host, port.value, protocol)) else Err(port.error)
    ensures dockerPort.None? ==>
      RemoteTarget(host, dockerPort, protocol)
        == Ok(Remote(host, if protocol == Https then 2376 else 2375, protocol))
  {
    SplitHostPort(host, "");
  }

  // ---------------------------------------------------------------------
  // Resolution from the environment
  // ---------------------------------------------------------------------

  /** Without DOCKER_HOST the client talks to the local default socket. */
  lemma {:induction false} ResolveWithoutHost(env: Env)
    requires "DOCKER_HOST" !in env
    ensures Resolve(env) == Ok(ConnConfig(Socket(DefaultSocketPath),
      TlsVerify(Lookup(env, "DOCKER_TLS_VERIFY")), Lookup(env, "DOCKER_CERT_PATH")))
  {
  }

  /** `unix://` followed by any path gives that path verbatim as the
      socket, colons and all, and no host or port. */
  lemma {:induction false} ResolveUnixSocket(env: Env, path: string)
    requires Lookup(env, "DOCKER_HOST") == Some(UnixScheme + path)
    ensures Resolve(env).Ok? && Resolve(env).value.target == Socket(path)
  {
    var h := UnixScheme + path;
    assert h[..|UnixScheme|] == UnixScheme;
    StripPrefix(UnixScheme, path);
  }

  /** The target of `scheme + host + ":" + digits`, for a network scheme or none. */
  lemma {:induction false} ResolveTargetHostPort(scheme: string, host: string, digits: string, dockerPort: Option<string>)
    requires scheme in {"", TcpScheme, HttpScheme, HttpsScheme}
    requires ':' !in host
    requires |digits| >= 1 && AllDigits(digits) && 1 <= DecimalValue(digits) <= 65535
    ensures ResolveTarget(Some(scheme + (host + ":" + digits)), dockerPort)
         == Ok(Remote(host, DecimalValue(digits), SchemeProtocol(scheme)))
  {
    var authority := host + ":" + digits;
    RemoteTargetHostPort(host, digits, dockerPort, SchemeProtocol(scheme));
    if scheme == "" {
      assert scheme + authority == authority;
      BareAuthority(host, digits, dockerPort);
    } else {
      ResolveTargetStripsScheme(scheme, authority, dockerPort);
    }
  }

  lemma {:induction false} BareAuthority(host: string, digits: string, dockerPort: Option<string>)
    requires ':' !in host
    requires |digits| >= 1 && AllDigits(digits)
    ensures ResolveTarget(Some(host + ":" + digits), dockerPort)
         == RemoteTarget(host + ":" + digits, dockerPort, Http)
  {
    assert IsDigit(digits[0]);
    NoSchemeBeforeColon(host, digits);
    ResolveTargetBare(host + ":" + digits, dockerPort);
  }

  /** `tcp://`, `http://`, `https://` or no scheme, then a colon-free host,
      `:` and a decimal port: the host and port come back as written, the
      protocol is https exactly for `https://`, and DOCKER_PORT is not
      consulted. */
  lemma {:induction false} ResolveHostPort(env: Env, scheme: string, host: string, digits: string)
    requires scheme in {"", TcpScheme, HttpScheme, HttpsScheme}
    requires ':' !in host
    requires |digits| >= 1 && AllDigits(digits) && 1 <= DecimalValue(digits) <= 65535
    requires Lookup(env, "DOCKER_HOST") == Some(scheme + (host + ":" + digits))
    ensures Resolve(env) == Ok(ConnConfig(Remote(host, DecimalValue(digits), SchemeProtocol(scheme)),
      TlsVerify(Lookup(env, "DOCKER_TLS_VERIFY")), Lookup(env, "DOCKER_CERT_PATH")))
  {
    ResolveTargetHostPort(scheme, host, digits, Lookup(env, "DOCKER_PORT"));
  }

  /** Round trip: writing a colon-free host and a port number `n` into
      DOCKER_HOST and resolving gives back exactly that host and `n`. */
  lemma {:induction false} ResolveHostPortRoundTrip(env: Env, scheme: string, host: string, n: nat)
    requires scheme in {"", TcpScheme, HttpScheme, HttpsScheme}
    requires ':' !in host && 1 <= n <= 65535
    requires Lookup(env, "DOCKER_HOST") == Some(scheme + (host + ":" + ToDecimal(n)))
    ensures Resolve(env).Ok?
    ensures Resolve(env).value.target == Remote(host, n, SchemeProtocol(scheme))
  {
    ResolveHostPort(env, scheme, host, ToDecimal(n));
  }

  /** A DOCKER_HOST without a port: the port is DOCKER_PORT when that is
      set and non-empty, else 2375 for http and 2376 for https. */
  lemma {:induction false} ResolveHostWithoutPort(env: Env, scheme: string, host: string)
    requires scheme in {"", TcpScheme, HttpScheme, HttpsScheme}
    requires ':' !in host
    requires Lookup(env, "DOCKER_HOST") == Some(scheme + host)
    ensures Lookup(env, "DOCKER_PORT") in {None, Some("")} ==>
      Resolve(env).Ok? && Resolve(env).value.target
        == Remote(host, if scheme == HttpsScheme then 2376 else 2375, SchemeProtocol(scheme))
    ensures Lookup(env, "DOCKER_PORT").Some? && Lookup(env, "DOCKER_PORT").value != "" ==>
      var port := ParsePort(env["DOCKER_PORT"]);
      (Resolve(env).Ok? <==> port.Ok?)
      && (port.Ok? ==> Resolve(env).value.target == Remote(host, port.value, SchemeProtocol(scheme)))
  {
    var dockerPort := Lookup(env, "DOCKER_PORT");
    RemoteTargetHostOnly(host, dockerPort, SchemeProtocol(scheme));
    if scheme == "" {
      assert scheme + host == host;
      NoSchemeBeforeColon(host, "");
      ResolveTargetBare(host, dockerPort);
    } else {
      ResolveTargetStripsScheme(scheme, host, dockerPort);
    }
  }

  /** A host without an embedded port and a DOCKER_PORT made of digits
      whose value is a valid port: the target uses that value. */
  lemma {:induction false} ResolveHostWithPortVariable(env: Env, scheme: string, host: string, ds: string)
    requires scheme in {"", TcpScheme, HttpScheme, HttpsScheme}
    requires ':' !in host
    requires Lookup(env, "DOCKER_HOST") == Some(scheme + host)
    requires |ds| >= 1 && AllDigits(ds) && 1 <= DecimalValue(ds) <= 65535
    requires Lookup(env, "DOCKER_PORT") == Some(ds)
    ensures Resolve(env).Ok?
    ensures Resolve(env).value.target == Remote(host, DecimalValue(ds), SchemeProtocol(scheme))
  {
    ParseDigitsThen(ds, "");
    assert ds + "" == ds;
    ResolveHostWithoutPort(env, scheme, host);
  }

  /** `http://` and `tcp://` are interchangeable, whatever follows them. */
  lemma {:induction false} ResolveHttpAgreesWithTcp(env: Env, rest: string)
    ensures Resolve(env["DOCKER_HOST" := HttpScheme + rest])
         == Resolve(env["DOCKER_HOST" := TcpScheme + rest])
  {
    var dockerPort := Lookup(env, "DOCKER_PORT");
    assert Lookup(env["DOCKER_HOST" := HttpScheme + rest], "DOCKER_PORT") == dockerPort;
    assert Lookup(env["DOCKER_HOST" := TcpScheme + rest], "DOCKER_PORT") == dockerPort;
    ResolveTargetStripsScheme(HttpScheme, rest, dockerPort);
    ResolveTargetStripsScheme(TcpScheme, rest, dockerPort);
  }

  /** A bare `host[:port]` resolves as if `tcp://` were written before it. */
  lemma {:induction false} ResolveBareAgreesWithTcp(env: Env, h: string)
    requires !HasScheme(h)
    ensures Resolve(env["DOCKER_HOST" := h]) == Resolve(env["DOCKER_HOST" := TcpScheme + h])
  {
    var dockerPort := Lookup(env, "DOCKER_PORT");
    assert Lookup(env["DOCKER_HOST" := h], "DOCKER_PORT") == dockerPort;
    assert Lookup(env["DOCKER_HOST" := TcpScheme + h], "DOCKER_PORT") == dockerPort;
    ResolveTargetBare(h, dockerPort);
    ResolveTargetStripsScheme(TcpScheme, h, dockerPort);
  }

  /** A DOCKER_HOST that is not a `unix://` URL replaces the default
      socket; `unix:///var/run/docker.sock` is the same as no DOCKER_HOST. */
  lemma {:induction false} ResolveHostPrecedence(env: Env)
    requires "DOCKER_HOST" in env
    ensures !StartsWith(env["DOCKER_HOST"], UnixScheme) ==>
      Resolve(env) != Resolve(env - {"DOCKER_HOST"})
    ensures env["DOCKER_HOST"] == UnixScheme + DefaultSocketPath ==>
      Resolve(env) == Resolve(env - {"DOCKER_HOST"})
  {
    var without := env - {"DOCKER_HOST"};
    assert "DOCKER_HOST" !in without;
    assert Lookup(without, "DOCKER_TLS_VERIFY") == Lookup(env, "DOCKER_TLS_VERIFY");
    assert Lookup(without, "DOCKER_CERT_PATH") == Lookup(env, "DOCKER_CERT_PATH");
    if env["DOCKER_HOST"] == UnixScheme + DefaultSocketPath {
      ResolveUnixSocket(env, DefaultSocketPath);
    }
  }
}
