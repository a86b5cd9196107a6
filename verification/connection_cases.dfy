/** The concrete configurations of the remote-connection test suite, each
    stated as a fact about the resolver and derived from the general
    lemmas of DockerConnection and JsStrings. */
module ConnectionCases {
  import opened Wrappers
  import opened JsStrings
  import opened DockerConnection

  const Lan: string := "192.168.1.100"
  const Localhost: string := "localhost"
  const SecureHost: string := "secure.example.com"
  const CertDir: string := "/home/user/.docker/certs"

  // ---------------------------------------------------------------------
  // Port texts
  // ---------------------------------------------------------------------

  /** The port texts the suite uses are digit strings with these values. */
  lemma PortTexts()
    ensures AllDigits("2375") && DecimalValue("2375") == 2375
    ensures AllDigits("2376") && DecimalValue("2376") == 2376
    ensures AllDigits("3000") && DecimalValue("3000") == 3000
  {
    FourDigitValue("2375");
    FourDigitValue("2376");
    FourDigitValue("3000");
  }

  /** `parseInt('2375', 10)` is 2375. */
  lemma Parse2375()
    ensures ParseInt("2375") == Some(2375)
  {
    FourDigitValue("2375");
    ParseDigitString("2375", 2375);
  }

  /** `parseInt('2376', 10)` is 2376. */
  lemma Parse2376()
    ensures ParseInt("2376") == Some(2376)
  {
    FourDigitValue("2376");
    ParseDigitString("2376", 2376);
  }

  /** `parseInt('3000', 10)` is 3000. */
  lemma Parse3000()
    ensures ParseInt("3000") == Some(3000)
  {
    FourDigitValue("3000");
    ParseDigitString("3000", 3000);
  }

  /** The suite's DOCKER_PORT expressions: "3000" is read as 3000 and,
      with the variable unset, `process.env.DOCKER_PORT || '2375'` and
      `|| '2376'` read as 2375 and 2376. */
  lemma DockerPortCases()
    ensures ParseInt(OrElse(Some("3000"), "2375")) == Some(3000)
    ensures ParseInt(OrElse(None, "2375")) == Some(2375)
    ensures ParseInt(OrElse(None, "2376")) == Some(2376)
  {
    Parse2375();
    Parse2376();
    Parse3000();
  }

  /** The same three facts as the resolver's port choice: DOCKER_PORT
      "3000" gives 3000, an unset DOCKER_PORT the http or https default. */
  lemma ResolvePortCases()
    ensures ResolvePort(None, Some("3000"), Http) == Ok(3000)
    ensures ResolvePort(None, None, Http) == Ok(2375)
    ensures ResolvePort(None, None, Https) == Ok(2376)
  {
    Parse3000();
  }

  // ---------------------------------------------------------------------
  // DOCKER_HOST
  //
  // The suite copies the process environment before each case and then
  // sets or deletes single variables, so each case below holds for every
  // environment in which those variables have the values the case gives.
  // ---------------------------------------------------------------------

  /** No variable set: the default local socket, no TLS. */
  lemma DefaultLocalConnection(env: Env)
    requires "DOCKER_HOST" !in env && "DOCKER_TLS_VERIFY" !in env
    requires "DOCKER_CERT_PATH" !in env && "DOCKER_PORT" !in env
    ensures Resolve(env) == Ok(ConnConfig(Socket(DefaultSocketPath), false, None))
  {
    ResolveWithoutHost(env);
  }

  /** `unix:///var/run/docker.sock` gives the socket `/var/run/docker.sock`. */
  lemma UnixSocketHost(env: Env)
    requires Lookup(env, "DOCKER_HOST") == Some(UnixScheme + DefaultSocketPath)
    ensures Resolve(env).Ok? && Resolve(env).value.target == Socket(DefaultSocketPath)
  {
    ResolveUnixSocket(env, DefaultSocketPath);
  }

  /** `tcp://192.168.1.100:2375`: host 192.168.1.100, port 2375, http. */
  lemma TcpHost(env: Env)
    requires Lookup(env, "DOCKER_HOST") == Some(TcpScheme + (Lan + ":" + "2375"))
    ensures Resolve(env).Ok? && Resolve(env).value.target == Remote(Lan, 2375, Http)
  {
    PortTexts();
    assert ':' !in Lan;
    ResolveHostPort(env, TcpScheme, Lan, "2375");
  }

  /** `http://192.168.1.100:2375`: the same as the `tcp://` form. */
  lemma HttpHost(env: Env)
    requires Lookup(env, "DOCKER_HOST") == Some(HttpScheme + (Lan + ":" + "2375"))
    ensures Resolve(env).Ok? && Resolve(env).value.target == Remote(Lan, 2375, Http)
  {
    PortTexts();
    assert ':' !in Lan;
    ResolveHostPort(env, HttpScheme, Lan, "2375");
  }

  /** `https://192.168.1.100:2376`: host 192.168.1.100, port 2376, https. */
  lemma HttpsHost(env: Env)
    requires Lookup(env, "DOCKER_HOST") == Some(HttpsScheme + (Lan + ":" + "2376"))
    ensures Resolve(env).Ok? && Resolve(env).value.target == Remote(Lan, 2376, Https)
  {
    PortTexts();
    assert ':' !in Lan;
    ResolveHostPort(env, HttpsScheme, Lan, "2376");
  }

  /** Bare `192.168.1.100:2375`: the same as the `tcp://` form. */
  lemma BareHostPort(env: Env)
    requires Lookup(env, "DOCKER_HOST") == Some(Lan + ":" + "2375")
    ensures Resolve(env).Ok? && Resolve(env).value.target == Remote(Lan, 2375, Http)
  {
    PortTexts();
    assert ':' !in Lan;
    var h := Lan + ":" + "2375";
    assert "" + h == h;
    ResolveHostPort(env, "", Lan, "2375");
  }

  /** An SSH tunnel ends at `tcp://localhost:2375`. */
  lemma LocalhostTunnel(env: Env)
    requires Lookup(env, "DOCKER_HOST") == Some(TcpScheme + (Localhost + ":" + "2375"))
    ensures Resolve(env).Ok? && Resolve(env).value.target == Remote(Localhost, 2375, Http)
  {
    PortTexts();
    assert ':' !in Localhost;
    ResolveHostPort(env, TcpScheme, Localhost, "2375");
  }

  // ---------------------------------------------------------------------
  // DOCKER_TLS_VERIFY and DOCKER_CERT_PATH
  // ---------------------------------------------------------------------

  /** "1" and "true" turn verification on in the resolved configuration,
      "0" leaves it off. */
  lemma TlsVerifyCases(env: Env)
    ensures Lookup(env, "DOCKER_TLS_VERIFY") in {Some("1"), Some("true")} && Resolve(env).Ok? ==>
      Resolve(env).value.tlsVerify
    ensures Lookup(env, "DOCKER_TLS_VERIFY") == Some("0") && Resolve(env).Ok? ==>
      !Resolve(env).value.tlsVerify
  {
    TlsVerifyOnlyLiterals("0");
  }

  /** https with verification and a certificate directory: the directory
      is carried through unchanged beside the https target. */
  lemma HttpsWithTls(env: Env)
    requires Lookup(env, "DOCKER_HOST") == Some(HttpsScheme + (Lan + ":" + "2376"))
    requires Lookup(env, "DOCKER_TLS_VERIFY") == Some("1")
    requires Lookup(env, "DOCKER_CERT_PATH") == Some(CertDir)
    ensures Resolve(env) == Ok(ConnConfig(Remote(Lan, 2376, Https), true, Some(CertDir)))
  {
    PortTexts();
    assert ':' !in Lan;
    ResolveHostPort(env, HttpsScheme, Lan, "2376");
  }

  // ---------------------------------------------------------------------
  // Precedence
  // ---------------------------------------------------------------------

  /** A `tcp://` DOCKER_HOST replaces the default socket. */
  lemma HostOverridesDefaultSocket(env: Env)
    requires Lookup(env, "DOCKER_HOST") == Some(TcpScheme + (Lan + ":" + "2375"))
    ensures Resolve(env) != Resolve(env - {"DOCKER_HOST"})
    ensures Resolve(env).Ok? && Resolve(env).value.target != Socket(DefaultSocketPath)
  {
    TcpHost(env);
    ResolveWithoutHost(env - {"DOCKER_HOST"});
  }

  /** `tcp://192.168.1.100` with DOCKER_PORT 3000: the port is 3000,
      neither 2375 nor 2376. */
  lemma DockerPortOverridesDefault(env: Env)
    requires Lookup(env, "DOCKER_HOST") == Some(TcpScheme + Lan)
    requires Lookup(env, "DOCKER_PORT") == Some("3000")
    ensures Resolve(env).Ok? && Resolve(env).value.target == Remote(Lan, 3000, Http)
  {
    PortTexts();
    assert ':' !in Lan;
    ResolveHostWithPortVariable(env, TcpScheme, Lan, "3000");
  }

  // ---------------------------------------------------------------------
  // URL parsing steps
  // ---------------------------------------------------------------------

  /** `'tcp://192.168.1.100:2375'.replace('tcp://', '').split(':')` is
      `['192.168.1.100', '2375']`; Parse2375 reads the second part. */
  lemma TcpUrlParts()
    ensures Split(ReplaceFirst(TcpScheme + (Lan + ":" + "2375"), TcpScheme, ""), ':') == [Lan, "2375"]
  {
    assert ':' !in Lan && ':' !in "2375";
    StripPrefix(TcpScheme, Lan + ":" + "2375");
    SplitHostPort(Lan, "2375");
  }

  /** Without a port the split has one part, so `parts[1]` is undefined. */
  lemma TcpUrlWithoutPort()
    ensures Split(ReplaceFirst(TcpScheme + Lan, TcpScheme, ""), ':') == [Lan]
  {
    assert ':' !in Lan;
    StripPrefix(TcpScheme, Lan);
    SplitHostPort(Lan, "");
  }

  /** `'unix:///var/run/docker.sock'.replace('unix://', '')` is the path. */
  lemma UnixUrlPath()
    ensures ReplaceFirst(UnixScheme + DefaultSocketPath, UnixScheme, "") == DefaultSocketPath
  {
    StripPrefix(UnixScheme, DefaultSocketPath);
  }

  /** `'https://secure.example.com:2376'` splits into the host
      `secure.example.com` and the port text "2376"; Parse2376 reads it. */
  lemma HttpsUrlParts()
    ensures Split(ReplaceFirst(HttpsScheme + (SecureHost + ":" + "2376"), HttpsScheme, ""), ':')
         == [SecureHost, "2376"]
  {
    assert ':' !in SecureHost && ':' !in "2376";
    StripPrefix(HttpsScheme, SecureHost + ":" + "2376");
    SplitHostPort(SecureHost, "2376");
  }
}
