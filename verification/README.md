# Docker connection settings from the environment

This project models how the Docker MCP server turns the environment
variables `DOCKER_HOST`, `DOCKER_TLS_VERIFY`, `DOCKER_CERT_PATH` and
`DOCKER_PORT` into the options it hands to the Docker client. The result is
either a Unix socket path or a remote `{ host, port, protocol }` target, and
it comes with the TLS flag and the certificate directory.

The repository pins this behaviour down in its remote-connection test suite
(`tests/remote-connection.test.ts`). The suite applies the JavaScript
string built-ins inline to environment values:
`dockerHost.replace('tcp://', '')`, `url.split(':')`, `parseInt(s, 10)` and
`process.env.DOCKER_PORT || '2375'`. It also lists the configurations
expected for each form of `DOCKER_HOST`. The model has three modules:

- `Wrappers` (`wrappers.dfy`) holds `Option` and `Result`.
- `JsStrings` (`js_strings.dfy`) holds the built-ins as the suite uses them:
  - `replace` with a string pattern replaces only the first occurrence
    (the replacement text may not hold `$`, whose substitution patterns
    are not modelled; the suite always replaces by `''`);
  - `split` always returns at least one piece;
  - `parseInt` skips ECMAScript white space, reads an optional sign and then
    the longest run of digits, and gives NaN (`None`) when there are no
    digits.

  Each built-in comes with an inverse or round-trip lemma: `Split` undoes
  `Join`, and `parseInt` undoes `String(n)`.
- `DockerConnection` (`docker_connection.dfy`) holds the resolver
  `Resolve(env)`, built from those steps:
  - with no `DOCKER_HOST`, the default socket `/var/run/docker.sock`;
  - `unix://path` gives the socket `path`;
  - `tcp://`, `http://` and a bare `host[:port]` give http;
  - `https://` gives https;
  - the port is the one after the colon if there is one, otherwise
    `DOCKER_PORT`, otherwise 2375 (http) or 2376 (https);
  - TLS verification is on exactly for `"1"` and `"true"`;
  - the certificate directory is carried through unchanged.

  Its lemmas state the general rules: host:port round trip, scheme
  equivalences, port fallback and precedence.
- `ConnectionCases` (`connection_cases.dfy`) restates every configuration
  the suite checks as a lemma about the model. The suite copies the process
  environment before each case and then sets or deletes single variables.
  Each case is therefore stated for every environment in which those
  variables have the case's values.

## Model

| member | source | states |
|---|---|---|
| JsStrings.IndexOfFrom | tests/remote-connection.test.ts:190 | the index returned is an occurrence of the pattern at or after the start, and no earlier one exists; `None` means no occurrence at all from the start |
| JsStrings.IndexOf | tests/remote-connection.test.ts:190 | `indexOf` finds the first occurrence of the pattern, and `None` means it occurs nowhere |
| JsStrings.ReplaceFirst | tests/remote-connection.test.ts:190 | `replace` with a string pattern and a `$`-free replacement replaces only the first occurrence: the text before it and the text after it are kept, and a string without the pattern is returned unchanged |
| JsStrings.StripPrefix | tests/remote-connection.test.ts:206-211 | `(p + rest).replace(p, '')` is exactly `rest`, so removing a scheme prefix leaves the remainder verbatim |
| JsStrings.CharIndexFrom | tests/remote-connection.test.ts:191 | the separator search returns the first position of the character at or after the start, or reports that there is none |
| JsStrings.FirstIndexOf | tests/remote-connection.test.ts:191 | the first position of the separator: the character is there and absent before it; `None` exactly when the character is absent |
| JsStrings.FirstIndexOfIsIndexOf | tests/remote-connection.test.ts:191 | the character search used by `split` agrees with `indexOf` on a one-character pattern |
| JsStrings.Split | tests/remote-connection.test.ts:191 | `split(':')` gives at least one piece; no piece holds the separator; joining the pieces with it gives the input back |
| JsStrings.SplitJoin | tests/remote-connection.test.ts:191 | split inverts join on separator-free pieces: the same pieces come back |
| JsStrings.SplitHostPort | tests/remote-connection.test.ts:191-203 | `(host + ':' + port).split(':')` is `[host, port]`; a colon-free string splits into itself alone, so `parts[1]` is undefined |
| JsStrings.TrimStart | tests/remote-connection.test.ts:116 | what `parseInt` skips first is white space and only that: the rest is a suffix that does not start with white space |
| JsStrings.DigitPrefix | tests/remote-connection.test.ts:116 | the digits `parseInt` reads are the longest run of decimal digits at the start |
| JsStrings.FourDigitValue | tests/remote-connection.test.ts:113-127 | a four-digit port text has the value 1000·d0 + 100·d1 + 10·d2 + d3 |
| JsStrings.ToDecimal | tests/remote-connection.test.ts:188-195 | `String(n)` is a non-empty digit string without a leading zero whose decimal value is `n` |
| JsStrings.ParseDigitsThen | tests/remote-connection.test.ts:194 | `parseInt` of a digit run followed by a non-digit (or nothing) is the run's decimal value |
| JsStrings.TrimStartWhiteSpace | tests/remote-connection.test.ts:116 | removing a run of white space first does not change what remains after the leading white space is removed |
| JsStrings.ParseIntSkipsWhiteSpace | tests/remote-connection.test.ts:116 | `parseInt(ws + s) == parseInt(s)` for any run `ws` of ECMAScript white space and line terminators |
| JsStrings.ParseIntAfterSign | tests/remote-connection.test.ts:116 | `+` or `-`, then a digit run, then nothing or a non-digit: the run's value, negated after `-` |
| JsStrings.ParseIntNoDigits | tests/remote-connection.test.ts:116 | NaN (`None`) when no digit follows the optional sign, including for the empty text |
| JsStrings.ParseDigitString | tests/remote-connection.test.ts:116 | `parseInt` of a whole digit string of value `n` is `n` |
| JsStrings.ParseIntToDecimal | tests/remote-connection.test.ts:188-195 | round trip: `parseInt(String(n), 10) == n` for every natural `n` |
| DockerConnection.TlsVerify | tests/remote-connection.test.ts:90-103 | verification is on if and only if DOCKER_TLS_VERIFY is exactly `"1"` or `"true"` |
| DockerConnection.TlsVerifyOnlyLiterals | tests/remote-connection.test.ts:100-103 | every other value (`"0"`, `"TRUE"`, `" 1"`, any other string) and an unset variable leave it off |
| DockerConnection.OrElse | tests/remote-connection.test.ts:121-122 | the or-fallback of DOCKER_PORT and `'2375'`/`'2376'`: a set, non-empty value wins; unset or empty gives the fallback |
| DockerConnection.ParsePort | tests/remote-connection.test.ts:114-117 | a port text is accepted exactly when `parseInt` reads a number in 1..65535; that number is the port, and otherwise the error names the text |
| DockerConnection.ResolvePort | tests/remote-connection.test.ts:113-127 | an embedded port is parsed; without one a set, non-empty DOCKER_PORT is parsed; otherwise the port is 2375 for http and 2376 for https |
| DockerConnection.DefaultPortValue | tests/remote-connection.test.ts:119-126 | the fallback texts `'2375'` and `'2376'` parse to 2375 (http) and 2376 (https) |
| DockerConnection.SplitAuthority | tests/remote-connection.test.ts:191-203 | `parts[0]` is a colon-free host; `parts[1]` is undefined exactly when there is no colon, and otherwise is the whole colon-free text between the first colon and the next colon or the end |
| DockerConnection.SplitAuthorityHostPort | tests/remote-connection.test.ts:191-194 | `host:port` with colon-free parts gives `parts[0] == host` and `parts[1] == port`, the whole port text |
| DockerConnection.RemoteTarget | tests/remote-connection.test.ts:44-86 | a resolved authority is a remote target with the requested protocol, a colon-free host and a port in 1..65535 |
| DockerConnection.ResolveTarget | tests/remote-connection.test.ts:37-86 | the target is a socket if and only if DOCKER_HOST is unset or starts with `unix://`; a remote target has a colon-free host and a valid port, and is https if and only if DOCKER_HOST starts with `https://` |
| DockerConnection.Resolve | tests/remote-connection.test.ts:24-111 | the TLS flag and certificate directory come from their variables; the target is a socket exactly when DOCKER_HOST is absent or `unix://`; resolution fails only on an invalid port and only when DOCKER_HOST is set |
| DockerConnection.ResolveTargetStripsScheme | tests/remote-connection.test.ts:44-75 | `tcp://`, `http://` and `https://` are recognised whatever follows, and the target is read from exactly what follows the scheme, over http or https |
| DockerConnection.ResolveTargetBare | tests/remote-connection.test.ts:77-86 | a DOCKER_HOST without a known scheme is read whole as `host[:port]` over http |
| DockerConnection.NoSchemeBeforeColon | tests/remote-connection.test.ts:77-86 | a colon-free host, alone or followed by `:` and a port, is never taken for a scheme |
| DockerConnection.RemoteTargetHostPort | tests/remote-connection.test.ts:44-53 | `host:digits` gives that host and the digits' value, whatever DOCKER_PORT says |
| DockerConnection.RemoteTargetHostOnly | tests/remote-connection.test.ts:197-204 | an authority without a colon is all host and does not fail for want of a port: the port is DOCKER_PORT's, or the protocol default when DOCKER_PORT is unset |
| DockerConnection.ResolveWithoutHost | tests/remote-connection.test.ts:24-33 | without DOCKER_HOST the configuration is the default socket `/var/run/docker.sock` |
| DockerConnection.ResolveUnixSocket | tests/remote-connection.test.ts:37-42 | `unix://` followed by any path gives that path verbatim as the socket |
| DockerConnection.ResolveTargetHostPort | tests/remote-connection.test.ts:44-86 | `scheme + host:digits`, with any network scheme or none, gives the host, the digits' value and https exactly for `https://` |
| DockerConnection.BareAuthority | tests/remote-connection.test.ts:77-86 | a bare `host:digits` is read as an authority over http |
| DockerConnection.ResolveHostPort | tests/remote-connection.test.ts:44-86 | the whole configuration for `scheme + host:digits`: that host and port, the scheme's protocol, the TLS flag and the certificate directory |
| DockerConnection.ResolveHostPortRoundTrip | tests/remote-connection.test.ts:44-53 | writing a colon-free host and any port `n` into DOCKER_HOST and resolving gives back exactly that host and `n` |
| DockerConnection.ResolveHostWithoutPort | tests/remote-connection.test.ts:176-184 | a host without a port takes DOCKER_PORT when it is set and non-empty (failing exactly when that is not a valid port), otherwise 2375 or 2376 |
| DockerConnection.ResolveHostWithPortVariable | tests/remote-connection.test.ts:176-184 | a host without a port and a digit-string DOCKER_PORT of valid value: the port is that value |
| DockerConnection.ResolveHttpAgreesWithTcp | tests/remote-connection.test.ts:55-64 | `http://` and `tcp://` resolve identically, whatever follows them |
| DockerConnection.ResolveBareAgreesWithTcp | tests/remote-connection.test.ts:77-86 | a bare `host[:port]` resolves as if `tcp://` were written before it |
| DockerConnection.ResolveHostPrecedence | tests/remote-connection.test.ts:167-174 | a DOCKER_HOST that is not `unix://` changes the result compared with no DOCKER_HOST; `unix:///var/run/docker.sock` does not |
| ConnectionCases.PortTexts | tests/remote-connection.test.ts:113-127 | "2375", "2376" and "3000" are digit strings with those values |
| ConnectionCases.Parse2375 | tests/remote-connection.test.ts:194 | `parseInt('2375', 10)` is 2375 |
| ConnectionCases.Parse2376 | tests/remote-connection.test.ts:221 | `parseInt('2376', 10)` is 2376 |
| ConnectionCases.Parse3000 | tests/remote-connection.test.ts:114-117 | `parseInt('3000', 10)` is 3000 |
| ConnectionCases.DockerPortCases | tests/remote-connection.test.ts:113-127 | DOCKER_PORT "3000" reads as 3000; unset, the or-fallbacks to '2375' and '2376' read as 2375 and 2376 |
| ConnectionCases.ResolvePortCases | tests/remote-connection.test.ts:113-127 | the resolver's port choice gives 3000 for DOCKER_PORT "3000" and 2375 or 2376 when it is unset |
| ConnectionCases.DefaultLocalConnection | tests/remote-connection.test.ts:24-33 | with all four variables deleted: the default socket, no TLS, no certificate directory |
| ConnectionCases.UnixSocketHost | tests/remote-connection.test.ts:37-42 | `unix:///var/run/docker.sock` gives the socket `/var/run/docker.sock` |
| ConnectionCases.TcpHost | tests/remote-connection.test.ts:44-53 | `tcp://192.168.1.100:2375` gives host 192.168.1.100, port 2375, http |
| ConnectionCases.HttpHost | tests/remote-connection.test.ts:55-64 | `http://192.168.1.100:2375` gives host 192.168.1.100, port 2375, http |
| ConnectionCases.HttpsHost | tests/remote-connection.test.ts:66-75 | `https://192.168.1.100:2376` gives host 192.168.1.100, port 2376, https |
| ConnectionCases.BareHostPort | tests/remote-connection.test.ts:77-86 | `192.168.1.100:2375` gives host 192.168.1.100, port 2375, http |
| ConnectionCases.TlsVerifyCases | tests/remote-connection.test.ts:89-104 | "1" and "true" turn verification on in the resolved configuration, "0" leaves it off |
| ConnectionCases.HttpsWithTls | tests/remote-connection.test.ts:142-152 | https at 192.168.1.100:2376 with verification "1" and certificates in `/home/user/.docker/certs`: exactly that configuration |
| ConnectionCases.LocalhostTunnel | tests/remote-connection.test.ts:154-164 | `tcp://localhost:2375` gives host localhost, port 2375, http |
| ConnectionCases.HostOverridesDefaultSocket | tests/remote-connection.test.ts:168-174 | `tcp://192.168.1.100:2375` changes the result compared with no DOCKER_HOST and is not the default socket |
| ConnectionCases.DockerPortOverridesDefault | tests/remote-connection.test.ts:176-184 | `tcp://192.168.1.100` with DOCKER_PORT "3000" gives port 3000, so neither 2375 nor 2376 |
| ConnectionCases.TcpUrlParts | tests/remote-connection.test.ts:188-195 | `'tcp://192.168.1.100:2375'.replace('tcp://', '').split(':')` is `['192.168.1.100', '2375']` |
| ConnectionCases.TcpUrlWithoutPort | tests/remote-connection.test.ts:197-204 | `'tcp://192.168.1.100'.replace('tcp://', '').split(':')` is `['192.168.1.100']`, so `parts[1]` is undefined |
| ConnectionCases.UnixUrlPath | tests/remote-connection.test.ts:206-211 | `'unix:///var/run/docker.sock'.replace('unix://', '')` is `/var/run/docker.sock` |
| ConnectionCases.HttpsUrlParts | tests/remote-connection.test.ts:213-222 | `'https://secure.example.com:2376'.replace('https://', '').split(':')` is `['secure.example.com', '2376']` |

## Left out

- The construction of the `dockerode` client (`new Docker(...)`) is left out. It is a foreign library; the model stops at the options record (`Target`) that would be handed to it.
- The snapshot, mutation and restore of `process.env` in the test harness is left out. The environment is an explicit immutable `map<string, string>` parameter.
- Reading the certificate files in `DOCKER_CERT_PATH` is left out, because it is file I/O. The path is carried through as an opaque string.
- The resolver's own source file is not part of this model. Its steps are taken from the expressions the suite evaluates inline, and the following points are modelling choices that no assertion in the suite makes:
  - An unreadable port (NaN, or outside 1..65535) yields `Err(InvalidPort(text))`.
  - A port written in DOCKER_HOST takes precedence over DOCKER_PORT.
  - An empty DOCKER_HOST counts as set; it is read as a bare host.
  - An empty DOCKER_PORT falls back to the default, as `||` does.
- Errors for a missing certificate directory with TLS on, an empty socket path and an unrecognised host form are not modelled. No code shown raises or asserts them.
- `DOCKER_TLS_VERIFY` does not switch a `tcp://` or `http://` host to https. The suite only re-reads the variables (lines 142-152), so the protocol is the scheme's.
- Hosts that contain `:` (IPv6 literals) are not supported. The model follows `split(':')` with `parts[0]`/`parts[1]`, which cuts at the first colon. The general lemmas require a colon-free host.
- JsStrings.ReplaceFirst: a replacement text holding `$` is excluded, because JavaScript expands `$&`, `$$`, `` $` `` and `$'` in it and the model inserts the text literally. Every call in the suite replaces by `''`.
- `ParseInt` follows `parseInt(s, 10)` for the inputs the resolver gives it. Two things are not modelled:
  - Characters outside the Basic Multilingual Plane: strings are sequences of code points, not UTF-16 units.
  - Values beyond 2^53, which lose precision in JavaScript's numbers; integers here are exact.
- Port numbers are exact integers. No JavaScript number rounding applies to them, since they are checked against 1..65535.
