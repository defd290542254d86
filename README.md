# mashecls-to-statsd: the event-to-metric derivation, in Dafny

mashecls-to-statsd subscribes to Mashery's ECLS event stream
over a WebSocket and republishes every API-call event as statsd metrics under
three roots: `mashery.service`, `mashery.developer` and `mashery.endpoint`.
This project models the part of `mashecls-to-statsd.go` that turns a received
frame into metric mutations:

- the read loop's filter: a frame whose text begins with `Response To` is an
  acknowledgement and is ignored; any other frame is decoded into an `ECLS`
  value and handed to `emit`, even when decoding reported an error;
- `emit`: it reads only the first record of `data`, puts `-` in place of an
  empty package, plan or API-method name, builds the three dot-delimited keys
  (service, developer = API key, endpoint = URI cut at its first `?`), and
  pushes four mutations into each namespace's buffer in a fixed order: the
  `bytes` gauge, the status-code counter, the response-string counter and the
  execution-time sample;
- the `ECLS` message and its record (mashecls-to-statsd.go:37-75), modelled as
  the datatypes `Ecls.Ecls` and `Ecls.EclsRecord`: a flat record of text fields.

Modules:

- `Strings` (strings.dfy): Go's `strings.HasPrefix` and `strings.Split` with
  a one-character separator, plus `Join` as Split's inverse.
- `Strconv` (strconv.dfy): Go's `strconv.ParseInt(s, 10, 64)`, written as the
  digit scan Go performs. `ParseIntSpec` describes the same result on the
  whole string. `FormatInt` is its inverse.
- `Ecls` (ecls.dfy): the `ECLS` message and its record.
- `Statsd` (statsd.dfy): the statsd buffer reduced to what `emit` can
  observe. Each buffer is an append-only sequence of `Absolute`, `Incr` and
  `Timing` mutations.
- `Emitter` (emitter.dfy): the keys, the derived mutations (`Derive`), and
  the `Pipeline` class. The class holds the three global buffers and has the
  methods `Emit` (the twelve pushes of `emit`) and `HandleMessage` (one pass
  of the read loop).

Behaviour that follows the code where a reader might expect otherwise:

- The service key always ends with `.` and the HTTP method, even when the
  HTTP method is empty. So it has six dot-led segments, not five.
- The developer key is `.` followed by the API key. The endpoint key is `.`
  followed by the URI before its first `?`. Neither has any other prefix.
- A `bytes` field that does not parse does not suppress the gauge. The gauge
  carries what `ParseInt` returned: 0 after a syntax error, the int64 bound
  after a range error. The timing sample is likewise always pushed.
- A failed unmarshal is only logged; `emit` still runs on whatever was
  decoded. When that value has no record, `emit` fails on `Data[0]` before
  pushing anything. In Go this is a panic, which ends the process.
  `HandleMessage` reports it as the outcome `Panicked`.

## Model

| member | source | states |
|---|---|---|
| `Strings.HasPrefix` | mashecls-to-statsd.go:211 | `strings.HasPrefix`: the prefix fits in the string and the string's first characters equal it; `HasPrefixIff` characterises it |
| `Strings.HasPrefixIff` | mashecls-to-statsd.go:211 | the control test `HasPrefix(s, p)` holds exactly when `s` is `p` followed by some rest |
| `Strings.Split` | mashecls-to-statsd.go:123 | `strings.Split` returns at least one piece, exactly one more than the separators in the string, and no piece contains the separator |
| `Strings.Join` | mashecls-to-statsd.go:143 | the pieces with one separator between each two; the inverse partner of `Split` (`SplitThenJoin`, `JoinThenSplit`) and the shape of the service key (`ServiceKeyJoinsSegments`) |
| `Strings.SplitThenJoin` | mashecls-to-statsd.go:123 | splitting loses nothing: joining the pieces with the separator gives back the string |
| `Strings.JoinThenSplit` | mashecls-to-statsd.go:143 | joining separator-free pieces and splitting again gives back exactly those pieces |
| `Strings.FirstPiece` | mashecls-to-statsd.go:123 | `Split(s, sep)[0]` is a prefix of `s`, contains no `sep`, stops at the first `sep` when there is one, and is all of `s` when there is none |
| `Strings.FirstPieceAt` | mashecls-to-statsd.go:123 | when position `i` holds the first `sep`, `Split(s, sep)[0]` is exactly `s[..i]` |
| `Strconv.ScanUint` | mashecls-to-statsd.go:138 | the digit loop of ParseUint yields a value within the uint64 range, 0 on a syntax error and the uint64 maximum on a range error |
| `Strconv.ParseInt` | mashecls-to-statsd.go:138 | the parsed byte count always lies within the int64 range and is 0 after a syntax error |
| `Strconv.ScanFrom` | mashecls-to-statsd.go:138 | from any point the scan gives a range error if the digits before the first non-digit overflow uint64, otherwise a syntax error if a non-digit follows, otherwise the decimal value |
| `Strconv.ParseIntMatchesSpec` | mashecls-to-statsd.go:138 | ParseInt agrees on every string with the whole-string description: optional sign, digits, a syntax error with 0, or a range error clamped to the int64 bound on the sign's side |
| `Strconv.FormatNat` | mashecls-to-statsd.go:138 | not in the program itself: the inverse partner of line 138's `ParseInt`, used by `FormatThenParse`; the decimal text of a natural number is non-empty, all digits, and has that number as its decimal value |
| `Strconv.FormatThenParse` | mashecls-to-statsd.go:138 | every int64 written in decimal is parsed back to itself, with no error |
| `Strconv.NonNumericIsZero` | mashecls-to-statsd.go:138 | a `bytes` field with no digit at all parses to 0 with a syntax error |
| `Emitter.IsControl` | mashecls-to-statsd.go:211 | a frame is an acknowledgement when it begins with `Response To`; `HandleMessage` ignores exactly those frames |
| `Emitter.OrPlaceholder` | mashecls-to-statsd.go:125-135 | a package, plan or API-method name in the key is never empty: an empty name becomes `-` and a non-empty name is kept as it is |
| `Emitter.PlaceholderIff` | mashecls-to-statsd.go:125-135 | the key shows `-` exactly when the name is empty or is itself `-`, and the substitution adds no dot the name did not have |
| `Emitter.ServiceKey` | mashecls-to-statsd.go:125-143 | the `.%s.%s.%s.%s.%s.%s` key of service, package, plan, endpoint, API method and HTTP method, with `OrPlaceholder` applied to package, plan and method; its segments are given by `ServiceKeyJoinsSegments` and `ServiceKeyParts` |
| `Emitter.ServiceKeyJoinsSegments` | mashecls-to-statsd.go:143 | the service key is the seven segments (empty, service, package', plan', endpoint, method', HTTP method) joined by dots |
| `Emitter.ServiceKeyParts` | mashecls-to-statsd.go:125-143 | for dot-free components the service key splits into exactly seven segments; package, plan and method become `-` exactly when empty and are otherwise unchanged; service, endpoint and HTTP method are never substituted, and the HTTP method is present even when empty |
| `Emitter.DeveloperKey` | mashecls-to-statsd.go:151 | `.` followed by the API key; `DeveloperKeyParts` reads it back |
| `Emitter.DeveloperKeyParts` | mashecls-to-statsd.go:151 | for a dot-free API key the developer key splits into an empty segment and the API key itself, never substituted |
| `Emitter.EndpointKey` | mashecls-to-statsd.go:123-159 | `.` followed by the first piece of the URI split at `?`; `EndpointKeyStripsQuery` and `EndpointKeyOfQuery` say what that piece is |
| `Emitter.EndpointKeyStripsQuery` | mashecls-to-statsd.go:159 | the endpoint key is `.` and a prefix of the URI, contains no `?`, is `.` + URI when the URI has no `?`, and otherwise stops right at the first `?` |
| `Emitter.EndpointKeyOfQuery` | mashecls-to-statsd.go:159 | for a URI `path?query` with a `?`-free path, the endpoint key is `.` + path |
| `Emitter.Group` | mashecls-to-statsd.go:144-147 | the four calls made under one key: the `bytes` gauge, the status-code counter +1, the response-string counter +1, the execution-time sample; `GroupKeyedUnder` names them all under the key |
| `Emitter.GroupKeyedUnder` | mashecls-to-statsd.go:144-147 | every mutation of a namespace's group is named under that namespace's key followed by a dot |
| `Emitter.Derive` | mashecls-to-statsd.go:138-163 | one group per namespace for a record, under the service, developer and endpoint keys, with the byte count parsed once; `DeriveShape` gives its shape, and `Pipeline.Emit` is proved to push exactly it |
| `Emitter.DeriveShape` | mashecls-to-statsd.go:138-163 | each namespace gets exactly four mutations, all named under its own key, whether or not the byte count parses: gauge, counter +1, counter +1, timing; the values are computed once and are the same in all three namespaces; the gauge carries ParseInt's value with its error discarded |
| `Emitter.Pipeline.constructor` | mashecls-to-statsd.go:80-104 | three distinct, empty buffers on clients rooted at `mashery.service`, `mashery.developer` and `mashery.endpoint` |
| `Emitter.Pipeline.Emit` | mashecls-to-statsd.go:108-167 | given a non-empty `data`, each buffer grows by exactly its own four mutations for `data[0]`, in order; later records play no part |
| `Emitter.Pipeline.HandleMessage` | mashecls-to-statsd.go:210-221 | a `Response To` frame changes no buffer; any other frame goes to `emit` whether or not unmarshalling failed (the failure is only logged); a decoded value with no record stops before any push |
| `Statsd.StatsdBuffer.constructor` | mashecls-to-statsd.go:102-104 | a new buffer has no pending mutation |
| `Statsd.StatsdBuffer.Absolute` | mashecls-to-statsd.go:144 | a gauge set is appended to the buffer and nothing else changes |
| `Statsd.StatsdBuffer.Incr` | mashecls-to-statsd.go:145-146 | a counter increment is appended to the buffer and nothing else changes |
| `Statsd.StatsdBuffer.Timing` | mashecls-to-statsd.go:147 | a timing sample is appended to the buffer and nothing else changes |
| `Emitter.ItemsEventKeys` | mashecls-to-statsd.go:143-151 | for the event svc/pkgA/planX/ep1/GET with API key key123 and HTTP method GET, the keys are `.svc.pkgA.planX.ep1.GET.GET` and `.key123` |
| `Emitter.ItemsEvent` | mashecls-to-statsd.go:138-163 | for that event, with `bytes` "512", the service gauge is `Absolute(".svc.pkgA.planX.ep1.GET.GET.bytes", 512)`, the developer status counter is `Incr(".key123.status_code.200", 1)`, and the endpoint gauge also carries 512 |
| `Emitter.ItemsBytes` | mashecls-to-statsd.go:138 | the example's `bytes` field "512" parses to 512 with no error |
| `Emitter.ItemsEventEndpointKey` | mashecls-to-statsd.go:159 | for the example URI `/v1/items?x=1` the endpoint key is `./v1/items` |
| `Emitter.ItemsEventEndpoint` | mashecls-to-statsd.go:138-160 | for that URI and `bytes` "512", the endpoint gauge is `Absolute("./v1/items.bytes", 512)` |

## Left out

- WebSocket dial, TLS configuration, URL building from flags, the one-second heartbeat, interrupt and close-frame handling, and the `done`/timeout select (mashecls-to-statsd.go:169-253). These are network I/O and concurrency. Only the prefix test and the decode-then-emit step of the read loop are modelled.
- Creating the statsd sockets in `init`, and the exit when that fails. This is network I/O. The constructors model only the three buffers and their metric roots.
- The statsd library's own behaviour: summing counters, last-write-wins gauges, the five-second flush and the `name:value|type` wire format. That library is not part of this model. A buffer is only the ordered list of calls made on it.
- JSON decoding (`json.Unmarshal`, line 214). The decoded `ECLS` value and whether Unmarshal reported an error are inputs to `HandleMessage`.
- The execution-time conversion (`ParseFloat`, `f * 1000`, `int64(...)`, lines 139-140). This is floating-point arithmetic. The resulting milliseconds are an `int64` input to `Emit` and `HandleMessage`.
- `spew.Dump` and log output (lines 110, 206, 216). They are debug side effects. Only whether the unmarshal error was logged appears, in the `Outcome`.
- Ending the process after the panic in `emit`. `HandleMessage` returns `Panicked` and leaves the buffers unchanged.
- A received frame is bytes in Go. Here it is a string with one character per byte.
- `Strings.Split` is modelled only for a one-character separator, the only kind `emit` uses.
- `strconv.ParseInt` follows the digit loop of Go's `ParseUint` for base 10 and 64 bits, so a run of digits that overflows gives a range error even when a non-digit follows it.
- ServiceKeyParts: holds only when no key component contains a dot. A dot inside a name makes the key split differently; the code promises nothing there. `ServiceKeyJoinsSegments` gives the key's shape for every record.
- DeveloperKeyParts: holds only for an API key without a dot, for the same reason.
