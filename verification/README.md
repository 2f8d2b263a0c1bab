# ws-xhttp-server-nodejs: handshake parser and XHTTP session multiplexer

This project models the core of `index.js`, a single-file Node.js proxy
endpoint. The server accepts VLESS and Trojan connections over WebSocket and
over "XHTTP", a chunked-HTTP transport. An XHTTP logical connection is a
session. A session is named by the third path segment of the request URL. It
pairs one long-lived GET response, used as the downlink, with one or more POST
request bodies, used as the uplink.

The model covers:

- **Handshake parser** (`handshake.dfy`). The first data chunk is classified
  as VLESS (at least 17 bytes, first byte 0x00) or Trojan (at least 58
  bytes). The credential is then checked: the 16 raw UUID bytes for VLESS,
  or a case-insensitive SHA-224 hex digest for Trojan. Finally the
  destination host, the port and the offset of the initial payload are
  decoded. Reads follow JavaScript `Buffer` rules:
  - an index past the end yields `undefined` (modelled as `Option`);
  - `subarray` clamps;
  - `readUInt16BE` throws (modelled as the error `ReadPastEnd`).
- **Wire encoders and round trips** (`handshake_wire.dfy`). Reference
  encoders build well-formed VLESS and Trojan headers. Decoding an encoded
  header gives back the request's destination and payload.
- **Parser properties** (`handshake_facts.dfy`):
  - classification;
  - credential checks;
  - truncated headers;
  - the single-bit-flip behaviour of the digest check.
- **IPv4 literal test and `resolveHost`** (`hostliteral.dfy`). The anchored
  dotted-quad regular expression is modelled, and the name resolver is a
  parameter.
- **Session id from the URL** (`routing.dfy`). A path with no id, or a blank
  one, gets `stream-none-` followed by a fresh UUID, which is a parameter.
- **Session multiplexer** (`sessions.dfy`). This is a state machine over a
  `World` holding:
  - the session table;
  - every response, with everything written to it;
  - every destination connection, with what was written or piped into it,
    in order;
  - the pending handshake listeners and acknowledgements;
  - the pending timers.

  Each event of the event loop is one step function:
  - GET and POST requests;
  - a body's first chunk;
  - a body's end;
  - a response closing;
  - the destination connecting, sending data, erroring or closing;
  - a timer firing.

  Timers fire in any order.
- **Multiplexer properties** (`session_facts.dfy`, `session_scenarios.dfy`):
  - downlink dispatch order and buffer flush;
  - phase transitions;
  - FIFO delivery of queued uplink bodies on connect;
  - teardown;
  - whole opening exchanges for VLESS and Trojan clients;
  - an event trace for the stale-teardown finding below.
- **Reachable worlds** (`session_invariants.dfy`). Every identifier in use
  lies below its counter in every world a run of events reaches from the
  empty server. So the scenarios that need free identifiers apply to every
  reachable world.

The session machine is built on the corrected members of the two findings
below: `Handshake.DecodeVless` and `Sessions.FireCleanup`. The members that
follow the source as written are `Handshake.DecodeVlessAsWritten` and
`Sessions.FireCleanupAsWritten`, and lemmas tie each pair together.

`JsText`, `JsBuffer` and `Wrappers` hold the string, buffer and result
helpers.

Three behaviours of the code are worth stating up front, because a reader
might expect otherwise:

- **Single-bit flips of the Trojan digest.** The digest comparison at
  index.js:313-315 lower-cases both sides before comparing. Flipping bit 5
  (0x20) of a digest letter `a`-`f` turns it into its upper-case form, so the
  header still matches. Every other single-bit flip of the 56 digest bytes
  refuses the header. `HandshakeFacts.TrojanSingleBitFlip` proves exactly
  this.
- **The 'Timeout' teardown.** It is scheduled by the inactivity check but
  releases nothing, because the release list on index.js:267 omits
  'Timeout'. The model keeps this.
- **IPv6 destinations.** These are not decoded. Both variants skip 16 bytes
  and record the placeholder host text "ipv6" (`Host.Ipv6Placeholder`).

## Model

Operations whose contracts are stated by separate lemmas carry a row that
names those lemmas; the lemmas have rows of their own.

| member | source | states |
|---|---|---|
| Handshake.Classify | index.js:230-238 | Specified by `HandshakeFacts.ParseClassifies`: a chunk of at least 17 bytes starting with 0x00 is VLESS, otherwise one of at least 58 bytes is Trojan, otherwise it is refused. |
| HandshakeFacts.ParseClassifies | index.js:230-238 | A chunk is refused without decoding exactly when it is neither ≥17 bytes starting with 0x00 nor ≥58 bytes. An accepted chunk is VLESS exactly in the first case, and Trojan otherwise. The WebSocket path at lines 292-293 applies the same test. |
| Handshake.Parse | index.js:228-245 | Specified by `HandshakeFacts.ParseClassifies`, the round trips `HandshakeWire.VlessRoundTrip` and `HandshakeWire.TrojanRoundTrip`, and the refusal lemmas below: classification, then the matching decoder. |
| Handshake.DecodeVlessAsWritten | index.js:302-311 | Specified by `HandshakeFacts.VlessCorrectionOnlyRefuses`, `HandshakeFacts.VlessTruncatedIPv4`, `HandshakeFacts.VlessMissingDomainLength` and `HandshakeFacts.VlessMissingIPv4`: the VLESS branch as written, which reads the port before the address and accepts an address cut short. |
| Handshake.DecodeVless | index.js:302-311 | The corrected VLESS decoder. An accepted header has its payload offset within the chunk and an IPv4 host with all four octets. Its other properties are in `HandshakeWire.VlessRoundTrip` and the VLESS lemmas below. |
| HandshakeFacts.VlessNeedsIdentity | index.js:303-304 | A VLESS header is accepted only when bytes 1..16 equal the configured UUID bytes. Otherwise it is refused as a bad identity. |
| HandshakeFacts.VlessUnknownTagRejected | index.js:305-310 | With the identity and port present, an address type byte other than 1, 2 or 3, or a missing one, refuses the header. |
| Handshake.ReadAddress | index.js:308-321 | The address reader shared by both variants, with `Buffer` reads. An IPv4 read moves the cursor by 4, and its host is the four bytes only when they all arrived; otherwise it has fewer. A domain read yields a NaN cursor exactly when its length byte is missing. Otherwise the cursor moves past the length byte plus the declared length, and the host is never longer than declared. |
| HandshakeFacts.VlessCorrectionOnlyRefuses | index.js:305-311 | Where the corrected VLESS decoder accepts, the as-written branch accepts the same host, port and payload cursor. Both refuse for the same reason. They differ exactly when the as-written cursor is NaN or past the end of the chunk. |
| HandshakeFacts.VlessMissingDomainLength | index.js:305-311 | A concrete 22-byte VLESS header with address type 2 and no length byte. The as-written branch accepts it with host "" and a NaN cursor. The corrected parse refuses it as a read past the end. |
| HandshakeFacts.VlessMissingIPv4 | index.js:305-311 | A concrete 22-byte VLESS header with address type 1 and no address bytes. The as-written branch accepts it with an empty host, whose text "" is not an IPv4 literal and so goes to the resolver. The corrected parse refuses it. |
| HandshakeFacts.VlessTruncatedIPv4 | index.js:305-311 | A VLESS header cut inside its IPv4 address is accepted as written. The host holds only the octets that arrived, and the payload offset lies past the end, so no initial payload is written. The corrected parse refuses it as a read past the end. |
| HandshakeFacts.VlessDomainHasLength | index.js:309 | Every accepted VLESS domain destination has its length byte inside the chunk. Its payload offset is tag + 2 + length, and its host is exactly the declared bytes. |
| Handshake.DigestMatches | index.js:313-315 | Specified by `HandshakeFacts.DigestCaseInsensitive`: the case-insensitive comparison of the 56 leading bytes with the hex digest. |
| HandshakeFacts.TrojanNeedsDigest | index.js:313-315 | A Trojan header is accepted only when its first 56 bytes match the digest. Otherwise it is refused as a bad identity. |
| HandshakeFacts.DigestCaseInsensitive | index.js:313-315 | For a lower-case hex digest, the comparison accepts exactly the 56-byte heads whose every byte is the digest character or its upper-case form. |
| HandshakeFacts.TrojanSingleBitFlip | index.js:313-315 | Flipping one bit in the digest part of a valid Trojan header refuses it, except bit 5 of a letter a-f. That flip parses to the same destination. |
| Handshake.DecodeTrojan | index.js:312-324 | Specified by `HandshakeFacts.TrojanNeedsDigest`, `HandshakeFacts.TrojanNeedsConnectCommand`, `HandshakeFacts.TrojanUnknownTagRejected`, `HandshakeFacts.TrojanAddressComplete` and `HandshakeWire.TrojanRoundTrip`. |
| HandshakeFacts.TrojanNeedsConnectCommand | index.js:316-318 | Once the digest matches, the header is refused for a bad command exactly when the byte after the digest (and after the optional CR LF) is missing or not 1. |
| HandshakeFacts.TrojanUnknownTagRejected | index.js:319-321 | Once the digest matches and the command is CONNECT, the header is refused for its address type exactly when the type byte is missing or is not 1, 3 or 4. |
| HandshakeFacts.TrojanAddressComplete | index.js:319-324 | An accepted Trojan header has its payload offset within the chunk. An IPv4 host has all four octets, and a domain host has its length byte in the chunk and all its declared bytes. This holds because the port is read after the address. |
| Handshake.InitialPayload | index.js:353 | Specified by `HandshakeWire.VlessRoundTrip`, `HandshakeWire.TrojanRoundTrip` and `HandshakeFacts.VlessTruncatedIPv4`: the bytes after the header, or nothing when the cursor is at or past the end. |
| HandshakeWire.PortRoundTrip | index.js:306 | Two big-endian bytes written for a port below 65536 read back as that port. |
| HandshakeWire.VlessRoundTrip | index.js:302-311 | For every valid VLESS request, parsing its encoding yields the request's host, port and header length, and the initial payload is exactly the request's payload. |
| HandshakeWire.TrojanRoundTrip | index.js:312-324 | For every valid Trojan request (either CR LF present or not), parsing its encoding yields the request's host, port and header length, and the initial payload is exactly the request's payload. |
| HostLiteral.IsIPv4Literal | index.js:31-32 | Specified by `HostLiteral.OctetTokenMeansByte` and `HostLiteral.DottedIsLiteralIffFour`: the anchored dotted-quad regular expression. |
| HostLiteral.OctetTokenMeansByte | index.js:31 | One octet group of the regular expression matches a token exactly when it is 1 to 3 digits whose value is at most 255. |
| HostLiteral.DottedText | index.js:308 | Specified by `HostLiteral.DottedIsLiteralIffFour`: the text of `subarray(...).join('.')`. |
| HostLiteral.DottedIsLiteralIffFour | index.js:31-32 | The dotted text of decoded address bytes is an IPv4 literal exactly when there are four bytes. |
| HostLiteral.ResolveHost | index.js:30-39 | Specified by `HostLiteral.ResolvedIsLiteralOrHost` and `HostLiteral.DottedQuadSkipsLookup`. |
| HostLiteral.ResolvedIsLiteralOrHost | index.js:30-39 | When the resolver returns only IPv4 literals, the resolved host is a literal exactly when the host was one or the lookup succeeded. A resolved host that is not a literal is the host unchanged. Resolving twice gives the same result as resolving once. |
| HostLiteral.DottedQuadSkipsLookup | index.js:30-32 | A fully decoded IPv4 destination is connected to as written, whatever the resolver would answer. |
| JsText.SplitJoin | index.js:74-75 | Splitting the pieces joined by a separator gives back the pieces, when none of them contains the separator. |
| JsText.JoinSplit | index.js:74-75 | Joining the pieces of a split with the separator gives back the text, so `split` loses nothing but the separators. |
| Routing.SessionIdOf | index.js:74-80 | The session id is never empty. It is either the generated `stream-none-` id or a non-blank path segment free of '/' and '?'. |
| Routing.SessionIdRoundTrip | index.js:74-76 | For a URL `/route/id` followed by nothing, by a further path or by a query, the id read back is exactly `id`. |
| Routing.MissingIdIsGenerated | index.js:76-80 | A URL with only the route segment, with or without a query, gets the generated id. |
| Routing.BlankIdIsGenerated | index.js:78-80 | A blank id segment (trimmed to "") gets the generated id. |
| Sessions.Create | index.js:250-261 | Specified by `SessionFacts.CreateIsFresh`. |
| SessionFacts.CreateIsFresh | index.js:250-261 | A created session is a new object: its serial differs from every other session's, it is Idle with no channel, destination, buffer or queue, and other sessions are unchanged. The inactivity check it arms would, on firing at once, request a 'Timeout' teardown of it. |
| Sessions.Dispatch | index.js:115-137 | Specified by `SessionFacts.DispatchDeliversOnce` and `SessionFacts.Channel`. |
| SessionFacts.DispatchDeliversOnce | index.js:115-137 | A downlink chunk is delivered exactly once. With a writable channel, that response's log grows by the chunk and the session is unchanged. Otherwise the buffer grows by the chunk and no response changes. Nothing else changes. |
| SessionFacts.Channel | index.js:103-131 | The dispatch target is writable by `tryWrite`'s checks. No target exists exactly when neither response is writable. |
| SessionFacts.DispatchAllDelivers | index.js:145-148 | Dispatching a run of chunks sends all of them, in order, to the same channel, or appends all of them, in order, to the buffer. |
| Sessions.Flush | index.js:139-151 | Specified by `SessionFacts.FlushDelivers`, `SessionFacts.FlushEmptyIdDrops` and `SessionFacts.FlushKeeps`. |
| SessionFacts.FlushDelivers | index.js:139-151 | A flush empties the buffer and delivers its chunks in their original order to the dispatch channel. With no writable channel the world is unchanged. |
| SessionFacts.FlushEmptyIdDrops | index.js:143-144 | Under the empty id the identity lookup yields a falsy key, so the buffered chunks are dropped. |
| SessionFacts.FlushKeeps | index.js:139-151 | A flush changes only the response logs and this session's buffer. |
| Sessions.ScheduleCleanup | index.js:263-266 | Specified by `SessionFacts.ScheduledTeardownFires`. |
| SessionFacts.ScheduledTeardownFires | index.js:263-276 | A teardown request for a known id adds one timer and keeps the others. Firing it at once releases exactly the session present when it was requested, for a removing reason, and changes nothing for 'Timeout'. |
| Sessions.OnGet | index.js:153-166 | Specified by `SessionFacts.GetAttachesAndFlushes` and `SessionFacts.BufferedChunksPrecedeLiveData`. |
| SessionFacts.GetAttachesAndFlushes | index.js:153-161 | A GET makes the new response the downlink. The response receives the whole buffer in order and the buffer empties. A new session is Idle, and other sessions and responses are unchanged. |
| SessionFacts.BufferedChunksPrecedeLiveData | index.js:153-161 | Chunks buffered before a GET reach it before any chunk the destination sends afterwards. |
| Sessions.OnResponseClosed | index.js:163-164 | Specified by `SessionFacts.ClosedDownlinkFallsBack` and `SessionFacts.StaleCloseSparesSession`. |
| SessionFacts.ClosedDownlinkFallsBack | index.js:163-164 | Once the downlink response closes it gets no more writes. The next chunk goes to a writable uplink, or to the buffer. |
| SessionFacts.StaleCloseSparesSession | index.js:163 | The close handler of a response from an earlier session under the same id leaves the current session's channels alone. |
| Sessions.OnPost | index.js:168-215 | Specified by `SessionFacts.PostOpensSession`, `SessionFacts.PostFlushesBuffer`, `SessionFacts.AttachUplinkKeeps`, `SessionFacts.PostOnIdle`, `SessionFacts.PostOnConnecting` and `SessionFacts.PostOnEstablished`. |
| SessionFacts.PostOpensSession | index.js:176-181 | A POST for an unknown id creates a Connecting session with this response as uplink and this body as its handshake. |
| Sessions.AttachUplink | index.js:183-197 | Specified by `SessionFacts.AttachUplinkKeeps`, `SessionFacts.PostFlushesBuffer` and `SessionFacts.AckEndsUplink`. |
| SessionFacts.PostFlushesBuffer | index.js:184-197 | A POST on a known session flushes the buffer. The buffer ends empty, and its chunks, in their original order, reach the downlink if it is writable and otherwise the new uplink response. They arrive ahead of any chunk dispatched later. |
| SessionFacts.AttachUplinkKeeps | index.js:184-197 | A POST on a known session makes the response the uplink and registers the acknowledgement when due. Only that, the buffer and the response logs change. |
| Sessions.OnBodyEnd | index.js:190-194 | Specified by `SessionFacts.AckEndsUplink`. |
| SessionFacts.AckEndsUplink | index.js:189-195 | A POST response on a known session is ended when its body ends, exactly when a downlink is attached and the request declared Content-Length. |
| Sessions.Route | index.js:199-208 | Specified by `SessionFacts.PostOnIdle`, `SessionFacts.PostOnConnecting`, `SessionFacts.PostOnEstablished` and `SessionFacts.StepAdvances`. |
| SessionFacts.PostOnIdle | index.js:205-208 | A POST on an Idle session moves it to Connecting and makes this body the handshake. |
| SessionFacts.PostOnConnecting | index.js:202-203 | A POST on a Connecting session appends its body to the end of the queue and starts no new handshake. |
| SessionFacts.PostOnEstablished | index.js:199-200 | A POST on an Established session pipes its body into the destination and queues nothing. |
| SessionFacts.PostsQueueInOrder | index.js:202-203 | Any number of POSTs while connecting queue their bodies in arrival order after those already queued. |
| Sessions.OnFirstChunk | index.js:217-247 | Specified by `SessionFacts.FirstChunkWithTargetForwards`, `SessionScenarios.AcceptedHandshakeOpensTarget`, `SessionScenarios.RefusedHandshakeOpensNothing` and `SessionScenarios.RefusalReasons`. |
| SessionFacts.FirstChunkWithTargetForwards | index.js:221-227 | When the session already has a destination, the first chunk is not parsed: it is written to the destination and the rest of the body is piped after it. No session, response or timer changes. |
| Sessions.Drain | index.js:343-351 | Specified by `SessionFacts.ConnectDrainsInOrder`. |
| Sessions.OnConnected | index.js:336-364 | Specified by `SessionFacts.ConnectDrainsInOrder`, `SessionScenarios.ConnectedKeeps` and `SessionScenarios.OpeningExchange`. |
| SessionFacts.ConnectDrainsInOrder | index.js:336-357 | On connect, the session becomes Established with an empty queue. Pipes and writes are attached to the destination in this order: the queued bodies, then the bytes after the header (if any), then the handshake body. VLESS sends the 0x00 0x00 acknowledgement downlink; Trojan sends nothing. The source does not guarantee that the bytes of different bodies arrive in this order. |
| SessionFacts.QueuedBodiesReachDestinationInOrder | index.js:343-357 | Bodies POSTed while connecting have their pipes attached in POST order, before the initial payload write and the handshake body's pipe. Byte order across these bodies is not guaranteed by the source. |
| Sessions.OnTargetData | index.js:360 | Specified by `SessionFacts.BufferedChunksPrecedeLiveData`: data from a connected destination goes through the dispatcher. |
| Sessions.OnTargetError | index.js:366-369 | Specified by `SessionScenarios.ErrorThenClose`. |
| Sessions.OnTargetClose | index.js:370-373 | Specified by `SessionScenarios.ErrorThenClose`. |
| SessionScenarios.ErrorThenClose | index.js:366-373 | A destination that errors and then closes schedules two teardowns for its session, 'Target Error' then 'Target Closed'. |
| Sessions.Step | index.js:153-373 | Specified by `SessionFacts.StepAdvances`: one event of the event loop. |
| SessionFacts.StepAdvances | index.js:199-208 | No event moves a surviving session back a phase (Idle, Connecting, Established). Every event keeps "only a Connecting session holds queued bodies". |
| SessionFacts.InitialHasNoQueue | index.js:250-254 | The empty server satisfies the queue invariant. |
| Sessions.Release | index.js:267-273 | Specified by `SessionFacts.CleanupTearsDown`. |
| Sessions.FireCleanup | index.js:263-276 | The corrected teardown. Specified by `SessionFacts.CleanupTearsDown`, `SessionFacts.CleanupSpares` and `SessionFacts.CleanupIdempotent`. |
| Sessions.FireCleanupAsWritten | index.js:263-276 | The teardown as written. Specified by `SessionFacts.CleanupAsWrittenAgreesOnCurrent` and `SessionFacts.StaleCleanupDeletesNewerSession`. |
| SessionFacts.CleanupTearsDown | index.js:266-273 | A removing teardown of the current session destroys its destination, ends both responses, destroys its queued bodies and removes it. Nothing else changes. |
| SessionFacts.CleanupSpares | index.js:267 | A teardown for 'Timeout', for an unknown id, or for an earlier session under the id changes nothing. |
| SessionFacts.RemovingExceptTimeout | index.js:267 | A teardown reason releases the session exactly when it is not 'Timeout'. |
| SessionFacts.CleanupIdempotent | index.js:263-276 | Firing the same teardown twice equals firing it once. |
| SessionFacts.CleanupAsWrittenAgreesOnCurrent | index.js:263-276 | On the session it was scheduled for, the source's teardown and the corrected one agree. |
| SessionFacts.StaleCleanupDeletesNewerSession | index.js:272 | As written, a teardown left over from an earlier session deletes the newer session's entry without ending its responses or destroying its destination. The corrected teardown leaves it. |
| Sessions.OnInactivity | index.js:256-259 | Specified by `SessionFacts.InactivityCheckRequests` and `SessionFacts.InactivityNeverRemoves`. |
| Sessions.OnTimer | index.js:256-276 | Specified by `SessionFacts.InactivityNeverRemoves`, `SessionFacts.ScheduledTeardownFires` and `SessionFacts.CreateIsFresh`. |
| SessionFacts.InactivityNeverRemoves | index.js:256-259 | The inactivity check, and the 'Timeout' teardown it schedules, never remove a session or touch responses and destinations. |
| SessionFacts.InactivityCheckRequests | index.js:256-259 | The fired check leaves the other timers in order. It adds a 'Timeout' teardown bound to the session's serial exactly when the session is present, has no destination and is not established, and adds nothing otherwise. |
| SessionScenarios.RefusedHandshakeOpensNothing | index.js:228-245 | A refused first chunk opens no destination and changes no session. It schedules the session's teardown. |
| SessionScenarios.RefusalReasons | index.js:240-244 | The teardown reason is 'Error' exactly for a read past the end, and 'Protocol Error' for an unrecognised chunk or any other refusal. A read past the end covers the exception `readUInt16BE` throws, and also the corrected refusals of a VLESS address cut short, where the source throws nothing. |
| SessionScenarios.OpeningExchange | index.js:327-357 | A new session opened by a POST whose first chunk parses is Established on the new destination once it connects. The destination has the bytes after the header written, then the body piped. The POST response carries the VLESS acknowledgement or, for Trojan, nothing. |
| SessionScenarios.AcceptedHandshakeOpensTarget | index.js:327-334 | A first chunk that parses opens exactly one new destination, for the parsed host and port, with nothing written to it yet. The destination is recorded on the session; responses and timers are unchanged. |
| SessionScenarios.ConnectedKeeps | index.js:336-357 | The connect callback creates and removes no session, response or timer, and changes no session serial. It leaves its own destination attached to the same session and not destroyed. |
| SessionScenarios.VlessOpening | index.js:336-357 | For any valid VLESS request, the destination is the request's host and port. It has exactly the request's payload written, then the body piped. The client gets [0x00, 0x00]. |
| SessionScenarios.TrojanOpening | index.js:336-357 | For any valid Trojan request, the destination is the request's host and port. It has exactly the request's payload written, then the body piped. The client gets no acknowledgement. |
| SessionInvariants.StepKeepsAhead | index.js:250-373 | Every event keeps every response, body and destination identifier in use, and every session serial, below the counter that hands out the next one. |
| SessionInvariants.ReachableIsFresh | index.js:250-373 | Every world reached from the empty server by any run of events has free next response, body and destination identifiers. |
| SessionInvariants.ReachableOpening | index.js:176-181 | In every reachable world, a POST that opens a new session whose first chunk parses leaves the session Established on the new destination once it connects. |
| SessionInvariants.ReachableGetFlushes | index.js:153-161 | In every reachable world, a GET's new downlink receives the whole buffer in order, and the buffer ends empty. |
| SessionScenarios.StaleTeardownTrace | index.js:263-276 | From the empty server: open "s", the destination errors and closes, the first teardown fires, and "s" is POSTed again. The leftover teardown then deletes the live new session as written, and changes nothing when corrected. |

## Left out

- HTTP bootstrap (index.js:59-71, 90-97) is not modelled, because it is outside the proxy core. This covers the decoy page, `/debug_network`, 404, `checkContinue`, and the response headers set by `setupXhttpResponse`.
- WebSocket wiring (index.js:283-296, 356-363) is not modelled beyond the shared classification and parser. This covers stream piping, `ws.close()` on refusal, and the missing exception handler around the parser on that path.
- DNS is a parameter of `HostLiteral.ResolveHost`. In the session machine, name resolution and `net.connect` are folded into the first-chunk step, and the resolved address is not recorded.
- The `await` during resolution is treated as atomic: no other event runs between parsing and opening the destination.
- SHA-224 and the decoding of the UUID's hex text are not modelled. The raw UUID bytes and the hex digest are given as the fields of `Handshake.Secret`.
- `crypto.randomUUID()` is the `freshUuid` parameter of `Routing.SessionIdOf`.
- UTF-8 decoding of domain names is not modelled. `Host.Domain` keeps the raw bytes, and the IPv4 host keeps its bytes; `HostLiteral.DottedText` gives their dotted text.
- Real time is not modelled. The 60-second and 500-millisecond delays become timer entries that fire in any order.
- Logging is not modelled.
- Flow control is not modelled: `pause`/`resume`, back-pressure and the `end: false` pipe option. A destination's inflow records writes and pipes in the order they are attached. Pipes move data on later ticks, so this is not the order in which bytes arrive.
- An exception thrown by `res.write` inside `tryWrite` is not modelled: a write that passes the checks always succeeds.
- The request `error` handlers (index.js:165, 214) are not modelled.
- The `isHandshake` flag stored with buffered chunks is not modelled, because it is never read. Neither is the `Buffer.isBuffer` branch of the flush, because it is never taken.
- The captured `session` object in `processNewHandshake` (index.js:221) is modelled by looking up the id at the time the chunk arrives.
- Sessions.FireCleanupAsWritten: on a stale teardown it does not re-release the resources of the session captured when the timer was set. This matters only if that session was itself deleted by an earlier stale teardown.
- Handshake.Parse: it decodes VLESS with the corrected `Handshake.DecodeVless`. So it refuses, with a read past the end, the headers whose address is cut short, which index.js:305-311 accepts and connects. `HandshakeFacts.MissingIPv4Chunk` and `HandshakeFacts.MissingDomainLengthChunk` are two such headers. The as-written branch is `Handshake.DecodeVlessAsWritten`.
- Sessions.OnFirstChunk: it goes through the corrected `Handshake.Parse`. On a VLESS header whose address is cut short (`HandshakeFacts.MissingIPv4Chunk`), it opens no destination and schedules an 'Error' teardown. The source connects to the partial host instead.
- Sessions.OnTimer: it fires a delayed teardown through the corrected `Sessions.FireCleanup`. A teardown left over from an earlier session under the same id therefore changes nothing, whereas index.js:272 deletes the newer session. The as-written teardown is `Sessions.FireCleanupAsWritten`, shown in `SessionScenarios.StaleTeardownTrace`.
- Sessions.Step: it is built on the corrected `Handshake.Parse` and `Sessions.FireCleanup`, and differs from the source on the inputs named in the two lines above.
- SessionScenarios.RefusalReasons: 'Error' for a read past the end also covers the corrected VLESS refusals, where the source throws nothing and connects instead.
- Sessions.OnTargetClose: like the source, it keys the teardown by session id (index.js:371). A destination released by a teardown still emits 'close' later, and that schedules a teardown of whatever session then holds the id. The corrected `Sessions.FireCleanup` does not prevent this, because the timer is bound to the session present when 'close' arrives. The model keeps the source's behaviour.

## Findings

| source | as written | input that shows it | evidently intended | confidence | as-written member | corrected member |
|---|---|---|---|---|---|---|
| index.js:305-311 | The VLESS branch reads the port before the address and never checks that the address arrived. If the header ends right after address type 2, `firstChunk[cursor]` is `undefined`: the host becomes "" and the payload cursor NaN. If it ends inside or right after address type 1, the host is the partial or empty dotted text. In both cases the handshake is accepted and a connection is attempted. | 0x00, the 16 UUID bytes, then 0x00 0x01 0x01 0xBB 0x02 (`HandshakeFacts.MissingDomainLengthChunk`), or the same ending in 0x01 (`HandshakeFacts.MissingIPv4Chunk`) | Refuse a VLESS header whose address is cut short, as the Trojan branch does by reading its port after the address | medium, not executed | Handshake.DecodeVlessAsWritten | Handshake.DecodeVless |
| index.js:263-276 | The delayed teardown deletes the table entry by id. A teardown scheduled for an earlier session therefore deletes a newer session under the same id, leaving its responses open and its destination connected. | POST "s", destination connects, errors, closes; first teardown fires; POST "s" again; second teardown fires (`SessionScenarios.StaleTeardownTrace`). In Node the 'error' and 'close' of one socket arrive in the same loop iteration, so their two 500 ms timers fire almost together. The trace needs the new POST handled between them, and relies on the model's timers firing in any order. | A teardown acts only on the session it was scheduled for | low, not executed | Sessions.FireCleanupAsWritten | Sessions.FireCleanup |
