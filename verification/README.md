# mGate: verified models

mGate is a gateway for MQTT, CoAP and HTTP. Its difficult parts are goroutines that
share state: two pumps that forward packets between a client and a broker, a table of
UDP connections with one reader goroutine each, and two websocket pumps that end each
other. This project models these as transition systems and proves what every
interleaving of their steps keeps. The sequential parts (the websocket byte stream,
the CoAP message gate, certificate revocation, path routing) are imperative Dafny,
proved against specifications.

`dafny verify dfyconfig.toml` checks everything.

## How the models work

A transition system has a `State`, a predicate `Enabled`, a function `Apply` and a
type `Event`. An event is one atomic step of one thread and carries whatever the
outside world answers at that point: a packet read, the decision of a hook, what a hook
left in the arguments it was given by reference. `Exec` is the state after a sequence
of events, so "for every run" is a quantification over sequences of events and hooks,
sockets and peers are arbitrary. What the program passes to the outside world is kept in
logs, and the theorems are about these logs.

The loops are there a second time in the program's own form: methods that read, ask and
write step by step (`SessionPump`, `SessionMain`, `CoapProxy`, `HttpBridgeHandshake`, `HttpBridgePump`).
Each is proved to be a run of its transition system for all answers of the outside world,
so the systems allow at least what the code does, and the theorems say what they do not
allow.

| module | subject |
|---|---|
| `SessionStream` | the MQTT engine: `Stream`, its two pumps, the error channel, the closes by the caller |
| `SessionInvariants` | the inductive invariant of the engine |
| `SessionForwarding` | forwarding, authorization, notification, Disconnect |
| `SessionErrors` | which errors are sent, and how they are worded |
| `SessionShutdown` | blocked pumps, termination |
| `SessionAfterDisconnect` | hooks that are called after Disconnect |
| `SessionCredentials` | the credentials of a CONNECT under interference |
| `SessionAuthorize` | `authorize` on a mutable session and packet |
| `SessionPump`, `SessionMain` | the loop `stream`, `notify` and `wrap`; `Stream` and the closes, as methods |
| `CoapTable`, `CoapIsolation` | the CoAP connection table and its theorems |
| `CoapTraffic` | what its sockets carry, read off the run alone |
| `CoapProxy` | `newConn`, `upUDP`, `downUDP` and `closeConn` on mutable objects |
| `CoapGate` | the CoAP message gate; DTLS against UDP |
| `WebsocketConn` | messages as one byte stream |
| `HttpBridge`, `HttpBridgeErrors` | the HTTP websocket bridge; the error it ends with |
| `HttpBridgeHandshake`, `HttpBridgePump` | the hooks before the dial; the pumps as methods |
| `Certificates`, `Crl`, `Ocsp`, `Validator` | revocation checks |
| `Routing` | the path check and rewrite |
| `Results` | Option and Result |

## Where the code and its documentation differ

- The comment at `pkg/session/stream.go:42-44` says the second routine cannot block on
  the error channel. A failed notification sends an error without ending the pump
  (`pkg/session/stream.go:108-110`), so the comment holds if and only if at most one
  notification fails: a session at rest with one failure or none has ended both pumps, and
  one with two or more always has a blocked pump (`SessionShutdown.RestExactlyWhen`). More
  than four failures are impossible, because the fourth already blocks the Up pump.
- The packet of a CONNECT is meant to leave with what AuthConnect left in the session
  (`pkg/session/stream.go:129-133`). The Down pump's hooks and interceptors and
  Disconnect share the session, so this holds in all runs exactly when none of them may
  change it.
- Hooks can be called for a client's packets after Disconnect, because `Stream` waits for
  one pump only (`pkg/session/stream.go:45-49`):
  `SessionAfterDisconnect.CallsFollowDisconnectExactlyWhen` says from which states, and
  `LastCalls` that closing the connections leaves room for one authorization and one
  notification at most.
- Nothing makes CONNECT the first packet, although section 3.1 of MQTT 3.1.1 requires it
  of clients: the first authorization is that of a CONNECT exactly if the client, or the
  interceptor, chose so (`SessionForwarding.ConnectFirstExactlyWhen`).
- The two messages of `pkg/session/stream.go:27-28` are attached to the opposite
  directions in `wrap`, so every error but the plain end of file speaks of the wrong
  direction (`SessionErrors.ErrorsNameTheOtherDirection`). The model keeps the names.
- Two returns of `downUDP` (`pkg/coap/coap.go:184-186`, `:193-195`) do not call
  `closeConn`. The entry they leave behind stays in the table for good, no other
  connection for its address is ever made, and that client gets nothing from the server
  any more (`CoapIsolation.StrandedForever`).
- `Unsubscribe` of the bridge always gets a cancelled context (`pkg/http/ws.go:62`, `:88`):
  the join cancels the context of the error group.
- The depths limit raw chains only; verified chains are always checked in full, which
  `README.md:355` and `README.md:360` of mGate do not say.
- `README.md:361` of mGate calls CRL_DISTRIBUTION_POINTS an override. The settings matter
  exactly for the certificates without a distribution point of their own
  (`pkg/tls/verifier/crl/crl.go:166-168`, `Crl.SettingsMatterExactlyWhen`). Line 364 says
  the offline issuer file verifies the offline list; the code does not use the certificate
  it reads (`pkg/tls/verifier/crl/crl.go:152-157`), so the decision depends only on whether
  it can be read (`Crl.OfflineIssuerIsUnused`), and the list counts whoever has signed it
  (`Crl.OfflineListGoverns`).
- A target reached through an empty target path and a path prefix that ends in a slash
  gets paths without a leading slash (`pkg/http/http.go:68`).

## Model

| member | source | states |
|---|---|---|
| SessionForwarding.ForwardingIsAnImage | pkg/session/stream.go:52-113 | in every reachable state the i-th packet a pump wrote is the i-th it read, passed through the interceptors and the hook of its own pass; at most the last one read is missing, and only a Down pump that refused a PUBLISH and has stopped may have added one DISCONNECT |
| SessionForwarding.DownIsTransparent | pkg/session/stream.go:75-104 | without interceptors everything written to the client is a prefix of what the broker sent, unchanged, whatever the hook does to its list of topics, except that a stopped pump may have written one DISCONNECT in place of a last PUBLISH |
| SessionForwarding.ForwardedWasAccepted | pkg/session/stream.go:69-104 | in every configuration and both directions: a forwarded packet was asked about exactly if a hook guards it, and then that hook accepted it in its own pass; the accepted calls in the hook log are those of the pump's passes, in order |
| SessionForwarding.UplinkIsAuthorized | pkg/session/stream.go:69-74 | without a post-interceptor every CONNECT, PUBLISH and SUBSCRIBE written to the broker was accepted by the matching hook in its own pass, and a PUBLISH or SUBSCRIBE carries the topic, payload or topics its hook left |
| SessionForwarding.ConnectFirstExactlyWhen | pkg/session/stream.go:115-142 | in every reachable state the first accepted authorization is AuthConnect if and only if the first packet at the gate that a hook guards is a CONNECT |
| SessionForwarding.PublishMayComeFirst | pkg/session/stream.go:135-136 | a run in which the first authorization is that of a PUBLISH |
| SessionForwarding.NotificationsFollowWrites | pkg/session/stream.go:106-157 | in every reachable state call k of the notification log is to the hook for the kind of packet number k among the CONNECT, PUBLISH, SUBSCRIBE and UNSUBSCRIBE packets written to the broker, with that packet's fields; the log is at most one behind, also after failed notifications |
| SessionForwarding.DisconnectOnceAfterFirstError | pkg/session/stream.go:45-49 | Disconnect is called once by a `Stream` that returns, only after an error; what is reported is the first error sent and what Disconnect answered; nothing is closed before |
| SessionForwarding.StoppedPumpIsSilent | pkg/session/stream.go:80-88 | a pump that has met an error or refused a message never reads or writes again, in any continuation |
| SessionErrors.EveryFailureIsReportedOnce | pkg/session/stream.go:52-113 | in every run the causes a pump has sent, and the one it is still to send, are exactly the failures it met, in order, where a refused message and a failed DISCONNECT are one; the Down pump meets at most one |
| SessionErrors.ErrorsNameTheOtherDirection | pkg/session/stream.go:26-29 | in every run each error sent, and the one `Stream` returns, is the plain end of file or worded for the direction its pump does not work in |
| SessionErrors.ErrorsCarryTheId | pkg/session/stream.go:159-175 | each error sent was raised by a step of its own pump and, if it is not the plain end of file, carries the id the session had when that step was over |
| SessionShutdown.AtMostFourFailures | pkg/session/stream.go:37-49 | no run has more than four failed notifications, and the errors attempted never exceed the failures by more than two |
| SessionShutdown.BlockedNeedsTwoFailures | pkg/session/stream.go:42-45 | a pump is blocked for ever only after two to four failed notifications |
| SessionShutdown.BlockedForever | pkg/session/stream.go:45-49 | no continuation of any length frees a blocked pump |
| SessionShutdown.BlockedExactlyWhen | pkg/session/stream.go:37-49 | a run with k failed notifications that leaves a pump blocked exists if and only if k is 2, 3 or 4 |
| SessionShutdown.RestExactlyWhen | pkg/session/stream.go:42-44 | in every session at rest both pumps have ended if and only if at most one notification failed, and a pump is blocked if and only if two or more did |
| SessionShutdown.ShutdownIsBounded | pkg/mqtt/mqtt.go:58-66 | after the caller has closed both connections nothing is written, each pump reads at most one more packet, and every continuation has at most 24 steps |
| SessionShutdown.StuckExactlyWhen | pkg/mqtt/mqtt.go:58-77 | no thread can take a step if and only if `Stream` has returned, both connections are closed and each pump has ended or is blocked |
| SessionShutdown.SessionEnds | pkg/session/stream.go:37-50 | with at most one failed notification a session comes to rest exactly when both pumps have ended |
| SessionShutdown.ClosedSessionEnds | pkg/mqtt/websocket/websocket.go:91-106 | every maximal run after the closes is short and, with at most one failed notification, ends both pumps |
| SessionAfterDisconnect.CallsFollowDisconnectExactlyWhen | pkg/session/stream.go:45-74 | for every configuration and every reachable state after Disconnect: some continuation calls a hook for a client's packet if and only if the Up pump's program counter, the channel and the connection to the broker allow it |
| SessionAfterDisconnect.LastCalls | pkg/mqtt/mqtt.go:58-66 | once both connections are closed no continuation makes more than one authorization call for the client and one notification |
| SessionAfterDisconnect.HooksMayFollowDisconnect | pkg/session/stream.go:45-47 | a run that authorizes a client's packet after Disconnect |
| SessionCredentials.QuietHooksCarry | pkg/session/stream.go:115-134 | if calls by other threads leave the session alone, AuthConnect sees each CONNECT's own credentials and the packet leaves with what it left |
| SessionCredentials.CredentialsCarriedExactlyWhen | pkg/session/stream.go:117-134 | for a rule on what foreign calls may do to the session: every CONNECT of every run leaves with AuthConnect's credentials if and only if the rule allows no change |
| SessionAuthorize.Authorize | pkg/session/stream.go:115-142 | shows AuthConnect the packet's own credentials and the other hooks the packet's fields, and leaves in session and packet what the hooks left; a refused CONNECT is unchanged |
| SessionAuthorize.AuthorizeIsTheGate | pkg/session/stream.go:71-74 | the Up pump's undisturbed gate steps log the call that `authorize` makes, with its arguments and verdict, forward the packet and leave the session it computes; a refusal stops the pump with the wrapped error |
| SessionPump.Pass | pkg/session/stream.go:53-112 | one pass of the loop, in either direction and for all answers of the outside world, is a run of the transition system that reads, writes, calls and raises exactly what the method does |
| SessionPump.StreamLoop | pkg/session/stream.go:52-113 | so is the whole loop, which returns after any error but that of a notification, and blocks only on a full channel |
| SessionPump.Notify | pkg/session/stream.go:144-157 | calls the hook for the packet's kind with the packet's fields, or none |
| SessionPump.WrapError | pkg/session/stream.go:159-175 | leaves the end of file as it is and gives other causes the session's id and the message of its branch |
| SessionMain.StreamAndClose | pkg/session/stream.go:45-49 | taking the error, calling Disconnect and closing both connections is a run of the transition system that reports the first error and what Disconnect answered |
| CoapIsolation.TableIsTheOpenSockets | pkg/coap/coap.go:133-151 | the table maps an address to a connection if and only if that connection's socket is open and the address is its own; sockets opened minus sockets closed is the size of the table |
| CoapIsolation.CloseRemovesItsOwnEntry | pkg/coap/coap.go:199-204 | `closeConn` deletes by address but removes exactly the closing connection's entry, never a successor's |
| CoapIsolation.ConnHistory | pkg/coap/coap.go:34-38 | over any run a connection keeps its address, is never unstarted, restarted or reopened |
| CoapIsolation.OneReader | pkg/coap/coap.go:168-171 | a connection gets at most one reader, and a closed one has had it |
| CoapTraffic.ReaderFollowsWrite | pkg/coap/coap.go:164-171 | in every run a connection whose server has been written to has its reader, or the main goroutine is about to start it, and no other connection has one |
| CoapTraffic.UplinkIsExact | pkg/coap/coap.go:153-166 | in every run what was written to the sockets opened for a client is exactly its datagrams that the run judged acceptable and managed to write, in order, once each |
| CoapTraffic.DownlinkIsExact | pkg/coap/coap.go:187-196 | in every run a reader got exactly what its server sent, and its client was sent these datagrams in order, as many as there were successful writes |
| CoapTraffic.RefusalsAreExact | pkg/coap/coap.go:154-162 | in every run exactly the clients whose datagrams were refused are told so |
| CoapTraffic.StoppedIsSilent | pkg/coap/coap.go:64-68 | after a failed read from the clients no continuation dials, writes to a server, starts a reader or refuses |
| CoapIsolation.ClosedOnce | pkg/coap/coap.go:187-191 | `closeConn` is never called twice for a connection |
| CoapIsolation.StrandedExactlyWhen | pkg/coap/coap.go:174-197 | a started entry has no live reader if and only if in this run its reader left by the deadline or the client-write return |
| CoapIsolation.StrandedForever | pkg/coap/coap.go:183-195 | such an entry stays, open and without a reader, in every continuation; no connection for its address is ever made again, and nothing more is delivered to that client by any connection |
| CoapIsolation.ClientsAreIsolated | pkg/coap/coap.go:57-75 | each server socket gets only accepted datagrams of the client it was opened for, once and in order; that client gets exactly what was read from the socket, in order; refusals go to the sender |
| CoapProxy.Proxy.NewConn | pkg/coap/coap.go:133-151 | finds or dials, and changes table and objects as the model's step does; a failed dial changes nothing |
| CoapProxy.Proxy.CloseConn | pkg/coap/coap.go:199-204 | deletes the entry and closes the socket as the model's step does |
| CoapProxy.Proxy.CompareAndSwapStarted | pkg/coap/coap.go:169-171 | succeeds exactly when the model starts a reader |
| CoapProxy.Proxy.ProxyPass | pkg/coap/coap.go:57-75 | one pass of `proxyUDP` on the objects is a run of the main goroutine for all answers; a failed read ends it |
| CoapProxy.Proxy.HandleDatagram | pkg/coap/coap.go:64-75 | a datagram goes through lookup or dial, judgement, write and start, and touches no other connection |
| CoapProxy.Proxy.UpUdp | pkg/coap/coap.go:153-172 | a refused datagram is answered to its client, an accepted one is written, and the first successful write starts a reader |
| CoapProxy.Proxy.DownUdp | pkg/coap/coap.go:174-197 | the reader's loop is a run of that reader for all answers, delivers what it read, and leaves by `closeConn` only after a failed read |
| CoapGate.SplitJoins | pkg/coap/coap.go:383 | splitting at "=" loses nothing and leaves no "=" in a part |
| CoapGate.KeyExactlyWhen | pkg/coap/coap.go:378-388 | a query gives a non-empty key if and only if it is auth= followed by that key, without a second "=" |
| CoapGate.HandleCoAPMessage | pkg/coap/coap.go:296-355 | accepts if and only if the datagram decodes, is well formed and every hook it needs accepts; asks the hooks in order and stops at the first refusal |
| CoapGate.AcceptedExactlyWhen | pkg/coap/coap.go:304-355 | code by code: any other code is accepted; a POST or GET if and only if it has a query and a path, a body that can be read or none, and its hooks accept |
| CoapGate.AcceptedIsAuthorized | pkg/coap/coap.go:327-352 | an accepted POST made exactly the calls AuthConnect, AuthPublish of path and body, Publish of what that left; an accepted Observe-0 GET AuthConnect, AuthSubscribe, Subscribe; any other accepted GET AuthConnect alone; all with the query's key |
| CoapGate.DtlsUp | pkg/coap/coap.go:255-276 | forwards exactly the longest prefix of datagrams that pass, unchanged |
| CoapGate.ProxyUdp | pkg/coap/coap.go:153-166 | forwards exactly the subsequence of datagrams that pass, unchanged |
| CoapGate.DtlsAgainstUdp | pkg/coap/coap.go:153-276 | for the same datagrams and answers DTLS forwards a prefix of what UDP does, and as much exactly when nothing passes after the first failure |
| WebsocketConn.Wrapper.Read | pkg/mqtt/websocket/conn.go:51-75 | returns the next bytes of the concatenated messages for any buffer and any chunking, skips empty messages, never reports the end of a message, and reports an error if and only if the websocket failed during the call; terminates, and fails on a reliable transport only when nothing is left |
| WebsocketConn.Sender.Write | pkg/mqtt/websocket/conn.go:39-48 | queues the buffer as one message for the peer, or nothing on failure |
| WebsocketConn.Transfer | pkg/mqtt/websocket/conn.go:39-75 | for any interleaving of writes and reads, failed ones included, what has been read at each point is a prefix of what has been written by then, and enough reads of a reliable transport get all of it |
| WebsocketConn.FlattenConcat | pkg/mqtt/websocket/conn.go:54-62 | the byte stream of two message queues is the two streams joined |
| WebsocketConn.FramingIsInvisible | pkg/mqtt/websocket/conn.go:63-72 | cutting a message in two and adding empty messages does not change the stream |
| HttpBridge.UnsubscribedOnce | pkg/http/ws.go:48-96 | Unsubscribe is called exactly once by a session that started its pumps, after both have returned, with both connections closed and the context cancelled, and never by one that failed before |
| HttpBridgeHandshake.HooksBeforeDial | pkg/http/ws.go:25-38 | in every reachable state with a connection open or a pump started, the hooks called before are exactly AuthConnect, AuthSubscribe and Subscribe of the topic, in this order, all accepting |
| HttpBridgeHandshake.RefusedNeverOpens | pkg/http/ws.go:28-39 | a session one of the three refuses is over after the accepting calls before it, without Unsubscribe, and no connection was open at any point of its run |
| HttpBridgeHandshake.HandleWebSocket | pkg/http/ws.go:25-60 | the start of the handler is a run of the bridge for all answers and starts the pumps if and only if all five succeed |
| HttpBridgePump.StreamUp | pkg/http/ws.go:98-121 | the loop upstream is a run of that pump for all answers, with the same calls, messages, topic and end |
| HttpBridgePump.StreamDown | pkg/http/ws.go:98-121 | the loop downstream likewise, with the topic never changed |
| HttpBridgeErrors.NormalEndIsNoError | pkg/http/ws.go:123-135 | in every run the error is the end of the first pump to close after an end that is one; a connection the proxy closed is never reported, and a normal close only if it was the server's |
| HttpBridgeErrors.NoErrorExactlyWhen | pkg/http/ws.go:64-95 | a session whose pumps have returned has no error if and only if the client's side ended by a normal close or a connection the proxy closed, and the server's by the latter |
| HttpBridge.OneEndsBoth | pkg/http/ws.go:64-87 | after one pump has returned, every continuation has at most eight steps and seven for each frame the other pump's closed source had buffered |
| HttpBridge.StuckExactlyWhen | pkg/http/ws.go:87-96 | the session can always take a step until it has finished: the join is reached |
| HttpBridge.UpstreamMessages | pkg/http/ws.go:98-121 | message i is forwarded with its type and the payload its own AuthPublish and Publish left, only if both accepted; it starts with the topic the messages before it left |
| HttpBridge.DownstreamMessages | pkg/http/ws.go:77-119 | the client gets the server's messages unchanged, in order, each after an accepted check of the initial topic |
| Certificates.IssuerIn | pkg/tls/verifier/crl/crl.go:261-271 | the first certificate the issuer name refers to, by serial number when both have one and by printed name otherwise |
| Certificates.RetrieveIssuerCert | pkg/tls/verifier/ocsp/ocsp.go:180-190 | the search loop finds `IssuerIn` |
| Certificates.ParseCertificates | pkg/tls/verifier/crl/crl.go:273-283 | all certificates in order, or an error if one does not parse |
| Certificates.CutoffIsTheDepth | pkg/tls/verifier/crl/crl.go:128-130 | the number of raw certificates checked is the depth, capped by the chain, with zero and every depth that turns negative as int meaning all |
| Crl.CrlVerify | pkg/tls/verifier/crl/crl.go:135-142 | an error if and only if the serial number is on the list |
| Crl.VerifyRawPeerCertificates | pkg/tls/verifier/crl/crl.go:107-133 | accepts if and only if the offline list loads and each of the first k certificates is absent from the list that governs it |
| Crl.VerifyVerifiedPeerCertificates | pkg/tls/verifier/crl/crl.go:75-105 | accepts if and only if the offline list loads and every certificate of every chain is absent from the list that governs it |
| Crl.VerifyPeerCertificate | pkg/tls/verifier/crl/crl.go:59-73 | verified chains go before raw certificates; unparsable or missing certificates are errors of their own |
| Crl.LessDepthAcceptsMore | pkg/tls/verifier/crl/crl.go:112-132 | acceptance at a depth implies acceptance at any less strict depth, zero being the strictest |
| Crl.ChainsIgnoreDepth | pkg/tls/verifier/crl/crl.go:80-103 | the decision on verified chains does not depend on the depth |
| Crl.ChainOrderIsIrrelevant | pkg/tls/verifier/crl/crl.go:80-103 | reordering or repeating chains does not change the decision |
| Crl.RevocationIsMonotone | pkg/tls/verifier/crl/crl.go:88-101 | adding entries to any lists never turns a rejection into an acceptance |
| Crl.OwnPointGoverns | pkg/tls/verifier/crl/crl.go:166-167 | for a certificate with a point of its own, the list that governs is the one fetched from the first, signed by its issuer and not expired, whatever settings and offline list there are |
| Crl.ConfiguredPointIsAFallback | pkg/tls/verifier/crl/crl.go:164-178 | the configured distribution point does not matter for a certificate with its own |
| Crl.ConfiguredPointGoverns | pkg/tls/verifier/crl/crl.go:168-174 | for a certificate without one and both settings present, the list that governs is the one fetched there, signed by the configured issuer and not expired, whatever offline list and issuer there are |
| Crl.SettingsMatterExactlyWhen | pkg/tls/verifier/crl/crl.go:164-178 | two configurations can decide differently about a certificate if and only if it has no distribution point |
| Crl.OfflineListGoverns | pkg/tls/verifier/crl/crl.go:144-162 | for the remaining certificates it is the offline list, decoded and not expired, whoever signed it |
| Crl.OfflineLoadsExactlyWhen | pkg/tls/verifier/crl/crl.go:144-162 | the offline list loads if and only if there is no file, or it can be decoded and has not expired and its issuer file can be read |
| Crl.ChainLinks | pkg/tls/verifier/crl/crl.go:80-103 | a chain is accepted if and only if its first certificate is, under the next one or itself, and the rest of the chain is |
| Crl.OfflineIssuerIsUnused | pkg/tls/verifier/crl/crl.go:152-157 | the decision depends on the offline issuer file only through whether it can be read |
| Ocsp.OcspVerify | pkg/tls/verifier/ocsp/ocsp.go:104-178 | accepts if and only if the right responder answers Good for the certificate under its right issuer; the other statuses give their own errors |
| Ocsp.IssuerExactlyWhen | pkg/tls/verifier/ocsp/ocsp.go:108-122 | a CA with equal key identifiers or equal names is its own issuer; otherwise it is the one found, or the one at the first issuer address if none was found |
| Ocsp.OneStatus | pkg/tls/verifier/ocsp/ocsp.go:162-177 | issuer, responder and status are determined, so a certificate has one status |
| Ocsp.VerifyRawPeerCertificates | pkg/tls/verifier/ocsp/ocsp.go:75-86 | accepts if and only if the first k certificates have status Good |
| Ocsp.VerifyVerifiedPeerCertificates | pkg/tls/verifier/ocsp/ocsp.go:88-102 | accepts if and only if every certificate of every chain has status Good |
| Ocsp.ChainLinks | pkg/tls/verifier/ocsp/ocsp.go:88-102 | a chain is accepted if and only if its first certificate has status Good, under the next one or itself, and the rest of the chain is |
| Ocsp.VerifyPeerCertificate | pkg/tls/verifier/ocsp/ocsp.go:59-73 | the choice between verified and raw chains |
| Ocsp.LessDepthAcceptsMore | pkg/tls/verifier/ocsp/ocsp.go:75-86 | acceptance at a depth implies acceptance at any less strict depth |
| Ocsp.ChainsIgnoreDepth | pkg/tls/verifier/ocsp/ocsp.go:88-102 | the decision on verified chains does not depend on the depth |
| Validator.Validate | pkg/tls/verifier/verifier.go:15-24 | for any verifiers: accepts if and only if every one accepts, and otherwise gives the error of the first that refuses |
| Validator.OrderIsIrrelevant | pkg/tls/verifier/verifier.go:16-22 | permuting or repeating verifiers does not change the decision |
| Validator.StricterListsAcceptLess | pkg/tls/verifier/verifier.go:15-24 | replacing any verifiers that decide by revocation lists by ones whose lists revoke more never accepts what was rejected |
| Routing.Route | pkg/http/http.go:63-68 | not found if and only if the path lacks the prefix, otherwise the rewritten path after the path prefix is the original one |
| Routing.AddsOneSlash | pkg/transport/path.go:8-13 | the result ends in a slash and is the path itself, or the path and a slash if it had none at its end |
| Routing.SuffixOfConcat | pkg/transport/path.go:8-13 | how AddSuffixSlash distributes over concatenation |
| Routing.TargetPathKeptExactlyWhen | pkg/mqtt/websocket/websocket.go:56-61 | every accepted path keeps the target path in front if and only if the target path is not empty or the path prefix has no final slash |

## Left out

- The loops as methods take no step of another thread into account; interleavings are those of the transition systems. Packets and messages are values, so a packet that an interceptor keeps and changes later is not captured.
- MQTT, CoAP, websocket, X.509, PEM, CRL and OCSP encodings and signatures: libraries; they are oracles. `CheckSignatureFrom` is not part of this model, including what it does without an issuer.
- A verifier reads files, downloads and the clock once: within one decision they do not change.
- A websocket read that waits for a message is a read that fails and is repeated; the two directions of a connection are two independent queues.
- Partial writes: a packet or datagram counts as written if and only if the write reports success.
- Real time: the read deadlines are read failures that may happen at any step. Hook calls return.
- Data races on the fields of a session: each hook call and each group of field updates is one step.
- Interceptors that return no packet and no error: their interface excludes it (`pkg/session/interceptor.go:16`).
- The branch of `wrap` for a context without a session: `Stream` always puts one in.
- `handle` and `pass` before `Stream` starts (dialling, client certificate) and `accept`: no pump exists yet.
- The branch of `downUDP` for a finished context (`pkg/coap/coap.go:178-180`): its context is `context.Background()`, which never finishes.
- Steps inside the two critical sections of the CoAP proxy: each is one step, since the mutex guards the table and the unguarded write of the main goroutine can be taken before it.
- `handleDTLS`, `dtlsDown` and the encoding of error responses.
- The rest of `ServeHTTP` of the HTTP proxy (credentials, bypass, body, three hook calls in a row): it would add only easy members.
- Configuration, TLS set-up, logging, origin and bypass checkers, examples and scripts.
