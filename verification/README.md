# Host agent: a model of the tunnel, the connection and the workspace handlers

The host agent is a daemon between a local CLI and a remote Gateway. This project models its event-driven machines and
its codecs in Dafny and states what holds over all inputs, all runs and all interleavings.

How the model is built:

* Every stateful class of the agent is a Dafny class with the same fields; what surrounds the two largest (sockets,
  timers, the clock, the frames sent) is one more field, `world`. Each method's postcondition gives the whole
  new state as a step of a value (`State`, `Manager`, `Client`, `Framer`), and the properties are lemmas about runs of
  those steps. Callbacks, timers, socket events and awaited answers are events that may come in any order the runtime
  allows; the clock only moves forward; a timer fires at its due time or later.
* Sockets, `fetch`, the file system, child processes and the shell are not programs of the model. What they do is an
  event, a response value, a directory tree or a text.
* JSON text is an abstract printer and partial parser. What is needed of it is the predicate `Lawful`: printing is
  undone by parsing, and printed text is one nonblank line without white space at its ends (section 7 of RFC 8259). `LawfulCodecExists` shows that the
  laws can be met together.

| file | part of the agent |
|---|---|
| `Text`, `JsonCodec`, `CodecWitness`, `Powers`, `NodeTimers` | strings as JavaScript handles them, JSON values, powers of two, the range of a Node timer |
| `HttpReader`, `IpcServer`, `NdjsonFramer`, `AgentClient`, `Pipeline` | the execute tunnel, stage by stage and end to end |
| `TokenManager` | access-token rotation |
| `GatewayClient`, `GatewayLifecycle`, `ConnectionDiscipline`, `RotationRaces`, `Backoff`, `AdapterCalls`, `CallReplies`, `Handshake`, `HelloTimers`, `Heartbeats` | the Gateway connection: its steps, then one file for each family of properties |
| `Daemon` | token rotation and connection wired together |
| `ExecutionJournal` | at-most-once plugin execution |
| `Paths`, `PluginResolver`, `Workspace` | path containment, handler references, workspace snapshots |
| `ShellQuote`, `GrepLines` | shell quoting and the search-output parser |

## What the code does not do

Where an expected property fails, the model keeps the code's behaviour and a lemma gives a run, or the exact condition:

* Close events are not tied to a socket. Rotation stops and connects back to back, so the old socket's close can arrive
  late. The new connection then loses its heartbeat and is called disconnected (`LateCloseSilencesNewSocket`), or two
  sockets stay alive with a heartbeat each (`TwoHeartbeats`), the older of which beats for ever
  (`OlderHeartbeatIsForGood`). Connecting is harmless exactly when all sockets have been reported closed and no
  reconnect is armed (`ConnectKeepsLineIffQuiet`), and a rotation exactly when no socket is left open
  (`RotationKeepsLineIffClosed`).
* Of what happens to the connection three things end the process: the message `null`, which parses and is then looked
  into (`NullCrashes`); the open event of a socket while the client is stopped (`OpenWithoutSocketCrashes`); and a token
  getter that throws in a reconnect, whose timer callback nobody awaits (`ReconnectCrashes`). `StepCrashesIff` and
  `CrashesIff` say that nothing else does. The getter's other callers end the process too when it throws: an execute or
  a cancel request (`MessageCrashesIff`, `HandleExecute`), and a rotation, where it throws exactly when the new token
  lives no longer than a minute (`RotationCrashesIff`). Since version 15 Node ends the process on an unhandled
  rejection, and the repository has no handler for it.
* The hello timer survives the close of its socket and closes whatever socket is current (`HelloTimerClosesCurrent`,
  `StaleHelloTimer`). In disciplined runs it ends a finished handshake exactly when it was left behind by an earlier
  socket that was closed before anything was heard on it (`ArmedIffLeftBehind`, `EndsHandshakeIff`).
* A token getter that throws strands a client that lives on in exactly one situation (`StrandedIff`): when a stopped
  client is connected and the caller catches the exception (`StrandedByConnect`). Once its sockets are closed, only
  another `connect` helps (`StrandedForGood`).
* `TokenManager.stop()` ends the rotation exactly when no refresh is under way (`StopEndsRotationIff`,
  `StopDuringRefresh`).
* A delay over 2^31-1 ms fires after one millisecond, in token refreshes as in adapter calls (`RefreshDelay`,
  `RetryDelay`, `SendAccepts`); a token of thirty days is refreshed at once (`MonthLongToken`).
* A refreshed pair with an invalid expiry counts as a failure, but its token is handed out (`InvalidPairIsServed`).
* A failed plugin resolution leaves its id blocked for good (`BlockedIffFailedEarly`, `FailedResolutionBlocks`,
  `BlockedForGood`), and an error with an empty message is replayed as success (`DuplicateReplays`,
  `EmptyMessageReplaysAsSuccess`).
* `/` as an allowed root admits only `/` itself (`UnderIffPrefix`).
* The handler-reference check refuses names that merely begin with two dots (`RefusedIff`, `DottedNameRefused`). An
  absolute reference passes it wherever it leads, unless one of its names ends in two dots (`AbsoluteRefPasses`,
  `OutsideRefPasses`); a reference that passes stays inside exactly when it is relative or names a place inside
  (`PassedRefInsideIff`). Only the later comparison of real paths, which is not modelled, can stop the others.
* A search line is read back wrongly exactly when its file name contains `:digits:` (`LineRoundTrip`,
  `NumberInFileName`), and white space at the end of the last line or before the first file name is lost
  (`OutputRoundTrip`, `LastBlankLost`). Matches on lines that end in a carriage return are dropped, so that of the
  matches in files with CRLF line ends only the last one is reported (`ReadIff`, `CrlfLosesAllButLast`).
* The documentation of the token manager promises retries after 30, 60 and 120 seconds; with the default of three
  attempts only the first two happen (`RetriesTerminate`, `RetryDelay`).

## Model

| member | source | states |
|---|---|---|
| Pipeline.EndToEnd | packages/host-agent-core/src/ws/gateway-client.ts:168-241 | For a request begun at any time beside any others, every Gateway response, every list of messages on the wire in which those for the request are the frames of that response, every cutting of the streams and every interleaving of chunks with the pulls, requests and timeouts of all other callers: what `execute` has yielded is an initial part of the response's events up to the first `execution:done`; once all has arrived and the consumer can pull no more it is exactly those, and the generator has returned iff there is an `execution:done`, thrown iff there is none and the response failed, and waits otherwise |
| Pipeline.BoundedTunnelDelivers | packages/host-agent-core/src/ws/gateway-client.ts:168-241 | With nothing assumed about the run: for every response whose frames fit 1 MiB beside the longest chunk and every cutting of the stream, all chunks are accepted, and a consumer that pulls gets exactly the events up to the first `execution:done`, then the end, the response's error, or silence; a failed request, an HTTP error (`Gateway HTTP <status>: <text>`) and a missing body are thrown at it with their text |
| Pipeline.WrittenIsYielded | packages/host-agent-core/src/ws/gateway-client.ts:168-241 | From the Gateway to the consumer: events written line by line, with any white space around them, cut anywhere on both ways, are yielded one by one up to the first whose type is `execution:done`, and the generator returns; without one, all are yielded and it throws what broke the body off, or waits |
| Pipeline.PlayIsRun | packages/host-agent-client/src/client.ts:111-145 | Socket chunks and all local events drive the client through a run in which exactly the framer's deliveries arrive as messages, in order |
| Pipeline.OnlyItsMessages | packages/host-agent-client/src/client.ts:128-144 | What a request receives and how it ends depends only on the messages with its id, whatever arrives for other requests |
| Pipeline.TunnelsDoNotMix | packages/host-agent-core/src/ipc/ipc-server.ts:75-104 | However the callbacks of several tunnels interleave, the frames the router hands to one request are those of its own callbacks, in order |
| Pipeline.TunnelFrames | packages/host-agent-core/src/ipc/ipc-server.ts:75-104 | So they are the frames of its response whenever its callbacks were those of its response |
| Pipeline.FramesMean | packages/host-agent-core/src/ipc/ipc-server.ts:75-104 | The frames for a response leave a fresh request with the events up to the first `execution:done` and end it well iff there is one, else with the response's error if it has one |
| Pipeline.CalmDrains | packages/host-agent-client/src/client.ts:97-108 | In any run without a timeout of the request or a close, a settled request is out of the table and a generator that threw left nothing queued |
| Pipeline.GoodIsFinal | packages/host-agent-client/src/client.ts:129-144 | Once `done` has settled a request well, no later frame changes what it received or how it ended |
| Pipeline.DeliveredPart | packages/host-agent-transport/src/ndjson-framer.ts:18-41 | When any initial part of the written text has arrived, an initial part of the written messages has been delivered, and all of them at the end |
| Pipeline.RequestsReachTunnel | packages/host-agent-core/src/ipc/ipc-server.ts:41-61 | Whatever a client sends and however the stream is cut, the server hears an initial part of its requests in order, in the end all; every execute request is dropped if its parameters are no object, and else tunnelled as it was made, unless the token getter throws and ends the process |
| Pipeline.NoGatewayRejects | packages/host-agent-core/src/ipc/ipc-server.ts:63-73 | Without a Gateway client the server's `NO_GATEWAY` reply settles the very request it answers, in any client, takes it and its timer out, leaves every other generator alone, and makes its generator throw the reply's text after giving out what it had queued |
| Pipeline.StatusAnswered | packages/host-agent-core/src/ipc/ipc-server.ts:48-52 | The server's status reply, which carries no id, resolves the status call that has waited longest with an object that has every field of the server's status, the type `status`, and nothing else |
| HttpReading.DoExecuteHttp | packages/host-agent-core/src/ws/gateway-client.ts:168-241 | Whatever the response and however its body is cut, the callbacks are those of its events in order (all lines of a body that ended, the complete lines of one that broke off), then its error if any; chunk boundaries do not show |
| HttpReading.ResponseReported | packages/host-agent-core/src/ws/gateway-client.ts:178-241 | The same by cases: a failed request, an HTTP error and a missing body are exactly one `onError` with their text; a body is one `onEvent` per event, `onDone` right behind each `execution:done` and nowhere else, and one `onError` at the end iff it broke off |
| HttpReading.WrittenIsRead | packages/host-agent-core/src/ws/gateway-client.ts:200-237 | Events written line by line, with any white space around them, are read back for every cutting: all whose line is complete, and an unterminated last one iff the body ended |
| HttpReading.NoiseIgnored | packages/host-agent-core/src/ws/gateway-client.ts:209-223 | A line that is blank or does not parse makes no difference, wherever it stands |
| HttpReading.ReadLines | packages/host-agent-core/src/ws/gateway-client.ts:209-223 | Blank and malformed lines cause no callback; each parseable line causes `onEvent`, followed by `onDone` if it is `execution:done` |
| HttpReading.ReadLine | packages/host-agent-core/src/ws/gateway-client.ts:226-237 | The unterminated last line is treated like any other |
| HttpReading.ReadExtends | packages/host-agent-core/src/ws/gateway-client.ts:205-207 | One more chunk completes the buffered line, leaves the callbacks of earlier lines as they were and buffers what follows the last newline |
| IpcServing.HandleExecute | packages/host-agent-core/src/ipc/ipc-server.ts:63-105 | Over every response and every cutting of its body: one event frame per event, a done frame behind each `execution:done`, then the error frame if it failed; without a Gateway one error frame; and when the token getter throws no frame at all, and the process ends |
| IpcServing.ForwardedAs | packages/host-agent-core/src/ipc/ipc-server.ts:80-103 | The exact fields of the event, done and error frames a callback puts on the wire |
| IpcServing.MessageCrashesIff | packages/host-agent-core/src/ipc/ipc-server.ts:33-61 | A message to the server ends the process iff it is a valid execute or cancel request, there is a Gateway client, and the token getter throws |
| IpcServing.StatusReplyIs | packages/host-agent-core/src/ipc/ipc-server.ts:48-52 | A status request, and no other message, is answered with exactly the fields of the status and the type |
| IpcServing.CancelsIff | packages/host-agent-core/src/ipc/ipc-server.ts:54-57 | A message cancels execution `id` for `reason` iff it is of type `cancel` with that text as `executionId` and that reason, or with none and the reason is `user` |
| IpcServing.TunnelsIff | packages/host-agent-core/src/ipc/ipc-server.ts:59-61 | A message is tunnelled as `id`, `command` and `params` iff its fields are those, `params` is absent or an object and `stream` absent or a truth value |
| IpcServing.IgnoredIff | packages/host-agent-core/src/ipc/ipc-server.ts:41-46 | Every other message is ignored, and a cancel request too when there is no Gateway |
| NdjsonFraming.ChunkingIndependence | packages/host-agent-transport/src/ndjson-framer.ts:18-41 | For every split of a stream whose feeds are accepted: the parseable nonblank newline-terminated lines are delivered and the text after the last newline is buffered |
| NdjsonFraming.AcceptedIffEveryChunkFits | packages/host-agent-transport/src/ndjson-framer.ts:19-23 | A stream gets through iff every chunk fits within 1 MiB beside the unfinished line it continues |
| NdjsonFraming.BoundedStreamAccepted | packages/host-agent-transport/src/ndjson-framer.ts:10 | If longest line and longest chunk together fit 1 MiB, no feed is rejected |
| Text.ByteLengthIs | packages/host-agent-transport/src/ndjson-framer.ts:19 | The length that the limit is about is that of the UTF-8 encoding (section 3 of RFC 3629) |
| Text.Utf8Decodes | packages/host-agent-transport/src/ndjson-framer.ts:19 | The encoding of every character consists of bytes, and the character can be told back from them whatever follows |
| NdjsonFraming.RoundTrip | packages/host-agent-transport/src/ndjson-framer.ts:10-52 | Under that bound every message list written with `writeNdjson` and cut anywhere is delivered exactly, in order, and the buffer ends empty |
| NdjsonFraming.NoiseDropped | packages/host-agent-transport/src/ndjson-framer.ts:28-40 | A line that is blank or does not parse delivers nothing, wherever it stands |
| NdjsonFraming.WireIsRepeatedWrite | packages/host-agent-transport/src/ndjson-framer.ts:48-52 | The wire text of a list is what writing its messages one after the other on a live socket puts there |
| NdjsonFraming.WriteNdjson | packages/host-agent-transport/src/ndjson-framer.ts:48-52 | Appends the line of the message to what a live socket has been given, and nothing to a destroyed one |
| NdjsonFraming.NdjsonFramer.constructor | packages/host-agent-transport/src/ndjson-framer.ts:12-15 | A new framer has an empty buffer and has delivered nothing |
| NdjsonFraming.NdjsonFramer.Feed | packages/host-agent-transport/src/ndjson-framer.ts:18-41 | A chunk over the limit destroys the socket and leaves buffer and deliveries unchanged; otherwise the completed lines are delivered, the rest buffered and the socket left alone |
| NdjsonFraming.NdjsonFramer.Reset | packages/host-agent-transport/src/ndjson-framer.ts:43-45 | Drops the unfinished line and delivers nothing |
| AgentClient.GeneratorCorrect | packages/host-agent-client/src/client.ts:72-109 | For a call begun at any time beside any others, under every interleaving of messages, timeouts, closes and pulls of all requests: yielded then queued are the events received for the request; an unsignalled sleeper has yielded everything and is not settled (no lost wakeup); it returns only after yielding everything and being settled well; and it threw at a pull by which everything received until then had been yielded, settled ill |
| AgentClient.QueueCorrect | packages/host-agent-client/src/client.ts:79-104 | In every run from any sound state and for every id, yielded ++ queued grows by exactly the events received for that id, in order |
| AgentClient.EndingCorrect | packages/host-agent-client/src/client.ts:84-95 | How a request stands is read off its own history: first terminal message, with a later timeout or error replacing it |
| AgentClient.StepInv | packages/host-agent-client/src/client.ts:72-145 | Every step keeps: sleeping unsignalled implies empty queue and not done, unsettled requests are in the table with a timer, armed timers belong to waiting requests |
| AgentClient.StepEvents | packages/host-agent-client/src/client.ts:129-136 | A step hands an arriving payload to the stream of its id and to no other |
| AgentClient.RoutesIff | packages/host-agent-client/src/client.ts:111-144 | A status message needs no id; an event, done or error message counts iff it has a nonempty text as `requestId`, and brings its payload or text (`Unknown error` without one) |
| AgentClient.StrangersIgnored | packages/host-agent-client/src/client.ts:124-127 | A message without an id, or for a request that is not pending, changes nothing at all |
| AgentClient.CloseEndsAll | packages/host-agent-client/src/client.ts:44-52 | Closing leaves nothing pending and no timer armed, answers every status call, and makes every generator that was not done fail with `HostAgentClient closed`; none is left asleep |
| AgentClient.ThrowMoment | packages/host-agent-client/src/client.ts:99-108 | In every run in which a generator throws, that happens at one of its own pulls, and what it yielded is all it had received by then |
| AgentClient.SentInOrder | packages/host-agent-client/src/client.ts:55-97 | Every run sends one frame for each request it makes, in the order of the requests, and nothing else |
| AgentClient.RequestFramesAre | packages/host-agent-client/src/client.ts:64-97 | The exact fields of the execute and status requests |
| AgentClient.DrainComesToRest | packages/host-agent-client/src/client.ts:99-108 | A consumer that keeps pulling comes to rest after at most one pull per queued event and one more, with everything given out in order and the ending its settlement asks for |
| AgentClient.StatusHistory | packages/host-agent-client/src/client.ts:55-66 | In every run a status call is settled by its first answer, once and for all; without one it waits with its timer armed |
| AgentClient.StepStatuses | packages/host-agent-client/src/client.ts:115-127 | An event settles exactly the status calls it answers, a status message only the one that has waited longest, and disarms their timers |
| AgentClient.RejectStreams | packages/host-agent-client/src/client.ts:44-50 | The closing loop rejects every execute request of the table and no other |
| AgentClient.RejectStatuses | packages/host-agent-client/src/client.ts:44-50 | The closing loop rejects every status request of the table and keeps the answers already given |
| AgentClient.HostAgentClient.constructor | packages/host-agent-client/src/client.ts:34-36 | A new client has no pending request and no timer |
| AgentClient.HostAgentClient.BeginExecution | packages/host-agent-client/src/client.ts:72-104 | The first pull registers the request with its timer, sends its frame and suspends the generator unsignalled |
| AgentClient.HostAgentClient.BeginStatus | packages/host-agent-client/src/client.ts:55-66 | A status call goes to the end of the table with its timer and sends its frame |
| AgentClient.HostAgentClient.SettleRequest | packages/host-agent-client/src/client.ts:137-144 | A terminal message disarms the timer, removes the entry, settles it and wakes a sleeping generator; an unknown id changes nothing |
| AgentClient.HostAgentClient.HandleMessage | packages/host-agent-client/src/client.ts:111-145 | The state after any message, routed by type and request id |
| AgentClient.HostAgentClient.OnTimeout | packages/host-agent-client/src/client.ts:84-88 | A timeout ends the generator with an error but leaves its entry in the table; of a status call it removes the entry |
| AgentClient.HostAgentClient.Shutdown | packages/host-agent-client/src/client.ts:44-52 | Every pending request is rejected, its timer cleared, the table is empty and the transport closed |
| AgentClient.HostAgentClient.Next | packages/host-agent-client/src/client.ts:99-108 | One stretch of the generator body from a suspension to the next or to its end |
| CodecWitness.LawfulCodecExists | packages/host-agent-transport/src/ndjson-framer.ts:48-52 | Some printer and parser of JSON values meet all the laws the stream results rest on |
| DaemonWiring.DaemonNeverStranded | apps/host-agent-app/src/daemon.ts:87-125 | Both machines together: while the Gateway keeps a sufficient promise for every refresh round, in every interleaving of socket events, timers, stops, connects and rotations the getter returns the token received last, a client that is not stopped has a socket still to be closed or exactly one armed reconnect timer, and it crashes only while stopped or on the message `null` |
| DaemonWiring.StepHealthy | apps/host-agent-app/src/daemon.ts:90-125 | Every step of the composed machine keeps the tokens in time and the client tended, and crashes iff it is the message `null` or an open event while the client is stopped |
| DaemonWiring.RotationKeepsLineIffClosed | apps/host-agent-app/src/daemon.ts:122-125 | Rotating keeps one socket and one heartbeat iff every socket has been reported closed before; otherwise it always leaves two sockets alive |
| DaemonWiring.WsReconnect | apps/host-agent-app/src/daemon.ts:122-125 | The rotation callback stops the client and connects it again with what the token getter says at that moment; if that throws, the process ends |
| DaemonWiring.GrantRenews | apps/host-agent-app/src/daemon.ts:90-125 | While promises are kept, every accepted pair, and no other token event, puts the client on a new socket: the one before is closing or closed, and neither its heartbeat nor a reconnect is left |
| DaemonWiring.RotationCrashesIff | apps/host-agent-app/src/daemon.ts:122-125 | After a refresh with an accepted pair, in every state of manager and connection, the rotation ends the process iff the new token lives for 60 seconds or less |
| GatewayLifecycle.ClientNeverStranded | packages/host-agent-core/src/ws/gateway-client.ts:260-301 | Over every interleaving with several socket generations alive, while the getter does not throw to a caller of `connect`: a connected, unstopped client has a current socket whose close is still to come or an armed reconnect timer, unless the getter threw in a reconnect and ended the process; never two of the latter; and it crashes only while stopped, on the message `null`, or in such a reconnect |
| GatewayLifecycle.StrandedIff | packages/host-agent-core/src/ws/gateway-client.ts:434-443 | For every event of every reachable state: it strands a client that lives on iff a stopped client that had connected is connected and the getter throws; a reconnect whose getter throws is the only other event that leaves nothing to come, and it ends the process |
| GatewayLifecycle.CrashesIff | packages/host-agent-core/src/ws/gateway-client.ts:303-320 | In every run in which the getter does not throw to a caller of `connect`, the next event crashes the client iff it is the message `null`, a socket's open event while the client is stopped, or a reconnect whose getter throws |
| GatewayLifecycle.StepCrashesIff | packages/host-agent-core/src/ws/gateway-client.ts:346-354 | For every event of every reachable state: it crashes the client iff it is the message `null`, an open event without a current socket, or a reconnect of an unstopped client whose getter throws |
| GatewayLifecycle.StepSane | packages/host-agent-core/src/ws/gateway-client.ts:315-318 | In every run, disciplined or not: handles name timers of their kind, there is no reconnect timer but the one the client knows, and pending calls and call timers correspond one to one |
| Heartbeats.HeartbeatGoesOn | packages/host-agent-core/src/ws/gateway-client.ts:445-449 | In every run without a close or a stop an armed heartbeat stays armed, its next beat never more than 30 s away |
| Heartbeats.StepBeatsIff | packages/host-agent-core/src/ws/gateway-client.ts:451-454 | For every event: it ends a heartbeat iff it is a close, of any socket, or a stop, while the client's handle names that timer; otherwise its next beat stays where it was, or is exactly 30 s ahead after a beat |
| Heartbeats.LostHeartbeatIsForGood | packages/host-agent-core/src/ws/gateway-client.ts:445-449 | A heartbeat whose handle was overwritten beats in every continuation, whatever is closed, stopped or rotated |
| ConnectionDiscipline.ConnectionLifecycle | packages/host-agent-core/src/ws/gateway-client.ts:260-344 | In runs that connect only when quiet: at most one live socket, at most one heartbeat and then on a live socket with its handshake done, never heartbeat and reconnect together, none of them after stop and close, the callbacks said "connected" last iff the newest socket is greeted and not closed, and the client crashed iff it was sent the message `null` or the getter threw in a reconnect |
| ConnectionDiscipline.StepInLine | packages/host-agent-core/src/ws/gateway-client.ts:413-454 | Every step of a disciplined run keeps that invariant |
| ConnectionDiscipline.ConnectKeepsLineIffQuiet | packages/host-agent-core/src/ws/gateway-client.ts:260-263 | Connecting keeps the invariant iff all sockets have been reported closed and no reconnect timer is armed |
| ConnectionDiscipline.StopThenCloseIsQuiet | packages/host-agent-core/src/ws/gateway-client.ts:265-270 | A stop followed by the socket's close event makes connecting safe again |
| RotationRaces.LateCloseSilencesNewSocket | packages/host-agent-core/src/ws/gateway-client.ts:413-422 | A concrete run in which a late close takes the heartbeat from a greeted new socket, reports it disconnected and schedules a reconnect beside it |
| RotationRaces.TwoHeartbeats | packages/host-agent-core/src/ws/gateway-client.ts:299 | A concrete run with a rotation and a late close ends with two open sockets and two heartbeats, one of them beyond reach of `clearTimers` |
| RotationRaces.OlderHeartbeatIsForGood | packages/host-agent-core/src/ws/gateway-client.ts:445-454 | From there the older heartbeat beats in every continuation |
| RotationRaces.OpenWithoutSocketCrashes | packages/host-agent-core/src/ws/gateway-client.ts:320 | A concrete run in which the open handler throws because the client has no socket |
| RotationRaces.NullCrashes | packages/host-agent-core/src/ws/gateway-client.ts:346-354 | A disciplined run in which the message `null` crashes the client |
| RotationRaces.ReconnectCrashes | packages/host-agent-core/src/ws/gateway-client.ts:437-442 | A disciplined run in which the getter throws in a reconnect, whose callback nobody awaits, and ends the process |
| RotationRaces.StrandedByConnect | packages/host-agent-core/src/ws/gateway-client.ts:260-273 | A disciplined run that ends unstopped with all sockets closed and no attempt to come, after the getter threw in `connect`, whose caller caught it |
| RotationRaces.StrandedForGood | packages/host-agent-core/src/ws/gateway-client.ts:260-301 | From such a state no run without another `connect` ever has a new socket or attempt |
| RotationRaces.HelloTimerClosesCurrent | packages/host-agent-core/src/ws/gateway-client.ts:316-318 | A hello timer closes the current socket, greeted or not, and no other |
| RotationRaces.StaleHelloTimer | packages/host-agent-core/src/ws/gateway-client.ts:316-318 | A disciplined run in which an earlier socket's hello timer closes a socket whose handshake is done |
| HelloTimers.ArmedIffLeftBehind | packages/host-agent-core/src/ws/gateway-client.ts:315-321 | In every disciplined run, while the newest socket is open with its handshake done: the hello timers still armed are exactly those of earlier, closed sockets that opened and never heard anything |
| HelloTimers.EndsHandshakeIff | packages/host-agent-core/src/ws/gateway-client.ts:315-321 | In such a state a timer that fires ends the finished handshake iff it was left behind in that way |
| HelloTimers.StepListed | packages/host-agent-core/src/ws/gateway-client.ts:303-343 | Every event of such runs keeps each armed hello timer with a listener that waits on some socket; an open arms one due in 5 s for the socket that opened; a socket has a waiting listener iff it has opened and heard nothing but `null` since |
| HandshakeOrder.FirstFrameIsHello | packages/host-agent-core/src/ws/gateway-client.ts:303-313 | In every run, however sockets, rotations and closes interleave, the first frame on every socket is a hello |
| HandshakeOrder.StepEmits | packages/host-agent-core/src/ws/gateway-client.ts:456-460 | Each event sends exactly its own frames (hello, refusal, reply, adapter call, beat), on the socket that is current and open, after all earlier ones |
| HandshakeOrder.FirstMessageDecides | packages/host-agent-core/src/ws/gateway-client.ts:320-343 | The first message on any socket, current or not and however many listeners wait there, completes the handshake iff it is a greeting with a host id (one heartbeat per listener in 30 s, backoff reset, every socket as it was); anything else but `null` closes the current socket and no other; either way every listener of that socket is gone and its hello timer disarmed |
| HandshakeOrder.StepOpensNone | packages/host-agent-core/src/ws/gateway-client.ts:297 | No event but a socket's own open event makes that socket usable for sending |
| ReconnectBackoff.NextDelay | packages/host-agent-core/src/ws/gateway-client.ts:434-443 | In every run, with k reconnect firings since the last handshake, a close schedules the next attempt min(1000 * 2^k, 60000) ms ahead |
| ReconnectBackoff.StepInStep | packages/host-agent-core/src/ws/gateway-client.ts:329-337 | Every step keeps the backoff at its closed form; only a handshake resets it |
| ReconnectBackoff.TotalClosedForm | packages/host-agent-core/src/ws/gateway-client.ts:63-64 | n delays in a row add up to 1000 * (2^n - 1) ms up to n = 6 and to 63000 + 60000 * (n - 6) ms after that |
| ReconnectBackoff.OutageAfterHandshake | packages/host-agent-core/src/ws/gateway-client.ts:434-443 | In the machine itself, n attempts after a handshake that fail at once take exactly that long, and the client still tries |
| ReconnectBackoff.OutageRemembered | packages/host-agent-core/src/ws/gateway-client.ts:413-422 | In every run without a greeting the remembered time of loss is that of the first close, and the attempt count grows by the closes that found the client not stopped |
| AdapterCalls.AdapterCallConservation | packages/host-agent-core/src/ws/gateway-client.ts:105-132 | In every run an accepted call is afterwards either pending with its own armed timer and the deadline a Node timer gives it, or out of the table and settled exactly once, by the first reply with its id, its timeout or a close |
| AdapterCalls.CallHistory | packages/host-agent-core/src/ws/gateway-client.ts:361-383 | The same from any sound state: the first event that decides the call's own history settles it, nothing else does |
| AdapterCalls.StepSettles | packages/host-agent-core/src/ws/gateway-client.ts:361-432 | One event does to every call what that call's own history asks for and nothing to any other |
| AdapterCalls.ReplySettles | packages/host-agent-core/src/ws/gateway-client.ts:361-383 | A reply settles the call with its id; a reply with an unknown or settled id changes nothing at all |
| AdapterCalls.StepKeepsDeadline | packages/host-agent-core/src/ws/gateway-client.ts:115-120 | A waiting call keeps its timer and deadline through every event that does not decide it |
| AdapterCalls.SettledForGood | packages/host-agent-core/src/ws/gateway-client.ts:105-132 | Whatever happens later, a settled call stays as it was settled |
| AdapterCalls.SendAccepts | packages/host-agent-core/src/ws/gateway-client.ts:105-132 | A call is refused at once without an open socket and otherwise waits with its own timer; the deadline is the timeout asked for iff that is between 1 and 2^31-1 ms, else one millisecond ahead, and 30 s ahead by default |
| AdapterCalls.TableEmptyAfterClose | packages/host-agent-core/src/ws/gateway-client.ts:413-432 | After every close event the table is empty and each call in it was rejected once |
| CallReplies.ReplyDiscipline | packages/host-agent-core/src/ws/gateway-client.ts:388-411 | Under any interleaving of handlers: the frames sent for one request id are exactly one error, or chunk and result next to each other, all on one socket, or none while the handler runs or if no socket was open when it returned |
| CallReplies.OnlyRegistered | packages/host-agent-core/src/ws/gateway-client.ts:388-403 | In every run, a handler runs or has returned well only for a call that arrived for an adapter with a registered handler |
| CallReplies.StepAnswers | packages/host-agent-core/src/ws/gateway-client.ts:388-460 | Every step of the client keeps that for all ids at once |
| CallReplies.HandlerDecidesReply | packages/host-agent-core/src/ws/gateway-client.ts:399-410 | The outcome of a handler and the socket open at its return decide its reply, and no other id gets a frame |
| CallReplies.CallStartsIff | packages/host-agent-core/src/ws/gateway-client.ts:388-399 | A call starts a handler iff one is registered for its adapter; otherwise the only effect is an `UNKNOWN_ADAPTER` error on the open socket, if there is one |
| GatewayConnection.RejectEach | packages/host-agent-core/src/ws/gateway-client.ts:425-432 | The loop over the table clears every pending call's timer, rejects each once and touches no other call or timer |
| GatewayConnection.GatewayClient.constructor | packages/host-agent-core/src/ws/gateway-client.ts:74-92 | A new client has no socket, no timer and the initial backoff |
| GatewayConnection.GatewayClient.ConnectNow | packages/host-agent-core/src/ws/gateway-client.ts:260-263 | Clears `stopped` and starts a new socket unless the getter throws, which is left to the caller |
| GatewayConnection.GatewayClient.OpenNewSocket | packages/host-agent-core/src/ws/gateway-client.ts:272-301 | A new socket becomes the current one and earlier ones stay as they are; if the getter or the check of the URL throws, nothing changes |
| GatewayConnection.GatewayClient.StopNow | packages/host-agent-core/src/ws/gateway-client.ts:265-270 | Sets `stopped`, clears both timers, closes the current socket and lets go of it |
| GatewayConnection.GatewayClient.OnSocketOpen | packages/host-agent-core/src/ws/gateway-client.ts:303-344 | Greets, arms a hello timer and listens on the current socket, whichever socket opened; crashes without one |
| GatewayConnection.GatewayClient.OnSocketMessage | packages/host-agent-core/src/ws/gateway-client.ts:298-343 | The permanent listener first, then each one-shot handshake listener of that socket; on the message `null` the first throws and the others hear nothing |
| GatewayConnection.GatewayClient.GreetOne | packages/host-agent-core/src/ws/gateway-client.ts:320-343 | A handshake listener clears its own timer and completes the handshake on a valid greeting, else closes the current socket |
| GatewayConnection.GatewayClient.GreetEach | packages/host-agent-core/src/ws/gateway-client.ts:320-343 | All listeners of the socket in turn |
| GatewayConnection.GatewayClient.OnConnected | packages/host-agent-core/src/ws/gateway-client.ts:329-339 | Stores the host id, resets backoff, attempt count and time of loss, reports the connection and starts a heartbeat without clearing an earlier one |
| GatewayConnection.GatewayClient.StartHeartbeatTimer | packages/host-agent-core/src/ws/gateway-client.ts:445-449 | Arms one more heartbeat and remembers it |
| GatewayConnection.GatewayClient.Dispatch | packages/host-agent-core/src/ws/gateway-client.ts:346-386 | The state after any message: a call starts its handler or is refused, a reply settles its call, `null` crashes, anything else does nothing |
| GatewayConnection.GatewayClient.SettleReply | packages/host-agent-core/src/ws/gateway-client.ts:363-369 | Clears the call's timer, removes it and resolves it; unknown ids change nothing |
| GatewayConnection.GatewayClient.OnHandlerReturn | packages/host-agent-core/src/ws/gateway-client.ts:399-410 | Sends chunk and result, or an error, on the socket open now |
| GatewayConnection.GatewayClient.OnSocketClose | packages/host-agent-core/src/ws/gateway-client.ts:413-422 | Clears both timers, keeps the time of the first loss, rejects all calls, reports the loss and schedules a reconnect unless stopped, whichever socket closed |
| GatewayConnection.GatewayClient.ScheduleNext | packages/host-agent-core/src/ws/gateway-client.ts:434-443 | Counts the attempt and arms one reconnect timer a backoff ahead, without clearing an earlier one |
| GatewayConnection.GatewayClient.RejectAllPendingAdapterCalls | packages/host-agent-core/src/ws/gateway-client.ts:425-432 | Empties the table, with every call in it rejected and its timer cleared |
| GatewayConnection.GatewayClient.CallAdapter | packages/host-agent-core/src/ws/gateway-client.ts:105-132 | Refused without an open socket, else entered with a timer of the delay Node gives it and sent |
| GatewayConnection.GatewayClient.OnTimer | packages/host-agent-core/src/ws/gateway-client.ts:316-318 | The state after any of the four kinds of timers fires |
| GatewayConnection.GatewayClient.OnReconnectTimer | packages/host-agent-core/src/ws/gateway-client.ts:437-442 | Does nothing when stopped; ends the process when the getter throws; otherwise connects and doubles the backoff up to its cap |
| GatewayConnection.GatewayClient.OnCallTimeout | packages/host-agent-core/src/ws/gateway-client.ts:115-118 | Removes the call and rejects it |
| GatewayConnection.GatewayClient.ClearBothTimers | packages/host-agent-core/src/ws/gateway-client.ts:451-454 | The timers the two handles name are gone and no others |
| GatewayConnection.GatewayClient.SendFrame | packages/host-agent-core/src/ws/gateway-client.ts:456-460 | Sends on the current socket if it is open, else nothing |
| TokenRotation.TokenAvailability | packages/host-agent-core/src/token/token-manager.ts:45-120 | Over any number of rotations, while each round grants some attempt k within the limit and waiting stays inside the margin: at every instant after `start` the getter returns the token of the pair received last, more than 60 s before the accepted expiry, and a request under way carries that pair's refresh token; that is the pair accepted last unless an attempt was answered with an invalid pair |
| TokenRotation.RefreshSendsLatest | packages/host-agent-core/src/token/token-manager.ts:89-92 | In every run after `start`, whatever is answered and however often it is stopped: at most one refresh is under way and it carries the refresh token of the pair received last, and a timer that fires sends exactly that one |
| TokenRotation.FailureIsFinalIff | packages/host-agent-core/src/token/token-manager.ts:98-119 | A failed attempt (an error or a lifetime outside 1 second to 1 year) ends its round, with one report and nothing outstanding, iff the token is within 60 s of its expiry or the attempts are used up |
| TokenRotation.StartAcceptsIff | packages/host-agent-core/src/token/token-manager.ts:45-75 | `start` arms a refresh iff the lifetime is between 1 second and 1 year; otherwise nothing is armed and the getter throws |
| TokenRotation.MoveOnTime | packages/host-agent-core/src/token/token-manager.ts:77-120 | Every tick, timer, failed attempt and grant of such a run keeps the round in time |
| TokenRotation.MarginIsExact | packages/host-agent-core/src/token/token-manager.ts:52-58 | The bound is exact: after an on-time refresh began, the getter throws iff the answer has taken 1000 * refreshBefore - 60000 ms or more |
| TokenRotation.RetriesTerminate | packages/host-agent-core/src/token/token-manager.ts:89-120 | A round of failures (errors or invalid pairs) makes at most max(1, maxRetries) attempts, whatever the latencies, and has reported failure, exactly once, iff nothing is outstanding any more |
| TokenRotation.RetryDelay | packages/host-agent-core/src/token/token-manager.ts:116-118 | The k-th failure that is not final is followed by exactly one timer 30000 * 2^(k-1) ms ahead while that fits a Node timer |
| TokenRotation.GivesUpByLimit | packages/host-agent-core/src/token/token-manager.ts:103-114 | While waiting stays inside the margin a round is given up at the retry limit only, with the token still good |
| TokenRotation.StepHandles | packages/host-agent-core/src/token/token-manager.ts:77-87 | In every run the manager's handle names the only armed timer, and no timer is armed while a refresh is under way |
| TokenRotation.StopEndsRotationIff | packages/host-agent-core/src/token/token-manager.ts:60-65 | Over all continuations: after `stop()` some run arms a timer again iff a refresh was under way |
| TokenRotation.StopDuringRefresh | packages/host-agent-core/src/token/token-manager.ts:60-65 | A concrete run in which the manager is stopped during a refresh and the answer arms the next one |
| TokenRotation.InvalidPairIsServed | packages/host-agent-core/src/token/token-manager.ts:92-94 | A pair whose expiry is invalid counts as a failed attempt and leaves the expiry as it was, yet the getter hands out its token |
| TokenRotation.RefreshDelay | packages/host-agent-core/src/token/token-manager.ts:77-87 | The refresh is due when intended iff the delay fits a Node timer; otherwise it is due after one millisecond |
| TokenRotation.MonthLongToken | packages/host-agent-core/src/token/token-manager.ts:77-87 | A token of thirty days is refreshed one millisecond after it was received |
| TokenRotation.TokenManager.constructor | packages/host-agent-core/src/token/token-manager.ts:40-43 | Defaults of 300 seconds and three attempts; nothing armed |
| TokenRotation.TokenManager.Start | packages/host-agent-core/src/token/token-manager.ts:45-50 | Returns the token and arms the refresh, or rejects an invalid expiry with the pair already stored |
| TokenRotation.TokenManager.GetAccessToken | packages/host-agent-core/src/token/token-manager.ts:52-58 | The token, or nothing before the start and within 60 s of expiry |
| TokenRotation.TokenManager.StopTimer | packages/host-agent-core/src/token/token-manager.ts:60-65 | Clears the timer the handle names |
| TokenRotation.TokenManager.CalcExpiresAt | packages/host-agent-core/src/token/token-manager.ts:67-75 | The expiry instant for lifetimes from 1 second to one year, an error for all others |
| TokenRotation.TokenManager.ScheduleRefresh | packages/host-agent-core/src/token/token-manager.ts:77-87 | Replaces the armed timer by one for the refresh |
| TokenRotation.TokenManager.OnTimer | packages/host-agent-core/src/token/token-manager.ts:89-92 | A fired timer sends the refresh token of the pair held now; which one that is in a run, `RefreshSendsLatest` says |
| TokenRotation.TokenManager.OnAnswer | packages/host-agent-core/src/token/token-manager.ts:92-119 | The state after a granted, refused or invalid answer |
| TokenRotation.TokenManager.OnFailure | packages/host-agent-core/src/token/token-manager.ts:98-119 | The catch branch: the expiry guard, then the retry limit, then a retry, in that order |
| ExecutionJournal.AtMostOnce | apps/host-agent-app/src/handlers/execution-handler.ts:105-181 | Over all interleavings of requests, completions and cleanups: no two bodies with one id run at once, their requests began more than five minutes apart, and a request under way always has its `started` entry |
| ExecutionJournal.OnlyAllowedRun | apps/host-agent-app/src/handlers/execution-handler.ts:121-127 | Over all interleavings: every body that begins, and every request under way, is for a plugin on the allowlist (any plugin if that is empty) and was asked for with that id and plugin |
| ExecutionJournal.AcceptedIffListed | apps/host-agent-app/src/handlers/execution-handler.ts:109-127 | A request whose id has no entry is accepted iff its plugin is on the list; then exactly its own entry and request are new, and otherwise it is told so and nothing changes |
| ExecutionJournal.StepApart | apps/host-agent-app/src/handlers/execution-handler.ts:250-257 | Every step, cleanup included, keeps bodies of one id more than five minutes apart |
| ExecutionJournal.DuplicateReplays | apps/host-agent-app/src/handlers/execution-handler.ts:109-118 | A duplicate of a completed request runs nothing, changes nothing, and is answered like the original iff that did not fail with an empty message |
| ExecutionJournal.EmptyMessageReplaysAsSuccess | apps/host-agent-app/src/handlers/execution-handler.ts:109-118 | A concrete run whose body fails with the empty message and whose duplicate is told it succeeded |
| ExecutionJournal.BlockedIffFailedEarly | apps/host-agent-app/src/handlers/execution-handler.ts:140-145 | In every run an id is blocked iff a request with it failed in resolution or proxy creation, outside the try block |
| ExecutionJournal.FailedResolutionBlocks | apps/host-agent-app/src/handlers/execution-handler.ts:140-145 | A concrete run after which nothing runs and the id is still refused as in progress |
| ExecutionJournal.BlockedForGood | apps/host-agent-app/src/handlers/execution-handler.ts:117-119 | A blocked id is never accepted again and never runs a body |
| ExecutionJournal.FreeAfterCleanupIff | apps/host-agent-app/src/handlers/execution-handler.ts:250-257 | After a cleanup an id is accepted iff its entry was completed and began more than 300000 ms ago |
| ExecutionJournal.ExecutionHandler.constructor | apps/host-agent-app/src/handlers/execution-handler.ts:70-80 | A new handler's journal is empty |
| ExecutionJournal.ExecutionHandler.Execute | apps/host-agent-app/src/handlers/execution-handler.ts:105-127 | The reply and journal up to the first await: replay, in progress, not allowed, or accepted |
| ExecutionJournal.ExecutionHandler.OnResolved | apps/host-agent-app/src/handlers/execution-handler.ts:140-157 | Only here a body begins |
| ExecutionJournal.ExecutionHandler.OnResolveFailed | apps/host-agent-app/src/handlers/execution-handler.ts:140-145 | The request ends and its entry stays |
| ExecutionJournal.ExecutionHandler.OnBodyEnd | apps/host-agent-app/src/handlers/execution-handler.ts:159-177 | The outcome is written to the entry under its original start time |
| ExecutionJournal.ExecutionHandler.CleanupJournal | apps/host-agent-app/src/handlers/execution-handler.ts:250-257 | Exactly the completed entries older than five minutes are gone |
| Paths.ValidateIffContained | packages/host-agent-fs/src/filesystem-handler.ts:63-72 | A path is accepted iff an allowed root's segments are an initial part of its own (for `/` as a root: iff it is `/`), and the result is the text of the place it leads to |
| Paths.ValidateIdempotent | packages/host-agent-fs/src/filesystem-handler.ts:63-72 | Validating an accepted path again returns it unchanged |
| Paths.UnderIffPrefix | packages/host-agent-fs/src/filesystem-handler.ts:66-69 | The string-prefix test is segment-list containment |
| Paths.NormalizeKeepsPlace | packages/host-agent-fs/src/filesystem-handler.ts:64 | Normalising changes neither where a path leads, from any directory, nor whether it is absolute |
| Paths.NormalizeAbsolute | packages/host-agent-fs/src/filesystem-handler.ts:64 | A normalised absolute path is the text of the place it leads to, with a final slash iff the path had one and is not the root |
| Paths.ResolveRenders | packages/host-agent-fs/src/filesystem-handler.ts:64 | Resolving gives the text of the place the parts lead to one by one |
| Paths.ReduceLoop | packages/host-agent-fs/src/filesystem-handler.ts:64 | The segment-stack loop of `normalize` and `resolve` computes its specification |
| PluginResolver.RelativeRefStaysInside | apps/host-agent-app/src/handlers/local-plugin-resolver.ts:55-61 | A relative reference that climbs out is refused, and every one that passes resolves at or below the plugin root, at the place its parts lead to |
| PluginResolver.PassedRefInsideIff | apps/host-agent-app/src/handlers/local-plugin-resolver.ts:55-61 | Every reference that passes resolves to the place its parts lead to, and that is at or below the plugin root iff the reference is relative or names a place there by itself |
| PluginResolver.AbsoluteRefPasses | apps/host-agent-app/src/handlers/local-plugin-resolver.ts:55-61 | The text of any place none of whose names ends in two dots passes and resolves to itself, outside every plugin root that is no initial part of it |
| PluginResolver.OutsideRefPasses | apps/host-agent-app/src/handlers/local-plugin-resolver.ts:55-61 | A concrete reference that passes and leads outside |
| PluginResolver.RefusedIff | apps/host-agent-app/src/handlers/local-plugin-resolver.ts:56-59 | The check refuses iff the first part of the normal form begins with two dots or a slash-closed part ends in two |
| PluginResolver.IncludesIffPartEndsInDots | apps/host-agent-app/src/handlers/local-plugin-resolver.ts:57 | A text contains `../` iff one of its slash-closed parts ends in two dots |
| PluginResolver.DottedNameRefused | apps/host-agent-app/src/handlers/local-plugin-resolver.ts:57 | A harmless name beginning with two dots is refused |
| Workspace.SnapshotExact | packages/host-agent-fs/src/filesystem-handler.ts:105-147 | The snapshot holds exactly the readable files below 5 MiB with no excluded component and no excluded initial path, under their relative paths, no path twice |
| Workspace.FetchWorkspace | packages/host-agent-fs/src/filesystem-handler.ts:105-110 | The files of the tree at an accepted path in traversal order, or denied |
| Workspace.CollectFiles | packages/host-agent-fs/src/filesystem-handler.ts:112-147 | The walk appends the snapshot of its directory's subtree in traversal order |
| Workspace.CollectEntry | packages/host-agent-fs/src/filesystem-handler.ts:120-146 | One entry: skipped, walked into, or pushed if it is a readable file below the limit |
| Workspace.SkipsIffExcluded | packages/host-agent-fs/src/filesystem-handler.ts:125-127 | On entries of entered directories the test is exclusion of the entry's own path, and its `startsWith` part never holds |
| Workspace.ExcludedIff | packages/host-agent-fs/src/filesystem-handler.ts:124-127 | The excluded paths are those with a component `node_modules`, `.git` or `dist`, and those at or below `.kb/cache`, `.kb/runtime` and `.kb/logs` of the root |
| Workspace.ExcludedSubtree | packages/host-agent-fs/src/filesystem-handler.ts:124-127 | Not entering an excluded directory loses no file that belongs to the snapshot |
| Workspace.FoundIff | packages/host-agent-fs/src/filesystem-handler.ts:120-137 | The traversal lists a file iff following its names through the tree leads to it |
| Workspace.FilesInOrder | packages/host-agent-fs/src/filesystem-handler.ts:120-146 | The traversal lists a directory's files in the order of its entries, each entry's files together |
| ShellQuoting.EscapeRoundTrip | packages/host-agent-fs/src/search-handler.ts:187-189 | For every text, lexing its escaped form by sections 2.2.1 and 2.2.2 of the POSIX.1-2017 Shell Command Language gives one word, that text |
| ShellQuoting.EscapeFeeds | packages/host-agent-fs/src/search-handler.ts:187-189 | Anywhere outside quotes, escaped text adds exactly the original to the current word |
| ShellQuoting.EscapeInjective | packages/host-agent-fs/src/search-handler.ts:187-189 | Different texts have different escaped forms |
| ShellQuoting.GrepTailWords | packages/host-agent-fs/src/search-handler.ts:107-110 | After any complete flags the command tail adds exactly three words: `--`, the pattern, the directory |
| ShellQuoting.FindWords | packages/host-agent-fs/src/search-handler.ts:154 | In the `find` command the directory and the name pattern are one word each, whatever they contain |
| GrepLines.LineRoundTrip | packages/host-agent-fs/src/search-handler.ts:123-131 | For nonempty file names and contents without line terminators, `file:line:content` is read back exactly iff the file name with its colon contains no `:digits:` behind its first character |
| GrepLines.ReadIff | packages/host-agent-fs/src/search-handler.ts:124 | A line is read as a match iff it has no line feed, carriage return, U+2028 or U+2029 and `:digits:` stands behind its first character |
| GrepLines.NumberInFileName | packages/host-agent-fs/src/search-handler.ts:123-131 | Every match in a file named `a:number:b` is read as one in file `a` |
| GrepLines.ReadOutput | packages/host-agent-fs/src/search-handler.ts:120-138 | Matches are the readable lines in order, cut at the maximum, with the total and the truncation flag |
| GrepLines.FlushReadBack | packages/host-agent-fs/src/search-handler.ts:120-132 | Unless trimming cuts into it, the output for any list of matches is read back in order without those whose line holds a carriage return, U+2028 or U+2029 |
| GrepLines.CrlfLosesAllButLast | packages/host-agent-fs/src/search-handler.ts:120-132 | From files with CRLF line ends every match but the last one of the output is lost |
| GrepLines.OutputRoundTrip | packages/host-agent-fs/src/search-handler.ts:120-132 | The whole output for any list of unambiguous matches is read back match by match iff trimming does not cut into its first file name or last content |
| GrepLines.LastBlankLost | packages/host-agent-fs/src/search-handler.ts:120-132 | A blank at the end of the last content is lost |

## Left out

- DoExecuteHttp: works on decoded characters; a multi-byte character at the end of a body that breaks off is not modelled, nor is the abstract `fetch` itself.
- NdjsonFramer: a multi-byte character split across two socket chunks is garbled by the source, which decodes each chunk alone; the model's chunks are whole characters.
- EndToEnd: takes runs in which the framer's limit is not hit, the request does not time out and the client is not closed; timeouts and closes are covered by GeneratorCorrect. A second IPC client process, which would take the replies away, is not modelled.
- RouteOf: an event or result frame without payload counts as carrying `null`, where the source hands on `undefined`.
- ParseRequest: the request schemas are their required and optional fields by type; further refinements of the schema library are not modelled.
- DeliveredPart: says nothing about how the operating system schedules the socket, only that text arrives in order.
- TokenManager: one `start()`; the callback `onRefreshed` does not throw.
- OnTimeout: when the client's timers are due (`requestTimeout`, 10 s by default) is not modelled; they may fire at any time.
- CalcExpiresAt: lifetimes are whole seconds, where the schema admits fractions.
- GatewayClient: request ids and adapter-call ids are fresh; adapter-call arguments can be serialised. The callback `onTokenExpired`, which the daemon leaves empty, does not reject.
- CallHistory: the timer of a call fires at its deadline or later, as Node allows, so a reply may still win after the deadline.
- HelloFrame: of the hello only the host id is modelled; version, capabilities, workspaces and plugins are fixed options.
- FindWords: the part of the `find` command after the name pattern (exclusions and the pipe to `head`) is outside the lexer's fragment.
- GrepTailWords: the flags before the tail are any text that lexes to whole words; how the exclusion and inclusion flags are put together is not modelled.
- ReadOutput: line numbers are exact integers, where `parseInt` rounds above 2^53; context lines and a match limit that is not a natural number are not modelled.
- ResolveRenders: POSIX paths only; the working directory is absolute and in normal form.
- FetchWorkspace: `relative(root, path)` is the names below the root joined by slashes; the tree does not change during the walk and has no symbolic links.
- RelativeRefStaysInside: lexical only; the `realpath` comparison that follows it in the source is not modelled.
- How `executeTunnel` splits the command into plugin and handler, and `cancelExecute`'s request: plain string work.
- A consumer that abandons the generator early, and errors thrown by callbacks: the source has no handling of its own for them.
- OpenNewSocket: which URLs `doConnect` accepts is a fixed list and not modelled; a refused URL counts as a getter that throws.
- Which commands the shell handler blocks: a fixed list.
- Log output and the unused `pendingCalls` table.
- Plugin manifests and their scan, the plugin runtime, the proxy platform, subprocess mode and abort timeouts: a plugin body is a step that ends.
- `GatewayTransport`, transports, CLI commands, configuration, registration and file operations other than the snapshot: thin mappings.
- Clock jumps: the clock never goes backwards.
