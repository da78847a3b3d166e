# oopsys-agent: the delivery protocol and its neighbours, in Dafny

oopsys-agent records events on a host, keeps them in a local SQLite history, and ships them to a
central server through a local NATS JetStream queue. This project models what the agent does with an
event from the moment it is recorded, and proves what holds over every run.

`dafny verify dfyconfig.toml` checks everything.

| file | what it holds |
|---|---|
| `Domain.dfy`, `Messages.dfy` | events, history rows, envelopes; subjects of the queue and the filter that selects them |
| `ServerClient.dfy` | how one HTTP exchange is judged |
| `Delivery.dfy`, `DeliveryTheorems.dfy` | the store-and-forward machine and what its runs never do |
| `Draining.dfy` | how the queue empties, and which events can still reach the server |
| `Forwarder.dfy` | the delivery handler as a machine over its outage-log flags, run one at a time and interleaved |
| `Lifecycle.dfy` | the gateway's coroutines, suspended at every `await` |
| `Connection.dfy` | which connections of the store-and-forward machine the gateway's coroutines make |
| `Gateway.dfy`, `Events.dfy` | `NatsGateway` and `EventService` as objects |
| `Recording.dfy` | a record call of the service as a run of the store-and-forward machine |
| `DockerMonitor.dfy`, `Scheduler.dfy` | the Docker client and the monitoring loop as objects |
| `Tokens.dfy` | the identity row and its token |
| `Ports.dfy`, `Stats.dfy` | the port formatter and the container statistics |

How things are modelled:

- **Machines.** The delivery protocol, the interleaved handlers and the gateway's lifecycle are total
  functions from a state and a step to a state. A step is a choice of the environment; one that is not
  enabled changes nothing, so "every run" is "every sequence of steps".
- **The environment of the delivery machine** lets commits succeed or fail, connects and disconnects the
  broker, stores a publish or loses it for good, confirms it or not, cancels record calls, lets a lease run out,
  delivers, answers with any status at any time (also after the handler gave up or the agent died),
  loses replies and settlements, and kills and restarts the agent with or without a token. A restart
  ends coroutines; what is on the wire (a publish, a request, a settlement) is not undone by it. The
  stream is durable, without retention limits; it drops a message only on an acknowledgement, and a
  negative acknowledgement from an expired delivery may take the message away from a later one.
  Deliveries do not depend on the broker flag, because a subscription starts before `_broker` is set.
- **Connections.** The delivery machine may connect and disconnect at will. Between two starts of the agent
  a gateway does so at most once each: it produces no `Broker` step, `Broker(true)` alone, or
  `Broker(true)` and, by `close`, `Broker(false)` (`Connection.GatewayConnectsOnce`).
- **Accepted** means that the server answered the request with a status below 400, whether or not the
  answer arrived.
- **Objects.** A coroutine that nothing interleaves with is a method. The end of each `await` is an
  argument: it returns, raises, or is cancelled. Clocks and drawn random values are arguments as well.
- **Assumed:** SHA-256 is injective, a `TokenService` call is atomic, logging does not raise, libraries
  do not swallow a cancellation, `close` of the gateway is called once and after `start` has returned.

Where the code and its documentation differ, the code is modelled:

- The repository's `README.md:87` says a message is acknowledged on HTTP 2xx. The code acknowledges every status below
  400 (`ServerClient.RedirectIsAcked`, `ServerClient.AckAgreesWithDocumentation`).
- The repository's `README.md:7` says every event is written to the queue and nothing is lost. An event
  published while no broker is held is only in history, and stays there; so is one whose publish is
  refused or lost with a broker held, since the failure is dropped and nothing publishes again.
  `Draining.RecordedBeforeConnecting` and `Draining.RefusedWhileConnected` are such runs. The exact
  condition is that publish is called while a broker is held and what it sends is not lost
  (`Draining.DeliverableIffPublishedAndNotLost` over every run, `Recording.RecordedCanReach` for one
  record call). An event whose publish returned true meets it (`Draining.ConfirmedCanReach`).
- The repository's `README.md:65` gives `ContainerState` as the Docker payload. The scheduler enqueues snapshots.
- A broker whose connect attempt is cancelled is never stopped. `Lifecycle.CancellationLeaks` is such a
  run; `Lifecycle.LeftRunningIffMidAttempt` says that `close` leaves a broker running exactly when it is
  called while the retry task connects, starts or stops one.
- `queue_connected` goes up once and, after a failed publish, never again, even while later publishes
  succeed (`Lifecycle.ConnectedRisesOnce`, `Lifecycle.PublishSucceedsWhileReportedDown`). It is right
  about a held broker exactly until the first publish fails (`Lifecycle.ConnectedIffNoPublishFailed`).
- The flags of the delivery handler are there to log an outage once. As long as no two handlers are at the
  logger together every outage is logged (`Forwarder.NoSilentOutageIfLoggerShared`); with two there it can
  be silent (`Forwarder.SilentOutageHappens`), exactly when a rejection is already flagged
  (`Forwarder.SilentOutage`).

## Model

| member | source | states |
|---|---|---|
| DeliveryTheorems.NothingIsLost | src/oopsys_agent/services/nats.py:60-106 | over every run, an event whose publish returned true is exactly one message of the stream, still unacknowledged or accepted by the server |
| DeliveryTheorems.AckedWasAccepted | src/oopsys_agent/services/nats.py:79-106 | a message leaves the stream only after a handler saw the server accept it |
| DeliveryTheorems.RunExtends | src/oopsys_agent/services/nats.py:21-27 | no step drops or replaces a stored message, takes back an acknowledgement or an acceptance, or shortens history |
| DeliveryTheorems.DuplicatesAreExcused | src/oopsys_agent/services/nats.py:59-66 | a message is accepted at most once more than its accepted deliveries that gave up on the reply, expired or were superseded |
| DeliveryTheorems.DuplicatesCostWastedSteps | src/oopsys_agent/services/nats.py:59-106 | over every run, each acceptance of a message beyond the first costs one step that gave up on an accepted request, let the server accept an abandoned one, or took the lease from an accepted delivery |
| DeliveryTheorems.PromptRunsDeliverExactlyOnce | src/oopsys_agent/services/nats.py:59-99 | through any refused or timed-out requests, rejections, losses and restarts: if no request ends ambiguously (given up though accepted) and no lease runs out, no message is accepted twice and an acknowledged one exactly once |
| Draining.BacklogAccounting | src/oopsys_agent/services/nats.py:65-106 | the backlog changes only by a stored publish and by a first acknowledgement; nacks, losses, expiries and restarts leave it |
| Draining.HandlerSettlesAsForwarded | src/oopsys_agent/services/nats.py:69-106 | a handler without a token raises at once and sends nothing; with one it sends, returns on a status below 400, and raises on any other, on a lost reply and on a timeout |
| Draining.NackFreesOwnMessage | src/oopsys_agent/services/nats.py:65-99 | a negative acknowledgement from the delivery that holds its message frees it at once, and a new delivery can be made with no time passing; nothing else changes |
| Draining.StaleNackFreesMessage | src/oopsys_agent/services/nats.py:65-99 | one from a delivery that lost its message takes it away from the later holder, whose handler goes on |
| Draining.AckRemovesMessage | src/oopsys_agent/services/nats.py:65-106 | a positive acknowledgement removes the message whoever holds it, and it is never handed out again |
| Draining.LeaseEndsWhenDue | src/oopsys_agent/services/nats.py:65 | a lease ends once ack_wait has passed since the message was handed out, and not before |
| Draining.DeliveredIffFree | src/oopsys_agent/services/nats.py:59-66 | a message is handed out exactly when it is in the stream and nobody holds it |
| Draining.RoundShrinksBacklog | src/oopsys_agent/services/nats.py:65-106 | arbitrary disturbances, then one good delivery of an unacknowledged message, offered after its lease ran out or right after a negative acknowledgement, with anything else going on between its steps, strictly shrink the backlog and keep every acknowledgement |
| Draining.FairSchedulesDrain | src/oopsys_agent/services/nats.py:65-106 | from every reachable state with a token, a schedule that serves each message well once, with any faults before and any other work during it, empties the queue |
| DeliveryTheorems.NoTokenNothingLeaves | src/oopsys_agent/services/nats.py:69-77 | from any restart without a token until one with, no request is sent, and a message is acknowledged only by an acknowledgement that was on its way before |
| DeliveryTheorems.NoTokenEver | src/oopsys_agent/services/nats.py:69-77 | an agent that never had a token sends no request and everything stored stays in the stream |
| DeliveryTheorems.WriteAhead | src/oopsys_agent/services/events.py:31-137 | every message of the stream has the rows of its event in the committed history |
| DeliveryTheorems.HistoryIsTheCommittedCalls | src/oopsys_agent/services/events.py:36-137 | history is the projection of the committed record calls, each once, in commit order, whatever became of their publishes |
| Recording.RecordCallIsARun | src/oopsys_agent/services/events.py:31-137 | for every end of commit and publish, with and without a broker, a record call is a run of the machine that leaves its rows iff the commit is durable, its message iff the stream stores it, and the matching result |
| Recording.RecordsRefines | src/oopsys_agent/services/events.py:31-137 | what a record method of the service does to history and stream, and how it ends, is what the machine does in that run |
| Recording.UndisturbedRecord | src/oopsys_agent/services/events.py:36-50 | with a broker held, an undisturbed record call leaves its rows, one message for its envelope, and returns true |
| Draining.ReachableIffBrokerHeld | src/oopsys_agent/services/nats.py:150-164 | right after publish is called for a committed event, that event can still reach the server if and only if a broker was held at the call; a later refusal can yet end that |
| Draining.DeliverableIffPublishedAndNotLost | src/oopsys_agent/services/nats.py:150-164 | over every run, once its record call is over an event can still reach the server if and only if its publish was called while a broker was held and what it sent was not lost |
| Draining.ConfirmedCanReach | src/oopsys_agent/services/nats.py:150-164 | over every run, an event whose publish returned true can reach the server |
| Draining.RefusedWhileConnected | src/oopsys_agent/services/nats.py:153-163 | a run of six steps with a broker held ends with the event in history, its call returned, and no way to the server |
| Recording.RecordedCanReach | src/oopsys_agent/services/events.py:31-137 | after a record call, for every end of commit and publish, the event can reach the server if and only if the commit returned, a broker was held and the stream stored the message |
| Lifecycle.HeldFromRiseToClose | src/oopsys_agent/services/nats.py:108-179 | over every run of the gateway, a broker is held exactly from the one attempt that succeeds until close has ended |
| Connection.GatewayConnectsOnce | src/oopsys_agent/services/nats.py:108-179 | over every run of the gateway, a broker comes at most once and then goes at most once, by close |
| Connection.HeldAsGatewaySays | src/oopsys_agent/services/nats.py:108-179 | where the connections made since the agent's start are those of a gateway, whatever else happens, a broker is held in the delivery machine exactly when that gateway holds one |
| Draining.RecordedBeforeConnecting | src/oopsys_agent/services/nats.py:151-152 | a run of three steps ends with the event in history, its call returned, and no way to the server |
| Draining.FailedPublishIsAmbiguous | src/oopsys_agent/services/nats.py:153-163 | a publish that raised ends the same way for the agent with the message stored, and so deliverable, and with it lost for good |
| Draining.LostAckCausesDuplicate | src/oopsys_agent/services/nats.py:59-66 | an acknowledgement lost on its way leaves the message in the stream, and its next good delivery is one more acceptance |
| DeliveryTheorems.RestartSeversDeliveries | src/oopsys_agent/services/nats.py:59-106 | a restart ends every record call and handler; a message unacknowledged at it is later acknowledged only by a newer delivery or by an acknowledgement already on its way |
| DeliveryTheorems.OldDeliveryAcksIffSent | src/oopsys_agent/services/nats.py:59-106 | of the deliveries made before a restart, exactly those that had sent their acknowledgement can still remove their message |
| DeliveryTheorems.ReachableInv | src/oopsys_agent/services/nats.py:59-106 | every reachable state satisfies the invariant that the other theorems start from |
| Delivery.RunKeepsInv | src/oopsys_agent/services/nats.py:59-106 | every step keeps the links between calls, messages, leases and deliveries; a message is handed out again only when taken back from all earlier deliveries |
| Forwarder.LogIsPaced | src/oopsys_agent/services/nats.py:69-106 | in every sequential run a repeated warning has a recovery in between, and two recoveries a warning |
| Forwarder.LogIsExact | src/oopsys_agent/services/nats.py:79-106 | over every sequential run with a token the log is told by the replies: a rejection and a failure are written iff first of their kind since the last delivery, a delivery iff the handler before did not deliver |
| Forwarder.NoTokenWarnsOnce | src/oopsys_agent/services/nats.py:70-77 | over every run without a token the first handler writes the warning and no other handler writes anything |
| Forwarder.EntersWithoutToken | src/oopsys_agent/services/nats.py:70-77 | at any interleaving, a handler that enters without a token writes the warning iff it is not flagged, and then flags it |
| Forwarder.OutageLogIsBounded | src/oopsys_agent/services/nats.py:69-106 | at most two warnings per outage with a token; without one at most one warning and no recovery, over any run |
| Forwarder.ReachableMeansLastDelivered | src/oopsys_agent/services/nats.py:91-105 | server_reachable says whether the last handler delivered |
| Forwarder.WasReachableIsRedundant | src/oopsys_agent/services/nats.py:91-98 | in sequential runs the was-reachable half of the guard changes no log |
| Forwarder.FlagsDoNotDecide | src/oopsys_agent/services/nats.py:69-106 | acknowledgement depends on the token and the reply only, never on the log flags |
| Forwarder.UninterruptedHandler | src/oopsys_agent/services/nats.py:69-106 | with handlers interleaved at their awaits, one that is not interrupted still does what the sequential handler does |
| Forwarder.SilentOutage | src/oopsys_agent/services/nats.py:81-98 | at any interleaving the step to unreachable is silent if and only if it is a rejection already flagged; a delivery error always warns |
| Forwarder.InterleavingBreaksFlags | src/oopsys_agent/services/nats.py:81-105 | a rejection suspended at the logger while another handler recovers leaves its warning flag up with the server reachable |
| Forwarder.SilentOutageHappens | src/oopsys_agent/services/nats.py:81-105 | a run of two handlers from the start after which the next rejection makes the server unreachable without a log entry |
| Forwarder.SequentialOutageWarns | src/oopsys_agent/services/nats.py:81-98 | when handlers run one after the other, the one that turns the server unreachable writes one entry |
| Forwarder.NoSilentOutageIfLoggerShared | src/oopsys_agent/services/nats.py:69-106 | over every interleaved run in which no two handlers are at the logger together, each step that turns the server unreachable writes one entry |
| ServerClient.Send | src/oopsys_agent/services/server_client.py:34-44 | delivered exactly below status 400; rejected exactly on 401 and 403 |
| ServerClient.RedirectIsAcked | README.md:87 | a redirect is acknowledged although the documented rule excludes it |
| ServerClient.AckAgreesWithDocumentation | README.md:87 | code and documented rule agree exactly on 2xx and on 400 and above |
| Lifecycle.SafeAtEverySuspension | src/oopsys_agent/services/nats.py:108-179 | at every suspension: connected implies a running broker is held, at most one attempt is in flight, every broker is stopped, held, pending or leaked |
| Lifecycle.ClosedForGood | src/oopsys_agent/services/nats.py:172-179 | after close there is no task, no broker and no connected queue, all brokers but a leaked one are stopped, and no later step changes that |
| Lifecycle.RetryNeverGivesUp | src/oopsys_agent/services/nats.py:137-148 | over every run in which start has returned false, close was not called and no broker has come, the retry task exists and has not ended |
| Lifecycle.RetryConnectsOnceReachable | src/oopsys_agent/services/nats.py:137-148 | from every such state at most five resumptions whose awaits return end with a broker held and the queue reported connected |
| Lifecycle.RetryAttemptRun | src/oopsys_agent/services/nats.py:108-141 | an uninterrupted attempt of the retry task ends the task when both awaits return, and puts it to sleep with its broker stopped when one raises |
| Lifecycle.TriedIsARun | src/oopsys_agent/services/nats.py:137-141 | however many attempts fail, the retry task makes the next one, and ends with the first that succeeds |
| Lifecycle.LeftRunningIffMidAttempt | src/oopsys_agent/services/nats.py:108-179 | over every run in which close is called after start and returns, a broker is left running if and only if the retry task was connecting, starting or stopping it at the call |
| Lifecycle.CancellationLeaks | src/oopsys_agent/services/nats.py:172-179 | a run of eight steps after which close has returned and a broker was never stopped |
| Lifecycle.ConnectedRisesOnce | src/oopsys_agent/services/nats.py:131-164 | queue_connected goes from false to true at most once in any run |
| Lifecycle.NeverReconnects | src/oopsys_agent/services/nats.py:160-163 | once connected and disconnected, no step makes it connected again |
| Lifecycle.ConnectedIffNoPublishFailed | src/oopsys_agent/services/nats.py:131-164 | over every run, queue_connected holds if and only if a broker is held and no publish has failed so far |
| Lifecycle.PublishSucceedsWhileReportedDown | src/oopsys_agent/services/nats.py:150-164 | a run of eight steps that ends with a held broker, a confirmed publish and the report off |
| Lifecycle.AttemptOutcome | src/oopsys_agent/services/nats.py:108-135 | an uninterrupted attempt ends connected iff both awaits return; otherwise its broker is stopped and none is held |
| Lifecycle.UninterruptedClose | src/oopsys_agent/services/nats.py:172-179 | an uninterrupted close, from every state it can be called in, stops the held broker and abandons the one of a cancelled attempt |
| Gateway.NatsGateway.Forward | src/oopsys_agent/services/nats.py:69-106 | flags, log, acknowledgement and last_forwarded_at are those of the handler machine |
| Gateway.NatsGateway.ConnectOnce | src/oopsys_agent/services/nats.py:108-135 | brokers, held broker, queue_connected and the failure flag are those of the lifecycle machine's attempt |
| Gateway.NatsGateway.RetryLoop | src/oopsys_agent/services/nats.py:137-141 | returns at the first success with every failed broker stopped, and otherwise sleeps; the object is where the lifecycle machine's run of the same attempts ends |
| Gateway.NatsGateway.Start | src/oopsys_agent/services/nats.py:143-148 | the object is where the lifecycle machine's start ends: a retry task is left exactly when the first attempt fails |
| Gateway.NatsGateway.Publish | src/oopsys_agent/services/nats.py:150-164 | true iff a broker is held and confirms; an exception clears queue_connected; the stream gains at most this message |
| Gateway.NatsGateway.Close | src/oopsys_agent/services/nats.py:166-179 | after start has returned, and from wherever the retry task stands, the object ends where the lifecycle machine's uninterrupted close does: the held broker is stopped, every other one is as before |
| Events.EventService.RecordErrorReport | src/oopsys_agent/services/events.py:36-50 | history gains the row iff the commit is durable, and only after a commit that returned the envelope is offered under its subject |
| Events.EventService.RecordServerMetrics | src/oopsys_agent/services/events.py:52-71 | the same for host metrics |
| Events.EventService.RecordContainerSnapshot | src/oopsys_agent/services/events.py:73-97 | the same for a snapshot, with one row per container in order |
| Events.EventService.RecordContainerState | src/oopsys_agent/services/events.py:99-122 | the same for one container |
| Events.EventService.RecordAgentFault | src/oopsys_agent/services/events.py:124-137 | the same for an agent fault |
| Events.SubjectNamesEnvelope | src/oopsys_agent/services/events.py:31-34 | the subject parses back to the envelope's agent id and source |
| Events.EnvelopeSpelledOut | src/oopsys_agent/services/events.py:31-34 | version, agent, time and payload of the envelope, and for each kind of event the literal subject it goes under |
| Domain.RowsKeepEverythingElse | src/oopsys_agent/services/events.py:36-137 | a row determines its payload up to a container's ports and health |
| Domain.SnapshotRowsEqual | src/oopsys_agent/services/events.py:76-95 | two snapshots leave the same rows iff their containers agree up to ports and health |
| Scheduler.AgentScheduler.Lifespan | src/oopsys_agent/services/scheduler.py:40-110 | history, stream and fault attempts are those of the cycles begun; the host rows are those of the durable host commits; a client is left open iff start is cancelled with one built and not closed, or stop is while closing one that start or a cycle acquired |
| Scheduler.HostRowsOfCycles | src/oopsys_agent/services/scheduler.py:90-97 | whatever Docker and the faults do, the host rows of any cycles are those whose host commit became durable |
| Scheduler.AgentScheduler.MetricsLoop | src/oopsys_agent/services/scheduler.py:85-88 | the loop ends exactly with the first cycle that is cancelled in its course or in its sleep; rows, messages and fault attempts add up over the cycles |
| Scheduler.AgentScheduler.Guard | src/oopsys_agent/services/scheduler.py:61-74 | a fault attempt is made iff the cycle raises and logging that is not cancelled, and then history and stream gain the fault; only a cancellation gets out, and exactly when there is one |
| Scheduler.AgentScheduler.RecordFault | src/oopsys_agent/services/scheduler.py:76-83 | one attempt, whose own failure is contained, with its row iff durable and its message iff stored |
| Scheduler.AgentScheduler.CollectOnce | src/oopsys_agent/services/scheduler.py:90-110 | raises iff the host part fails or, with Docker available, the listing or the snapshot's commit raises; is cancelled iff an await it reaches is; rows and messages are those of the host and, with Docker available, of the containers |
| DockerMonitor.DockerMonitor.Connect | src/oopsys_agent/services/docker.py:92-106 | entered without a client it never leaves one unclosed and unheld, and holds one iff it was built and did not fail or its closing was cancelled; available implies held |
| DockerMonitor.DockerMonitor.Collect | src/oopsys_agent/services/docker.py:108-118 | the states of the readable containers, in order; a listing error goes through |
| DockerMonitor.KeptByPosition | src/oopsys_agent/services/docker.py:108-118 | the kept states are those of all readable containers and no other, each at the place given by the readable ones before it |
| DockerMonitor.DockerMonitor.Close | src/oopsys_agent/services/docker.py:156-163 | a client stays open iff one is held and its closing is cancelled |
| Tokens.ServiceRefinesSpec | src/oopsys_agent/services/tokens.py:38-95 | over every sequence of calls the hashed row answers as "current token or none" does, and keeps hash, creation time and label together |
| Tokens.VerifyIffInForce | src/oopsys_agent/services/tokens.py:81-85 | a token verifies iff some call installed it and none since revoked or replaced it |
| Tokens.AnswersFromHistory | src/oopsys_agent/services/tokens.py:42-95 | over every sequence of calls, each answer and each change of the row is told by which token the calls before put in force |
| Tokens.AgentIdIsConstant | src/oopsys_agent/services/tokens.py:42-53 | the agent id never changes once the row exists |
| Tokens.RefusalsChangeNothing | src/oopsys_agent/services/tokens.py:59-95 | a refused create and a mismatched reconcile change nothing; a reconciled token has no label |
| Tokens.TokenService.CreateToken | src/oopsys_agent/services/tokens.py:59-69 | row and result are those of the row machine |
| Tokens.TokenService.ReconcileEnvToken | src/oopsys_agent/services/tokens.py:87-95 | row and result are those of the row machine |
| Tokens.TokenService.RevokeToken | src/oopsys_agent/services/tokens.py:71-79 | row and result are those of the row machine |
| Tokens.TokenService.HasActiveToken | src/oopsys_agent/services/tokens.py:55-57 | true iff a token is in force |
| Tokens.TokenService.VerifyToken | src/oopsys_agent/services/tokens.py:81-85 | true iff the candidate is the current token |
| Messages.SubjectRoundTrip | src/oopsys_agent/domain/messages.py:11-12 | under any prefix the subject splits back into agent id and source |
| Messages.SubjectInjective | src/oopsys_agent/domain/messages.py:11-12 | different agents or sources have different subjects |
| Messages.FilterSelects | src/oopsys_agent/services/nats.py:43-60 | the filter selects exactly the subjects with two or more tokens below prefix.agents |
| Messages.PublishedSubjectsAreConsumed | src/oopsys_agent/services/nats.py:59-66 | every published subject is selected |
| Messages.DeclaringSubjectIsNotConsumed | src/oopsys_agent/services/nats.py:58 | the declaring subject is not |
| Messages.PatternsSpelledOut | src/oopsys_agent/services/nats.py:43-60 | the literal filter and the literal declaring subject |
| Ports.FormatPorts | src/oopsys_agent/services/docker.py:23-39 | the items are those of the entries in key order |
| Ports.PortsRoundTrip | src/oopsys_agent/services/docker.py:23-39 | reading the items gives back the map, wildcard hosts identified and bindings without host port dropped |
| Ports.BindingReadBack | src/oopsys_agent/services/docker.py:31-38 | every binding with a host port is read back under its port, its host as it was unless missing, empty, 0.0.0.0 or :: |
| Ports.UnboundReadBack | src/oopsys_agent/services/docker.py:26-33 | a port without bindings is read back with none; one whose bindings all lack a host port is not listed |
| Ports.PortsInKeyOrder | src/oopsys_agent/services/docker.py:25-39 | the items come in the order of their container ports |
| Ports.LessByFirstDifference | src/oopsys_agent/services/docker.py:25 | that order compares strings by their first difference, a proper beginning coming first |
| Ports.FormatIgnoresInsertionOrder | src/oopsys_agent/services/docker.py:25 | the list does not depend on the order in which the map was filled |
| Stats.CpuPercentIsTheShare | src/oopsys_agent/services/docker.py:42-53 | none exactly on a missing or null field of either sample, 0 on backward counters, else within 0.005 of the exact share, at most 100 per CPU, growing with the time used |
| Stats.CpuPercentOfNumbers | src/oopsys_agent/services/docker.py:42-53 | on the numbers of the samples alone: two decimals, 0 when a counter ran backward, else 100 times CPUs times time used over time passed to within half a hundredth, CPUs being the reported number, else the per-CPU list's length, else 1 |
| Stats.RoundNearest | src/oopsys_agent/services/docker.py:53 | rounding goes to the nearest value, ties to even |
| Stats.BlockIoHomomorphism | src/oopsys_agent/services/docker.py:77-83 | counters of concatenated lists add up, with the empty list neutral |
| Stats.BlockIoNoneIffEmpty | src/oopsys_agent/services/docker.py:81-83 | there are no counters exactly when there is no entry |
| Stats.BlockIoPermuted | src/oopsys_agent/services/docker.py:77-83 | counters do not depend on the order of entries |
| Stats.BlockIoOfOne | src/oopsys_agent/services/docker.py:78-80 | an entry counts for the direction its name spells in any letter case |
| Stats.BlockIoWithinTotal | src/oopsys_agent/services/docker.py:77-83 | with non-negative values, bytes read and written together never exceed the sum of all entries |

## Left out

- NATS, FastStream, httpx, aiodocker, SQLAlchemy and psutil themselves: they are the environment described above.
- Opening and closing a database session around a record call: a cancellation that lands there is not a separate case.
- Retention limits, `max_ack_pending` and batching of the consumer: the stream is unbounded and any number of handlers may run.
- Forwarder.OutageLogIsBounded: the bound is for handlers that run one after the other; interleaved handlers can each warn before the first has set its flag.
- Lifecycle.SafeAtEverySuspension: `start` itself is not cancelled; the application cancels only the retry task, through `close`.
- Stats.CpuPercentIsTheShare: exact rationals stand for IEEE floats; the upper bound and the growth are stated for a number of CPUs that is not negative.
- `_mem` and `_network`: sums and a quotient like those that are modelled.
- The HTTP routes, the command line, dependency injection, configuration and bootstrap: plumbing around the calls modelled here.
- `_parse_started_at` and the remaining fields that `_build_state` copies: decided by the `datetime` library and by Docker.
- The text of log entries: only which entry is written is kept, and only in the delivery handler.
