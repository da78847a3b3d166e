/** Recording an event: its rows are committed to history, then its envelope is enqueued. */
module Events {
  import opened Messages
  import opened Domain
  import opened Gateway

  /** How a commit ends. A cancelled one may or may not have become durable. */
  datatype CommitEnd = Commits | CommitRaises | CommitCancelled(durable: bool)

  predicate Durable(end: CommitEnd) {
    end.Commits? || (end.CommitCancelled? && end.durable)
  }

  /** How a coroutine ends: it returns, raises an `Exception`, or is cancelled. */
  datatype Ending = Returns | Raises | Cancelled

  /** The envelope is offered to the stream: the commit has returned and a broker is held. */
  predicate Offers(commit: CommitEnd, held: bool) {
    commit.Commits? && held
  }

  /** How the record call ends; that a publish failed shows in no exception. */
  function EndOf(commit: CommitEnd, held: bool, fate: PublishFate): Ending {
    match commit
    case CommitRaises => Raises
    case CommitCancelled(_) => Cancelled
    case Commits => if held && fate.Interrupted? then Cancelled else Returns
  }

  class Database {
    var rows: seq<Row>

    constructor ()
      ensures rows == []
    {
      rows := [];
    }
  }

  class Session {
    const database: Database
    var pending: seq<Row>

    constructor (database: Database)
      ensures this.database == database && pending == []
    {
      this.database, this.pending := database, [];
    }

    method Add(row: Row)
      modifies this
      ensures pending == old(pending) + [row]
    {
      pending := pending + [row];
    }

    /** All pending rows become durable, or none does. */
    method Commit(end: CommitEnd)
      modifies this, database
      ensures database.rows == old(database.rows) + if Durable(end) then old(pending) else []
      ensures pending == if Durable(end) then [] else old(pending)
    {
      if Durable(end) {
        database.rows := database.rows + pending;
        pending := [];
      }
    }
  }

  class EventService {
    const session: Session
    const gateway: NatsGateway
    const prefix: string

    constructor (session: Session, gateway: NatsGateway, prefix: string)
      ensures this.session == session && this.gateway == gateway && this.prefix == prefix
    {
      this.session, this.gateway, this.prefix := session, gateway, prefix;
    }

    /** History gains the rows of the payload exactly when the commit is durable. Only after it has
        returned is the envelope offered to the queue, and its fate there changes nothing else. */
    twostate predicate Records(payload: Payload, agentId: string, now: int,
                              commit: CommitEnd, fate: PublishFate, end: Ending)
      reads session, session.database, gateway, gateway.stream, gateway.runtime
    {
      var message := (BuildSubject(prefix, agentId, SourceOfPayload(payload)), Wrap(payload, agentId, now));
      var offered := Offers(commit, gateway.broker != null);
      && session.database.rows == old(session.database.rows)
         + (if Durable(commit) then old(session.pending) + Rows(payload) else [])
      && session.pending == (if Durable(commit) then [] else old(session.pending) + Rows(payload))
      && gateway.stream.messages == old(gateway.stream.messages) + (if offered && Stores(fate) then [message] else [])
      && gateway.runtime.queueConnected
         == (old(gateway.runtime.queueConnected) && (!offered || fate.Confirmed? || fate.Interrupted?))
      && end == EndOf(commit, gateway.broker != null, fate)
    }

    method Enqueue(agentId: string, source: Source, payload: Payload, now: int, fate: PublishFate) returns (end: Ending)
      modifies gateway.stream, gateway.runtime`queueConnected
      ensures gateway.stream.messages
           == old(gateway.stream.messages) + if gateway.broker != null && Stores(fate)
                then [(BuildSubject(prefix, agentId, source),
                       Envelope(SCHEMA_VERSION, agentId, source, now, payload))] else []
      ensures gateway.runtime.queueConnected
           == (old(gateway.runtime.queueConnected) && (gateway.broker == null || fate.Confirmed? || fate.Interrupted?))
      ensures end == if gateway.broker != null && fate.Interrupted? then Cancelled else Returns
    {
      var envelope := Envelope(SCHEMA_VERSION, agentId, source, now, payload);
      var subject := BuildSubject(prefix, agentId, source);
      var _, cancelled := gateway.Publish(subject, envelope, fate);
      end := if cancelled then Cancelled else Returns;
    }

    method RecordErrorReport(report: ErrorReport, agentId: string, now: int, commit: CommitEnd, fate: PublishFate)
      returns (end: Ending)
      modifies session, session.database, gateway.stream, gateway.runtime`queueConnected
      ensures Records(ReportPayload(report), agentId, now, commit, fate, end)
    {
      session.Add(ErrorReportRow(
        severity := report.severity, service := report.service, environment := report.environment,
        exceptionType := report.exceptionType, message := report.message, traceback := report.traceback,
        context := report.context, occurredAt := report.timestamp));
      session.Commit(commit);
      match commit
      case CommitRaises => end := Raises;
      case CommitCancelled(_) => end := Cancelled;
      case Commits => end := Enqueue(agentId, Projects, ReportPayload(report), now, fate);
    }

    method RecordServerMetrics(metrics: ServerMetrics, agentId: string, now: int, commit: CommitEnd, fate: PublishFate)
      returns (end: Ending)
      modifies session, session.database, gateway.stream, gateway.runtime`queueConnected
      ensures Records(MetricsPayload(metrics), agentId, now, commit, fate, end)
    {
      session.Add(ServerMetricRow(
        hostCpuPercent := metrics.cpuPercent, hostMemPercent := metrics.memPercent, memUsed := metrics.memUsed,
        memTotal := metrics.memTotal, netBytesSent := metrics.netBytesSent, netBytesRecv := metrics.netBytesRecv,
        load1 := metrics.load1, load5 := metrics.load5, load15 := metrics.load15,
        diskPercent := metrics.diskPercent, hostCapturedAt := metrics.capturedAt));
      session.Commit(commit);
      match commit
      case CommitRaises => end := Raises;
      case CommitCancelled(_) => end := Cancelled;
      case Commits => end := Enqueue(agentId, Server, MetricsPayload(metrics), now, fate);
    }

    /** One row per container; an empty snapshot is enqueued without leaving a row. */
    method RecordContainerSnapshot(snapshot: ContainerSnapshot, agentId: string, now: int,
                                   commit: CommitEnd, fate: PublishFate)
      returns (end: Ending)
      modifies session, session.database, gateway.stream, gateway.runtime`queueConnected
      ensures Records(SnapshotPayload(snapshot), agentId, now, commit, fate, end)
    {
      var states := snapshot.containers;
      for i := 0 to |states|
        invariant session.pending == old(session.pending) + StateRows(states)[..i]
        invariant session.database.rows == old(session.database.rows)
        modifies session
      {
        AddStateRow(states[i]);
      }
      assert StateRows(states)[..|states|] == Rows(SnapshotPayload(snapshot));
      session.Commit(commit);
      match commit
      case CommitRaises => end := Raises;
      case CommitCancelled(_) => end := Cancelled;
      case Commits => end := Enqueue(agentId, Docker, SnapshotPayload(snapshot), now, fate);
    }

    method AddStateRow(state: ContainerState)
      modifies session
      ensures session.pending == old(session.pending) + [StateRow(state)]
    {
      session.Add(ContainerStateRow(
        containerId := state.containerId, name := state.name, image := state.image, status := state.status,
        startedAt := state.startedAt, restarts := state.restarts, cpuPercent := state.cpuPercent,
        memPercent := state.memPercent, memUsage := state.memUsage, netRx := state.netRx, netTx := state.netTx,
        blkRead := state.blkRead, blkWrite := state.blkWrite, labels := state.labels, capturedAt := state.capturedAt));
    }

    method RecordContainerState(state: ContainerState, agentId: string, now: int, commit: CommitEnd, fate: PublishFate)
      returns (end: Ending)
      modifies session, session.database, gateway.stream, gateway.runtime`queueConnected
      ensures Records(StatePayload(state), agentId, now, commit, fate, end)
    {
      AddStateRow(state);
      session.Commit(commit);
      match commit
      case CommitRaises => end := Raises;
      case CommitCancelled(_) => end := Cancelled;
      case Commits => end := Enqueue(agentId, Docker, StatePayload(state), now, fate);
    }

    method RecordAgentFault(fault: AgentFault, agentId: string, now: int, commit: CommitEnd, fate: PublishFate)
      returns (end: Ending)
      modifies session, session.database, gateway.stream, gateway.runtime`queueConnected
      ensures Records(FaultPayload(fault), agentId, now, commit, fate, end)
    {
      session.Add(AgentFaultRow(
        component := fault.component, operation := fault.operation, faultType := fault.exceptionType,
        faultMessage := fault.message, faultTraceback := fault.traceback, faultSeverity := fault.severity,
        faultOccurredAt := fault.occurredAt));
      session.Commit(commit);
      match commit
      case CommitRaises => end := Raises;
      case CommitCancelled(_) => end := Cancelled;
      case Commits => end := Enqueue(agentId, Agent, FaultPayload(fault), now, fate);
    }
  }

  /** What a record call offers, spelled out: the envelope, and the subject it goes under. */
  lemma EnvelopeSpelledOut(prefix: string, payload: Payload, agentId: string, now: int)
    ensures var envelope := Wrap(payload, agentId, now);
            && envelope.schemaVersion == 1 && envelope.agentId == agentId
            && envelope.occurredAt == now && envelope.payload == payload
            && BuildSubject(prefix, agentId, envelope.source)
               == prefix + ".agents." + agentId
                  + match payload
                    case ReportPayload(_) => ".projects"
                    case MetricsPayload(_) => ".server"
                    case SnapshotPayload(_) => ".docker"
                    case StatePayload(_) => ".docker"
                    case FaultPayload(_) => ".agent"
  {
    var name := SourceValue(SourceOfPayload(payload));
    assert prefix + "." + "agents" + "." + agentId + "." + name == prefix + ".agents." + agentId + ("." + name);
  }

  /** The subject an envelope is published under names the envelope's own agent and source. */
  lemma SubjectNamesEnvelope(prefix: string, payload: Payload, agentId: string, now: int)
    requires DotFree(agentId)
    ensures var envelope := Wrap(payload, agentId, now);
            ParseSubject(BuildSubject(prefix, envelope.agentId, envelope.source))
            == [(agentId, SourceOfPayload(payload))]
  {
    SubjectRoundTrip(prefix, agentId, SourceOfPayload(payload));
  }
}
