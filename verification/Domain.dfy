/** The events the agent records, the history rows they become and the envelopes they travel in.
    Timestamps are integers, measured ratios are reals, JSON objects are string maps. */
module Domain {
  import opened Messages

  datatype Option<T> = None | Some(value: T)

  datatype Severity = Error | Critical

  datatype ErrorReport = ErrorReport(
    severity: Severity, service: string, environment: string, exceptionType: string,
    message: string, traceback: string, timestamp: int, context: map<string, string>)

  datatype ServerMetrics = ServerMetrics(
    cpuPercent: real, memPercent: real, memUsed: int, memTotal: int,
    netBytesSent: int, netBytesRecv: int, load1: real, load5: real, load15: real,
    diskPercent: Option<real>, capturedAt: int)

  datatype ContainerState = ContainerState(
    containerId: string, name: string, image: string, status: string,
    startedAt: Option<int>, restarts: int, cpuPercent: Option<real>, memPercent: Option<real>,
    memUsage: Option<int>, netRx: Option<int>, netTx: Option<int>, blkRead: Option<int>, blkWrite: Option<int>,
    labels: map<string, string>, ports: seq<string>, health: Option<string>, capturedAt: int)

  datatype ContainerSnapshot = ContainerSnapshot(capturedAt: int, containers: seq<ContainerState>)

  datatype AgentFault = AgentFault(
    component: string, operation: string, exceptionType: string, message: string,
    traceback: string, severity: Severity, occurredAt: int)

  datatype Payload =
    | ReportPayload(report: ErrorReport)
    | MetricsPayload(metrics: ServerMetrics)
    | SnapshotPayload(snapshot: ContainerSnapshot)
    | StatePayload(state: ContainerState)
    | FaultPayload(fault: AgentFault)

  datatype Envelope = Envelope(schemaVersion: int, agentId: string, source: Source, occurredAt: int, payload: Payload)

  const SCHEMA_VERSION := 1

  function SourceOfPayload(payload: Payload): Source {
    match payload
    case ReportPayload(_) => Projects
    case MetricsPayload(_) => Server
    case SnapshotPayload(_) => Docker
    case StatePayload(_) => Docker
    case FaultPayload(_) => Agent
  }

  function Wrap(payload: Payload, agentId: string, now: int): Envelope {
    Envelope(SCHEMA_VERSION, agentId, SourceOfPayload(payload), now, payload)
  }

  // ---- History rows; the columns the database fills in itself are not part of them ----

  datatype Row =
    | ErrorReportRow(
        severity: Severity, service: string, environment: string, exceptionType: string,
        message: string, traceback: string, context: map<string, string>, occurredAt: int)
    | ServerMetricRow(
        hostCpuPercent: real, hostMemPercent: real, memUsed: int, memTotal: int,
        netBytesSent: int, netBytesRecv: int, load1: real, load5: real, load15: real,
        diskPercent: Option<real>, hostCapturedAt: int)
    | ContainerStateRow(
        containerId: string, name: string, image: string, status: string,
        startedAt: Option<int>, restarts: int, cpuPercent: Option<real>, memPercent: Option<real>,
        memUsage: Option<int>, netRx: Option<int>, netTx: Option<int>, blkRead: Option<int>, blkWrite: Option<int>,
        labels: map<string, string>, capturedAt: int)
    | AgentFaultRow(
        component: string, operation: string, faultType: string, faultMessage: string,
        faultTraceback: string, faultSeverity: Severity, faultOccurredAt: int)

  function ReportRow(r: ErrorReport): Row {
    ErrorReportRow(r.severity, r.service, r.environment, r.exceptionType,
                   r.message, r.traceback, r.context, r.timestamp)
  }

  function MetricsRow(m: ServerMetrics): Row {
    ServerMetricRow(m.cpuPercent, m.memPercent, m.memUsed, m.memTotal, m.netBytesSent, m.netBytesRecv,
                    m.load1, m.load5, m.load15, m.diskPercent, m.capturedAt)
  }

  function StateRow(s: ContainerState): Row {
    ContainerStateRow(s.containerId, s.name, s.image, s.status, s.startedAt, s.restarts, s.cpuPercent, s.memPercent,
                      s.memUsage, s.netRx, s.netTx, s.blkRead, s.blkWrite, s.labels, s.capturedAt)
  }

  function FaultRow(f: AgentFault): Row {
    AgentFaultRow(f.component, f.operation, f.exceptionType, f.message, f.traceback, f.severity, f.occurredAt)
  }

  function StateRows(states: seq<ContainerState>): seq<Row> {
    seq(|states|, i requires 0 <= i < |states| => StateRow(states[i]))
  }

  /** The rows that history keeps of an event. */
  function Rows(payload: Payload): seq<Row> {
    match payload
    case ReportPayload(r) => [ReportRow(r)]
    case MetricsPayload(m) => [MetricsRow(m)]
    case SnapshotPayload(s) => StateRows(s.containers)
    case StatePayload(s) => [StateRow(s)]
    case FaultPayload(f) => [FaultRow(f)]
  }

  // ---- What a row forgets ----

  /** Rebuilds a payload from one row and the columns that have no row counterpart. */
  function Restore(row: Row, ports: seq<string>, health: Option<string>): Payload {
    match row
    case ErrorReportRow(severity, service, environment, exceptionType, message, traceback, context, occurredAt) =>
      ReportPayload(ErrorReport(
        severity := severity, service := service, environment := environment, exceptionType := exceptionType,
        message := message, traceback := traceback, timestamp := occurredAt, context := context))
    case ServerMetricRow(cpu, mem, used, total, sent, recv, load1, load5, load15, disk, capturedAt) =>
      MetricsPayload(ServerMetrics(
        cpuPercent := cpu, memPercent := mem, memUsed := used, memTotal := total, netBytesSent := sent,
        netBytesRecv := recv, load1 := load1, load5 := load5, load15 := load15, diskPercent := disk,
        capturedAt := capturedAt))
    case ContainerStateRow(id, name, image, status, startedAt, restarts, cpu, mem, usage, rx, tx, rd, wr, labels, at) =>
      StatePayload(ContainerState(
        containerId := id, name := name, image := image, status := status, startedAt := startedAt,
        restarts := restarts, cpuPercent := cpu, memPercent := mem, memUsage := usage, netRx := rx, netTx := tx,
        blkRead := rd, blkWrite := wr, labels := labels, ports := ports, health := health, capturedAt := at))
    case AgentFaultRow(component, operation, exceptionType, message, traceback, severity, occurredAt) =>
      FaultPayload(AgentFault(
        component := component, operation := operation, exceptionType := exceptionType, message := message,
        traceback := traceback, severity := severity, occurredAt := occurredAt))
  }

  predicate SameButPortsAndHealth(a: ContainerState, b: ContainerState) {
    a == b.(ports := a.ports, health := a.health)
  }

  /** One row per event, or one per container of a snapshot, and nothing but `ports` and
      `health` of a container is lost in it. */
  lemma RowsKeepEverythingElse(payload: Payload)
    ensures payload.SnapshotPayload? ==>
              && |Rows(payload)| == |payload.snapshot.containers|
              && forall i :: 0 <= i < |Rows(payload)| ==>
                   var c := payload.snapshot.containers[i];
                   Restore(Rows(payload)[i], c.ports, c.health) == StatePayload(c)
    ensures payload.StatePayload? ==>
              |Rows(payload)| == 1 && Restore(Rows(payload)[0], payload.state.ports, payload.state.health) == payload
    ensures !payload.SnapshotPayload? && !payload.StatePayload? ==>
              |Rows(payload)| == 1 && Restore(Rows(payload)[0], [], None) == payload
  {
  }

  /** Two snapshots leave the same rows exactly when their containers agree up to ports and
      health; the capture time of the snapshot itself is in no row. */
  lemma SnapshotRowsEqual(a: ContainerSnapshot, b: ContainerSnapshot)
    ensures Rows(SnapshotPayload(a)) == Rows(SnapshotPayload(b))
       <==> |a.containers| == |b.containers|
            && forall i :: 0 <= i < |a.containers| ==> SameButPortsAndHealth(a.containers[i], b.containers[i])
  {
    var ra, rb := StateRows(a.containers), StateRows(b.containers);
    if ra == rb {
      assert |a.containers| == |ra| == |rb| == |b.containers|;
      forall i | 0 <= i < |ra|
        ensures SameButPortsAndHealth(a.containers[i], b.containers[i])
      {
        assert ra[i] == StateRow(a.containers[i]) && rb[i] == StateRow(b.containers[i]);
      }
    }
  }
}
