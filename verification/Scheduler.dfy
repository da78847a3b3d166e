/** The monitoring loop: what a cycle does, which failures it contains, and how it ends. */
module Scheduler {
  import opened Messages
  import opened Domain
  import opened Gateway
  import opened Events
  import opened DockerMonitor

  /** The ends of everything one cycle may await, in any combination. */
  datatype CyclePlan = CyclePlan(
    metrics: Option<ServerMetrics>,   // None: reading the host raised
    hostCommit: CommitEnd, hostFate: PublishFate,
    connect: ConnectPlan,
    list: Ending, builds: seq<Build>,
    snapshotCommit: CommitEnd, snapshotFate: PublishFate, collectedLog: Ending,
    faultLog: Ending, fault: AgentFault, faultCommit: CommitEnd, faultFate: PublishFate, faultFailedLog: Ending,
    sleep: Ending, now: int)

  predicate RecordCancelled(commit: CommitEnd, fate: PublishFate) {
    commit.CommitCancelled? || fate.Interrupted?
  }

  /** Some await of the cycle is cancelled. */
  predicate AwaitCancelled(p: CyclePlan) {
    || RecordCancelled(p.hostCommit, p.hostFate)
    || p.connect.version.Cancelled? || p.connect.close.Cancelled? || p.connect.log.Cancelled?
    || p.list.Cancelled? || BuildCancelled in p.builds
    || RecordCancelled(p.snapshotCommit, p.snapshotFate) || p.collectedLog.Cancelled?
    || p.faultLog.Cancelled? || RecordCancelled(p.faultCommit, p.faultFate) || p.faultFailedLog.Cancelled?
    || p.sleep.Cancelled?
  }

  // ---- The rows of one kind ----

  function ServerRows(rows: seq<Row>): seq<Row> {
    if rows == [] then []
    else
      var last := rows[|rows| - 1];
      ServerRows(rows[..|rows| - 1]) + if last.ServerMetricRow? then [last] else []
  }

  lemma {:induction false} ServerRowsAppend(a: seq<Row>, b: seq<Row>)
    ensures ServerRows(a + b) == ServerRows(a) + ServerRows(b)
  {
    if b == [] {
      assert a + b == a;
    } else {
      ServerRowsAppend(a, b[..|b| - 1]);
      assert (a + b)[..|a + b| - 1] == a + b[..|b| - 1];
    }
  }

  lemma {:induction false} NoServerRows(rows: seq<Row>)
    requires forall i :: 0 <= i < |rows| ==> !rows[i].ServerMetricRow?
    ensures ServerRows(rows) == []
  {
    if rows == [] {
    } else {
      NoServerRows(rows[..|rows| - 1]);
    }
  }

  /** The host rows that a cycle leaves: one if its commit became durable, whatever Docker does. */
  function HostRows(p: CyclePlan): seq<Row> {
    if p.metrics.Some? && Durable(p.hostCommit) then [MetricsRow(p.metrics.value)] else []
  }

  /** The rows of the containers that could be read, if they get that far and the commit is durable. */
  function ContainerRows(p: CyclePlan): seq<Row> {
    if p.list.Returns? && BuildCancelled !in p.builds && Durable(p.snapshotCommit)
    then StateRows(Kept(p.builds)) else []
  }

  function FaultRows(p: CyclePlan): seq<Row> {
    if Durable(p.faultCommit) then [FaultRow(p.fault)] else []
  }

  // ---- How far a cycle gets; `held`: the gateway holds a broker, `available`: Docker was connected ----

  /** The cycle fails before it gets to Docker. */
  predicate HostFails(p: CyclePlan) {
    p.metrics.None? || p.hostCommit.CommitRaises?
  }

  predicate RecordEndsCancelled(commit: CommitEnd, fate: PublishFate, held: bool) {
    commit.CommitCancelled? || (commit.Commits? && held && fate.Interrupted?)
  }

  predicate ReachesDocker(p: CyclePlan, held: bool) {
    p.metrics.Some? && p.hostCommit.Commits? && !(held && p.hostFate.Interrupted?)
  }

  /** Docker is available, so that the cycle lists the containers. */
  predicate ReachesContainers(p: CyclePlan, available: bool, held: bool) {
    ReachesDocker(p, held) && (available || Connects(p.connect))
  }

  /** All containers are listed and read or skipped. */
  predicate ReachesSnapshot(p: CyclePlan, available: bool, held: bool) {
    ReachesContainers(p, available, held) && p.list.Returns? && BuildCancelled !in p.builds
  }

  predicate CycleRaises(p: CyclePlan, available: bool, held: bool) {
    || HostFails(p)
    || (ReachesContainers(p, available, held) && p.list.Raises?)
    || (ReachesSnapshot(p, available, held) && p.snapshotCommit.CommitRaises?)
  }

  predicate CycleCancelled(p: CyclePlan, available: bool, held: bool) {
    || (p.metrics.Some? && RecordEndsCancelled(p.hostCommit, p.hostFate, held))
    || (ReachesDocker(p, held) && !available && ConnectCancelled(p.connect))
    || (ReachesContainers(p, available, held) && (p.list.Cancelled? || (p.list.Returns? && BuildCancelled in p.builds)))
    || (ReachesSnapshot(p, available, held)
        && (RecordEndsCancelled(p.snapshotCommit, p.snapshotFate, held)
            || (p.snapshotCommit.Commits? && p.collectedLog.Cancelled?)))
  }

  /** The exception of the cycle is logged, and so its fault is to be recorded. */
  predicate FaultTried(p: CyclePlan, available: bool, held: bool) {
    CycleRaises(p, available, held) && !p.faultLog.Cancelled?
  }

  predicate FaultCancelled(p: CyclePlan, held: bool) {
    || RecordEndsCancelled(p.faultCommit, p.faultFate, held)
    || (p.faultCommit.CommitRaises? && p.faultFailedLog.Cancelled?)
  }

  predicate GuardCancelled(p: CyclePlan, available: bool, held: bool) {
    || CycleCancelled(p, available, held)
    || (CycleRaises(p, available, held) && (p.faultLog.Cancelled? || FaultCancelled(p, held)))
  }

  /** A cycle is only cancelled in an await of its own. */
  lemma CancelledByAnAwait(p: CyclePlan, available: bool, held: bool)
    requires GuardCancelled(p, available, held)
    ensures AwaitCancelled(p)
  {
  }

  /** A cycle that finds Docker unavailable ends with a client held and not closed. */
  predicate Acquires(p: CyclePlan, held: bool) {
    ReachesDocker(p, held) && LeavesClient(p.connect)
  }

  predicate SomeAcquires(plans: seq<CyclePlan>, held: bool) {
    plans != [] && (SomeAcquires(plans[..|plans| - 1], held) || Acquires(plans[|plans| - 1], held))
  }

  /** A cycle that finds Docker unavailable makes it available. */
  predicate Gains(p: CyclePlan, held: bool) {
    ReachesDocker(p, held) && Connects(p.connect)
  }

  /** Docker is available after these cycles. */
  predicate AvailableAfter(available: bool, plans: seq<CyclePlan>, held: bool) {
    if plans == [] then available
    else AvailableAfter(available, plans[..|plans| - 1], held) || Gains(plans[|plans| - 1], held)
  }

  /** The cycle, or the sleep after it, is cancelled. */
  predicate EndsLoop(available: bool, plans: seq<CyclePlan>, k: nat, held: bool)
    requires k < |plans|
  {
    GuardCancelled(plans[k], AvailableAfter(available, plans[..k], held), held) || plans[k].sleep.Cancelled?
  }

  // ---- What cycles leave behind ----

  function CycleRows(p: CyclePlan, available: bool, held: bool): seq<Row> {
    HostRows(p) + (if ReachesContainers(p, available, held) then ContainerRows(p) else [])
    + (if FaultTried(p, available, held) then FaultRows(p) else [])
  }

  function AllRows(available: bool, plans: seq<CyclePlan>, held: bool): seq<Row> {
    if plans == [] then []
    else
      var init := plans[..|plans| - 1];
      AllRows(available, init, held) + CycleRows(plans[|plans| - 1], AvailableAfter(available, init, held), held)
  }

  function Faults(available: bool, plans: seq<CyclePlan>, held: bool): nat {
    if plans == [] then 0
    else
      var init := plans[..|plans| - 1];
      Faults(available, init, held)
      + if FaultTried(plans[|plans| - 1], AvailableAfter(available, init, held), held) then 1 else 0
  }

  function AllHostRows(plans: seq<CyclePlan>): seq<Row> {
    if plans == [] then [] else AllHostRows(plans[..|plans| - 1]) + HostRows(plans[|plans| - 1])
  }

  lemma HostRowsAreServerRows(p: CyclePlan)
    ensures ServerRows(HostRows(p)) == HostRows(p)
  {
    if HostRows(p) == [] {
    } else {
      assert HostRows(p)[..0] == [];
      assert HostRows(p) == [HostRows(p)[0]];
    }
  }

  lemma OtherRowsAdded(rows: seq<Row>, containers: seq<Row>, faults: seq<Row>)
    requires ServerRows(containers) == [] && ServerRows(faults) == []
    ensures ServerRows(rows + containers + faults) == ServerRows(rows)
  {
    ServerRowsAppend(rows, containers);
    ServerRowsAppend(rows + containers, faults);
  }

  lemma CycleServerRows(p: CyclePlan, available: bool, held: bool)
    ensures ServerRows(CycleRows(p, available, held)) == HostRows(p)
  {
    var containers := if ReachesContainers(p, available, held) then ContainerRows(p) else [];
    var faults := if FaultTried(p, available, held) then FaultRows(p) else [];
    NoServerRows(containers);
    NoServerRows(faults);
    HostRowsAreServerRows(p);
    OtherRowsAdded(HostRows(p), containers, faults);
  }

  /** Whatever Docker does, the host rows are those of the cycles whose host commit became durable. */
  lemma {:induction false} HostRowsOfCycles(available: bool, plans: seq<CyclePlan>, held: bool)
    ensures ServerRows(AllRows(available, plans, held)) == AllHostRows(plans)
  {
    if plans == [] {
    } else {
      var init, last := plans[..|plans| - 1], plans[|plans| - 1];
      HostRowsOfCycles(available, init, held);
      CycleServerRows(last, AvailableAfter(available, init, held), held);
      ServerRowsAppend(AllRows(available, init, held), CycleRows(last, AvailableAfter(available, init, held), held));
    }
  }

  class AgentScheduler {
    const database: Database
    const gateway: NatsGateway
    const docker: DockerMonitor
    const agentId: string
    const prefix: string
    var lastMetricsAt: Option<int>
    var mirrorAvailable: bool
    var mirrorReason: Option<string>
    ghost var faultAttempts: nat

    constructor (database: Database, gateway: NatsGateway, docker: DockerMonitor, agentId: string, prefix: string)
      ensures this.database == database && this.gateway == gateway && this.docker == docker
      ensures faultAttempts == 0
    {
      this.database, this.gateway, this.docker, this.agentId, this.prefix := database, gateway, docker, agentId, prefix;
      lastMetricsAt, mirrorAvailable, mirrorReason, faultAttempts := None, false, None, 0;
    }

    ghost predicate Mirrors()
      reads this, docker
    {
      mirrorAvailable == docker.available && mirrorReason == docker.reason
    }

    ghost predicate Held()
      reads gateway
    {
      gateway.broker != null
    }

    /** A session of its own for one record call. */
    method NewEvents() returns (events: EventService)
      ensures fresh(events) && fresh(events.session) && events.session.pending == []
      ensures events.session.database == database && events.gateway == gateway && events.prefix == prefix
    {
      var session := new Session(database);
      events := new EventService(session, gateway, prefix);
    }

    /** What one record call of this agent adds to the stream. */
    function Offered(held: bool, payload: Payload, now: int,
                     commit: CommitEnd, fate: PublishFate): seq<(string, Envelope)> {
      if commit.Commits? && held && Stores(fate)
      then [(BuildSubject(prefix, agentId, SourceOfPayload(payload)), Wrap(payload, agentId, now))] else []
    }

    /** What a cycle adds to the stream: the host, then the containers... */
    function CycleSent(p: CyclePlan, available: bool, held: bool): seq<(string, Envelope)> {
      (if p.metrics.None? then []
       else Offered(held, MetricsPayload(p.metrics.value), p.now, p.hostCommit, p.hostFate))
      + (if !ReachesSnapshot(p, available, held) then []
         else Offered(held, SnapshotPayload(ContainerSnapshot(p.now, Kept(p.builds))),
                      p.now, p.snapshotCommit, p.snapshotFate))
    }

    /** ...and the fault, if the cycle fails. */
    function FaultSent(p: CyclePlan, available: bool, held: bool): seq<(string, Envelope)> {
      if FaultTried(p, available, held)
      then Offered(held, FaultPayload(p.fault), p.now, p.faultCommit, p.faultFate) else []
    }

    function AllSent(available: bool, plans: seq<CyclePlan>, held: bool): seq<(string, Envelope)> {
      if plans == [] then []
      else
        var init, last := plans[..|plans| - 1], plans[|plans| - 1];
        var before := AvailableAfter(available, init, held);
        AllSent(available, init, held) + (CycleSent(last, before, held) + FaultSent(last, before, held))
    }

    /** One attempt to record a fault; its own failure is only logged. */
    method RecordFault(p: CyclePlan) returns (end: Ending)
      modifies this`faultAttempts, database, gateway.stream, gateway.runtime`queueConnected
      ensures faultAttempts == old(faultAttempts) + 1
      ensures end == if FaultCancelled(p, Held()) then Cancelled else Returns
      ensures database.rows == old(database.rows) + FaultRows(p)
      ensures gateway.stream.messages
           == old(gateway.stream.messages) + Offered(Held(), FaultPayload(p.fault), p.now, p.faultCommit, p.faultFate)
    {
      faultAttempts := faultAttempts + 1;
      var events := NewEvents();
      end := events.RecordAgentFault(p.fault, agentId, p.now, p.faultCommit, p.faultFate);
      if end.Raises? {
        end := if p.faultFailedLog.Cancelled? then Cancelled else Returns;
      }
    }

    /** It raises and is cancelled exactly where one of its awaits is; rows and messages are those of
        the host, then those of the containers when Docker is available. */
    method CollectOnce(p: CyclePlan) returns (end: Ending)
      requires docker.Settled() && Mirrors()
      modifies this`lastMetricsAt, this`mirrorAvailable, this`mirrorReason
      modifies docker, docker.client, database, gateway.stream, gateway.runtime`queueConnected
      ensures docker.Owned() && docker.made >= old(docker.made) && fresh(docker.made - old(docker.made))
      ensures !end.Cancelled? ==> docker.Settled() && Mirrors()
      ensures end.Raises? <==> CycleRaises(p, old(docker.available), Held())
      ensures end.Cancelled? <==> CycleCancelled(p, old(docker.available), Held())
      ensures docker.available == (old(docker.available) || Gains(p, Held()))
      ensures database.rows
           == old(database.rows) + HostRows(p)
              + if ReachesContainers(p, old(docker.available), Held()) then ContainerRows(p) else []
      ensures gateway.stream.messages == old(gateway.stream.messages) + CycleSent(p, old(docker.available), Held())
      ensures lastMetricsAt == if ReachesDocker(p, Held()) then Some(p.now) else old(lastMetricsAt)
      ensures docker.client != null <==> old(docker.client) != null || Acquires(p, Held())
    {
      end := CollectHost(p);
      if !end.Returns? {
        return;
      }
      lastMetricsAt := Some(p.now);
      end := RefreshDocker(p);
      if end.Returns? && docker.available {
        end := CollectContainers(p);
      }
    }

    method CollectHost(p: CyclePlan) returns (end: Ending)
      modifies database, gateway.stream, gateway.runtime`queueConnected
      ensures end.Raises? <==> HostFails(p)
      ensures end.Returns? <==> ReachesDocker(p, Held())
      ensures database.rows == old(database.rows) + HostRows(p)
      ensures gateway.stream.messages == old(gateway.stream.messages) +
                if p.metrics.None? then []
                else Offered(Held(), MetricsPayload(p.metrics.value), p.now, p.hostCommit, p.hostFate)
    {
      if p.metrics.None? {
        return Raises;
      }
      var events := NewEvents();
      end := events.RecordServerMetrics(p.metrics.value, agentId, p.now, p.hostCommit, p.hostFate);
      assert [] + Rows(MetricsPayload(p.metrics.value)) == [MetricsRow(p.metrics.value)];
    }

    /** Connects only while Docker is not available, and then mirrors its status. */
    method RefreshDocker(p: CyclePlan) returns (end: Ending)
      requires docker.Settled()
      modifies this`mirrorAvailable, this`mirrorReason, docker, docker.client
      ensures docker.Owned() && docker.made >= old(docker.made) && fresh(docker.made - old(docker.made))
      ensures old(Mirrors()) && !end.Cancelled? ==> Mirrors()
      ensures !end.Raises? && (end.Returns? ==> docker.Settled())
      ensures end.Cancelled? <==> !old(docker.available) && ConnectCancelled(p.connect)
      ensures docker.available == (old(docker.available) || Connects(p.connect))
      ensures docker.client != null <==> old(docker.client) != null || LeavesClient(p.connect)
    {
      end := Returns;
      if !docker.available {
        var connected;
        end, connected := docker.Connect(p.connect);
        if end.Cancelled? {
          return;
        }
      }
      mirrorAvailable, mirrorReason := docker.available, docker.reason;
    }

    method CollectContainers(p: CyclePlan) returns (end: Ending)
      requires docker.client != null
      modifies database, gateway.stream, gateway.runtime`queueConnected
      ensures end.Raises? <==>
                p.list.Raises? || (p.list.Returns? && BuildCancelled !in p.builds && p.snapshotCommit.CommitRaises?)
      ensures end.Cancelled? <==>
                || p.list.Cancelled?
                || (p.list.Returns? && BuildCancelled in p.builds)
                || (p.list.Returns? && RecordEndsCancelled(p.snapshotCommit, p.snapshotFate, Held()))
                || (p.list.Returns? && p.snapshotCommit.Commits? && p.collectedLog.Cancelled?)
      ensures database.rows == old(database.rows) + ContainerRows(p)
      ensures gateway.stream.messages == old(gateway.stream.messages) +
                if !p.list.Returns? || BuildCancelled in p.builds then []
                else Offered(Held(), SnapshotPayload(ContainerSnapshot(p.now, Kept(p.builds))),
                             p.now, p.snapshotCommit, p.snapshotFate)
    {
      var states;
      end, states := docker.Collect(p.list, p.builds);
      if !end.Returns? {
        return;
      }
      var events := NewEvents();
      end := events.RecordContainerSnapshot(ContainerSnapshot(p.now, states), agentId,
                                            p.now, p.snapshotCommit, p.snapshotFate);
      assert [] + StateRows(states) == StateRows(states);
      if end.Returns? && p.collectedLog.Cancelled? {
        end := Cancelled;
      }
    }

    /** One guarded cycle: an exception becomes one attempt to record a fault, unless logging it is
        cancelled; a cancellation goes through, and nothing else comes out. */
    method Guard(p: CyclePlan) returns (end: Ending)
      requires docker.Settled() && Mirrors()
      modifies this, docker, docker.client, database, gateway.stream, gateway.runtime`queueConnected
      ensures docker.Owned() && docker.made >= old(docker.made) && fresh(docker.made - old(docker.made))
      ensures end == if GuardCancelled(p, old(docker.available), Held()) then Cancelled else Returns
      ensures end.Returns? ==> docker.Settled() && Mirrors()
      ensures faultAttempts == old(faultAttempts) + if FaultTried(p, old(docker.available), Held()) then 1 else 0
      ensures docker.available == (old(docker.available) || Gains(p, Held()))
      ensures database.rows == old(database.rows) + CycleRows(p, old(docker.available), Held())
      ensures gateway.stream.messages
           == old(gateway.stream.messages)
              + (CycleSent(p, old(docker.available), Held()) + FaultSent(p, old(docker.available), Held()))
      ensures docker.client != null <==> old(docker.client) != null || Acquires(p, Held())
    {
      hide CycleRaises, CycleCancelled, CycleSent, ReachesContainers, FaultCancelled, Gains, Acquires;
      hide HostRows, ContainerRows, FaultRows, Offered;
      end := CollectOnce(p);
      if end.Raises? {
        if p.faultLog.Cancelled? {
          end := Cancelled;
        } else {
          end := RecordFault(p);
        }
      }
    }

    /** What the cycles `plans` come to: the availability of Docker, and what they have left behind. */
    predicate Tallied(start: bool, plans: seq<CyclePlan>, held: bool, available: bool, rows: seq<Row>,
                      sent: seq<(string, Envelope)>, faults: nat, acquired: bool) {
      && available == AvailableAfter(start, plans, held)
      && rows == AllRows(start, plans, held) && sent == AllSent(start, plans, held)
      && faults == Faults(start, plans, held) && acquired == SomeAcquires(plans, held)
    }

    lemma TallyNone(start: bool, held: bool)
      ensures Tallied(start, [], held, start, [], [], 0, false) && AllHostRows([]) == []
    {
    }

    lemma TallyNext(start: bool, plans: seq<CyclePlan>, k: nat, held: bool, available: bool, rows: seq<Row>,
                    sent: seq<(string, Envelope)>, faults: nat, acquired: bool)
      requires k < |plans| && Tallied(start, plans[..k], held, available, rows, sent, faults, acquired)
      ensures var p := plans[k];
              Tallied(start, plans[..k + 1], held, available || Gains(p, held),
                      rows + CycleRows(p, available, held),
                      sent + (CycleSent(p, available, held) + FaultSent(p, available, held)),
                      faults + (if FaultTried(p, available, held) then 1 else 0),
                      acquired || Acquires(p, held))
      ensures EndsLoop(start, plans, k, held) <==>
                GuardCancelled(plans[k], available, held) || plans[k].sleep.Cancelled?
    {
      hide CycleRows, CycleSent, FaultSent, FaultTried, GuardCancelled, Gains, Acquires;
      assert plans[..k + 1][..k] == plans[..k];
    }

    /** The loop. `plans` are the cycles until the observation stops; `cycles` of them are begun. It ends
        early exactly with the first cycle that is cancelled, in its course or in the sleep after it. */
    method MetricsLoop(plans: seq<CyclePlan>) returns (cancelled: bool, cycles: nat)
      requires docker.Settled() && Mirrors()
      modifies this, docker, docker.made, database, gateway.stream, gateway.runtime`queueConnected
      ensures docker.Owned() && docker.made >= old(docker.made) && fresh(docker.made - old(docker.made))
      ensures cycles <= |plans| && (!cancelled ==> cycles == |plans| && docker.Settled() && Mirrors())
      ensures cancelled ==> cycles > 0 && EndsLoop(old(docker.available), plans, cycles - 1, Held())
      ensures forall k :: 0 <= k < (if cancelled then cycles - 1 else cycles) ==>
                !EndsLoop(old(docker.available), plans, k, Held())
      ensures faultAttempts == old(faultAttempts) + Faults(old(docker.available), plans[..cycles], Held())
      ensures database.rows == old(database.rows) + AllRows(old(docker.available), plans[..cycles], Held())
      ensures gateway.stream.messages
           == old(gateway.stream.messages) + AllSent(old(docker.available), plans[..cycles], Held())
      ensures docker.client != null <==> old(docker.client) != null || SomeAcquires(plans[..cycles], Held())
    {
      hide CycleRows, CycleSent, FaultSent, FaultTried, GuardCancelled, Gains, Acquires, EndsLoop;
      hide AllRows, AllSent, Faults, AvailableAfter, SomeAcquires;
      cancelled, cycles := false, 0;
      ghost var available, held := docker.available, Held();
      ghost var rows, sent, faults, acquired := [], [], 0, false;
      TallyNone(available, held);
      assert plans[..0] == [];
      while cycles < |plans| && !cancelled
        invariant cycles <= |plans| && held == Held()
        invariant docker.Owned() && docker.made >= old(docker.made) && fresh(docker.made - old(docker.made))
        invariant !cancelled ==> docker.Settled() && Mirrors()
        invariant cancelled ==> cycles > 0 && EndsLoop(available, plans, cycles - 1, held)
        invariant forall k :: 0 <= k < (if cancelled then cycles - 1 else cycles) ==>
                    !EndsLoop(available, plans, k, held)
        invariant faultAttempts == old(faultAttempts) + faults
        invariant database.rows == old(database.rows) + rows
        invariant gateway.stream.messages == old(gateway.stream.messages) + sent
        invariant docker.client != null <==> old(docker.client) != null || acquired
        invariant Tallied(available, plans[..cycles], held, docker.available, rows, sent, faults, acquired)
        decreases |plans| - cycles
      {
        var p := plans[cycles];
        ghost var before := docker.available;
        TallyNext(available, plans, cycles, held, before, rows, sent, faults, acquired);
        var end := Guard(p);
        cancelled := end.Cancelled? || p.sleep.Cancelled?;
        cycles := cycles + 1;
        rows := rows + CycleRows(p, before, held);
        sent := sent + (CycleSent(p, before, held) + FaultSent(p, before, held));
        faults := faults + if FaultTried(p, before, held) then 1 else 0;
        acquired := acquired || Acquires(p, held);
      }
    }

    method Start(connect: ConnectPlan) returns (end: Ending)
      requires docker.Settled() && docker.client == null
      modifies this`mirrorAvailable, this`mirrorReason, docker, docker.client
      ensures docker.Owned() && docker.made >= old(docker.made) && fresh(docker.made - old(docker.made))
      ensures end.Returns? ==> docker.Settled() && Mirrors()
      ensures !end.Raises? && (end.Cancelled? <==> ConnectCancelled(connect))
      ensures docker.available == Connects(connect) && (docker.client != null <==> LeavesClient(connect))
    {
      var connected;
      end, connected := docker.Connect(connect);
      if end.Returns? {
        mirrorAvailable, mirrorReason := docker.available, docker.reason;
      }
    }

    /** The tasks are cancelled and awaited before; then the client is closed. */
    method Stop(close: Ending) returns (end: Ending)
      modifies docker`client, docker.client
      ensures old(docker.Owned()) && !close.Cancelled? ==>
                end.Returns? && docker.client == null && forall c :: c in docker.made ==> c.closed
      ensures old(docker.Owned()) ==> (docker.SomeOpen() <==> old(docker.client) != null && close.Cancelled?)
    {
      end := docker.Close(close);
    }

    /** A whole life of the scheduler, with any failures in any cycle and a cancellation anywhere,
        mid-connect included: history and stream hold what its cycles record, the host rows are
        exactly those of the cycles whose host commit became durable, and a client is left unclosed
        exactly when `start` is cancelled while it asks for the version or closes a client that
        failed, or when `stop` is cancelled while it closes one that `start` or a cycle acquired. */
    method Lifespan(connect: ConnectPlan, plans: seq<CyclePlan>, close: Ending)
      returns (started: bool, cycles: nat)
      requires docker.Settled() && docker.client == null && docker.made == {}
      modifies this, docker, docker.made, database, gateway.stream, gateway.runtime`queueConnected
      ensures started <==> !ConnectCancelled(connect)
      ensures cycles <= |plans| && (!started ==> cycles == 0)
      ensures started && !close.Cancelled? ==> docker.client == null && forall c :: c in docker.made ==> c.closed
      ensures docker.SomeOpen() <==>
                if !started then LeavesClient(connect)
                else
                  && close.Cancelled?
                  && (LeavesClient(connect) || SomeAcquires(plans[..cycles], Held()))
      ensures started && cycles < |plans| ==> cycles > 0 && EndsLoop(Connects(connect), plans, cycles - 1, Held())
      ensures forall k :: 0 <= k < cycles - 1 ==> !EndsLoop(Connects(connect), plans, k, Held())
      ensures database.rows == old(database.rows) + AllRows(Connects(connect), plans[..cycles], Held())
      ensures ServerRows(database.rows) == ServerRows(old(database.rows)) + AllHostRows(plans[..cycles])
      ensures gateway.stream.messages
           == old(gateway.stream.messages) + AllSent(Connects(connect), plans[..cycles], Held())
      ensures faultAttempts == old(faultAttempts) + Faults(Connects(connect), plans[..cycles], Held())
    {
      hide AllRows, AllSent, AllHostRows, Faults, EndsLoop, SomeAcquires;
      TallyNone(Connects(connect), Held());
      assert plans[..0] == [];
      cycles := 0;
      var end := Start(connect);
      started := end.Returns?;
      if started {
        var cancelled;
        cancelled, cycles := MetricsLoop(plans);
        end := Stop(close);
      } else {
        assert docker.client != null ==> docker.client in docker.made;
      }
      HostRowsOfCycles(Connects(connect), plans[..cycles], Held());
      ServerRowsAppend(old(database.rows), AllRows(Connects(connect), plans[..cycles], Held()));
    }
  }
}
