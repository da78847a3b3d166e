/** The connection to the Docker daemon and who holds its client.

    Every await takes its end from the caller: it returns, raises, or is cancelled. */
module DockerMonitor {
  import opened Domain
  import opened Events

  class DockerClient {
    var closed: bool

    constructor ()
      ensures !closed
    {
      closed := false;
    }
  }

  /** How one connect goes: whether the client can be built, then the awaits in their order. */
  datatype ConnectPlan = ConnectPlan(builds: bool, version: Ending, close: Ending, log: Ending, error: string)

  predicate Connects(plan: ConnectPlan) {
    plan.builds && plan.version.Returns?
  }

  /** Asking for the version, closing the failed client or logging the failure is cancelled. */
  predicate ConnectCancelled(plan: ConnectPlan) {
    if plan.builds && !plan.version.Raises? then plan.version.Cancelled?
    else (plan.builds && plan.close.Cancelled?) || plan.log.Cancelled?
  }

  /** A connect that finds no client ends with one held and not closed. */
  predicate LeavesClient(plan: ConnectPlan) {
    plan.builds && (!plan.version.Raises? || plan.close.Cancelled?)
  }

  /** How building the state of one container ends. */
  datatype Build = Built(state: ContainerState) | BuildRaises | BuildCancelled

  function Kept(builds: seq<Build>): seq<ContainerState> {
    if builds == [] then []
    else
      var last := builds[|builds| - 1];
      Kept(builds[..|builds| - 1]) + if last.Built? then [last.state] else []
  }

  /** How many of the first containers could be read. */
  function Readable(builds: seq<Build>): nat {
    if builds == [] then 0
    else Readable(builds[..|builds| - 1]) + if builds[|builds| - 1].Built? then 1 else 0
  }

  /** Every container that could be read is kept, at the place given by those before it, and no other. */
  lemma {:induction false} KeptByPosition(builds: seq<Build>)
    ensures |Kept(builds)| == Readable(builds)
    ensures forall i :: 0 <= i < |builds| && builds[i].Built? ==>
              Readable(builds[..i]) < |Kept(builds)| && Kept(builds)[Readable(builds[..i])] == builds[i].state
  {
    if builds == [] {
    } else {
      var init := builds[..|builds| - 1];
      KeptByPosition(init);
      forall i | 0 <= i < |builds| && builds[i].Built?
        ensures Readable(builds[..i]) < |Kept(builds)| && Kept(builds)[Readable(builds[..i])] == builds[i].state
      {
        if i < |init| {
          assert builds[..i] == init[..i] && builds[i] == init[i];
        }
      }
    }
  }

  class DockerMonitor {
    var client: DockerClient?
    var available: bool
    var reason: Option<string>
    ghost var made: set<DockerClient>

    /** Every client ever made is closed, or is the one held; available means held, with no reason. */
    ghost predicate Owned()
      reads this, made
    {
      && (client != null ==> client in made && !client.closed)
      && (forall c :: c in made ==> c.closed || c == client)
      && (available ==> client != null && reason == None)
    }

    ghost predicate SomeOpen()
      reads this, made
    {
      exists c :: c in made && !c.closed
    }

    /** What also holds whenever no connect is under way. */
    ghost predicate Settled()
      reads this, made
    {
      Owned() && (client != null ==> available)
    }

    constructor ()
      ensures Settled() && client == null && !available && reason == None && made == {}
    {
      client, available, reason, made := null, false, None, {};
    }

    /** The held client is given up unless closing it is cancelled; an exception is suppressed. */
    method SafeClose(close: Ending) returns (end: Ending)
      modifies this`client, client
      ensures old(client) == null ==> end == Returns && client == null
      ensures old(client) != null ==>
                && end == (if close.Cancelled? then Cancelled else Returns)
                && client == (if close.Cancelled? then old(client) else null)
                && old(client).closed == (old(client.closed) || !close.Cancelled?)
    {
      end := Returns;
      if client != null {
        if close.Cancelled? {
          return Cancelled;
        }
        client.closed := true;
        client := null;
      }
    }

    /** Entered without a client it leaves none unclosed behind, however it ends. */
    method Connect(plan: ConnectPlan) returns (end: Ending, ok: bool)
      modifies this, client
      ensures made >= old(made) && fresh(made - old(made))
      ensures !end.Raises? && (end.Cancelled? ==> !ok)
      ensures old(Owned()) && old(client) == null ==> Owned()
      ensures old(Owned()) && old(client) == null && end.Returns? ==> Settled()
      ensures end.Returns? ==> ok == available == (plan.builds && plan.version.Returns?)
      ensures end.Returns? && !ok ==> reason == Some(plan.error)
      ensures end.Cancelled? ==> plan.version.Cancelled? || plan.close.Cancelled? || plan.log.Cancelled?
      ensures old(client) == null ==> (client != null <==> LeavesClient(plan))
      ensures old(client) == null ==> (end.Cancelled? <==> ConnectCancelled(plan))
      ensures !old(available) ==> (available <==> Connects(plan))
    {
      ok := false;
      if plan.builds {
        client := new DockerClient();
        made := made + {client};
        if plan.version.Cancelled? {
          return Cancelled, false;
        }
        if plan.version.Returns? {
          available, reason := true, None;
          return Returns, true;
        }
      }
      available, reason := false, Some(plan.error);
      end := SafeClose(plan.close);
      if end.Returns? && plan.log.Cancelled? {
        end := Cancelled;
      }
    }

    /** A container that cannot be read is left out; the others are kept in order. */
    method Collect(list: Ending, builds: seq<Build>) returns (end: Ending, states: seq<ContainerState>)
      ensures client == null ==> end.Returns? && states == []
      ensures client != null && !list.Returns? ==> end == list
      ensures client != null && list.Returns? ==> end == if BuildCancelled in builds then Cancelled else Returns
      ensures client != null && end.Returns? ==> states == Kept(builds)
    {
      states := [];
      if client == null {
        return Returns, [];
      }
      if !list.Returns? {
        return list, [];
      }
      for i := 0 to |builds|
        invariant states == Kept(builds[..i])
        invariant BuildCancelled !in builds[..i]
      {
        assert builds[..i + 1][..i] == builds[..i];
        match builds[i]
        case BuildCancelled => return Cancelled, [];
        case BuildRaises =>
        case Built(state) => states := states + [state];
      }
      assert builds[..|builds|] == builds;
      end := Returns;
    }

    method Close(close: Ending) returns (end: Ending)
      modifies this`client, client
      ensures old(Owned()) && !close.Cancelled? ==> end.Returns? && client == null && forall c :: c in made ==> c.closed
      ensures old(Owned()) ==> (SomeOpen() <==> old(client) != null && close.Cancelled?)
    {
      end := SafeClose(close);
      assert old(Owned()) && client != null ==> client in made && !client.closed;
    }
  }
}
