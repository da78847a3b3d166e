/** The gateway object itself: its handler, its connection and its publishes, one call at a time. */
module Gateway {
  import opened Domain
  import opened ServerClient
  import Forwarder
  import Lifecycle

  /** Shared mutable status, as far as the gateway writes it. */
  class AppRuntime {
    var queueConnected: bool
    var serverReachable: bool
    var lastForwardedAt: Option<int>

    constructor ()
      ensures !queueConnected && !serverReachable && lastForwardedAt == None
    {
      queueConnected, serverReachable, lastForwardedAt := false, false, None;
    }
  }

  /** The durable stream outlives every broker object. */
  class Stream {
    var messages: seq<(string, Envelope)>

    constructor ()
      ensures messages == []
    {
      messages := [];
    }
  }

  class NatsBroker {
    var stopped: bool

    constructor ()
      ensures !stopped
    {
      stopped := false;
    }

    method Stop()
      modifies this
      ensures stopped
    {
      stopped := true;
    }
  }

  /** What becomes of one publish: stored and confirmed, stored but the confirmation is lost, not
      stored, or interrupted by a cancellation. The second and third raise an `Exception`. */
  datatype PublishFate = Confirmed | Unconfirmed | NotStored | Interrupted(stored: bool)

  predicate Stores(fate: PublishFate) {
    fate.Confirmed? || fate.Unconfirmed? || (fate.Interrupted? && fate.stored)
  }

  /** How far `close` has got, whether it has cancelled the retry task, and the broker it abandoned. */
  datatype Closing = Closing(call: Lifecycle.CloseCall, cancelling: bool, leaked: Option<nat>)

  class NatsGateway {
    const hasToken: bool
    const runtime: AppRuntime
    const stream: Stream
    var broker: NatsBroker?
    var retryTask: Lifecycle.RetryTask
    var noTokenLogged: bool
    var authLogged: bool
    var unreachableLogged: bool
    var connectFailedLogged: bool
    var log: seq<Forwarder.Log>
    ghost var built: seq<NatsBroker>
    ghost var start: Lifecycle.StartTask
    ghost var closing: Closing

    ghost predicate Valid()
      reads this
    {
      && (forall i, j :: 0 <= i < j < |built| ==> built[i] != built[j])
      && (broker != null ==> broker in built)
    }

    /** Which of the brokers built so far is held. */
    ghost function Held(): (held: Option<nat>)
      requires Valid()
      reads this
      ensures held.Some? <==> broker != null
      ensures held.Some? ==> held.value < |built| && built[held.value] == broker
    {
      if broker == null then None
      else
        var i :| 0 <= i < |built| && built[i] == broker;
        Some(i)
    }

    /** The connection as the lifecycle machine sees it. */
    ghost function View(): Lifecycle.State
      requires Valid()
      reads this, runtime, built
    {
      Lifecycle.INITIAL.(
        stopped := seq(|built|, i requires 0 <= i < |built| reads this, built => built[i].stopped),
        broker := Held(), connected := runtime.queueConnected, failLogged := connectFailedLogged,
        start := start, retry := retryTask,
        cancelling := closing.cancelling, close := closing.call, leaked := closing.leaked)
    }

    function Flags(): Forwarder.Flags
      reads this, runtime
    {
      Forwarder.Flags(noTokenLogged, authLogged, unreachableLogged, runtime.serverReachable)
    }

    constructor (hasToken: bool, runtime: AppRuntime, stream: Stream)
      requires !runtime.queueConnected && !runtime.serverReachable
      ensures this.hasToken == hasToken && this.runtime == runtime && this.stream == stream
      ensures Valid() && View() == Lifecycle.INITIAL
      ensures Flags() == Forwarder.INITIAL && log == []
    {
      this.hasToken, this.runtime, this.stream := hasToken, runtime, stream;
      broker, retryTask, built, log := null, Lifecycle.NoRetry, [], [];
      start, closing := Lifecycle.NotCalled, Closing(Lifecycle.NotClosing, false, None);
      noTokenLogged, authLogged, unreachableLogged, connectFailedLogged := false, false, false, false;
    }

    /** Handles one queued message; a normal return acknowledges it, a raise does not. */
    method Forward(reply: Reply, now: int) returns (ack: bool)
      modifies this`noTokenLogged, this`authLogged, this`unreachableLogged, this`log
      modifies runtime`serverReachable, runtime`lastForwardedAt
      ensures var handled := Forwarder.Handle(old(Flags()), hasToken, reply);
              Flags() == handled.flags && log == old(log) + handled.log && ack == handled.ack
      ensures runtime.lastForwardedAt == if ack then Some(now) else old(runtime.lastForwardedAt)
    {
      if !hasToken {
        runtime.serverReachable := false;
        if !noTokenLogged {
          log := log + [Forwarder.WarnNoToken];
          noTokenLogged := true;
        }
        return false;
      }
      match Send(reply)
      case AuthRejected =>
        runtime.serverReachable := false;
        if !authLogged {
          log := log + [Forwarder.WarnAuth];
          authLogged := true;
        }
        return false;
      case DeliveryFailed =>
        var wasReachable := runtime.serverReachable;
        runtime.serverReachable := false;
        if wasReachable || !unreachableLogged {
          log := log + [Forwarder.WarnUnreachable];
          unreachableLogged := true;
        }
        return false;
      case Delivered =>
        if !runtime.serverReachable {
          log := log + [Forwarder.InfoResumed];
        }
        noTokenLogged, authLogged, unreachableLogged := false, false, false;
        runtime.serverReachable := true;
        runtime.lastForwardedAt := Some(now);
        return true;
    }

    method SafeClose()
      requires Valid()
      modifies this`broker, broker
      ensures Valid() && View() == old(View()).(stopped := Lifecycle.StoppedHeld(old(View())), broker := None)
      ensures old(broker) != null ==> old(broker).stopped
    {
      ghost var before := View();
      if broker != null {
        broker.Stop();
      }
      broker := null;
      assert View().stopped == Lifecycle.StoppedHeld(before);
    }

    method BuildBroker() returns (attempt: NatsBroker)
      requires Valid()
      modifies this`built
      ensures Valid() && fresh(attempt) && !attempt.stopped && built == old(built) + [attempt]
      ensures View() == old(View()).(stopped := old(View()).stopped + [false])
    {
      ghost var before := View();
      attempt := new NatsBroker();
      built := built + [attempt];
      assert View().stopped == before.stopped + [false];
    }

    method Ready(attempt: NatsBroker)
      requires Valid() && built != [] && attempt == built[|built| - 1]
      modifies this`broker, this`connectFailedLogged, runtime`queueConnected
      ensures Valid() && broker == attempt && runtime.queueConnected
      ensures View() == old(View()).(broker := Some(|built| - 1), connected := true, failLogged := false)
    {
      broker := attempt;
      runtime.queueConnected := true;
      connectFailedLogged := false;
    }

    /** The exception handler: the broker is stopped, and the failure logged unless it was already. */
    method GiveUp(attempt: NatsBroker)
      requires Valid() && built != [] && attempt == built[|built| - 1] && broker == null
      modifies this`connectFailedLogged, attempt, runtime`queueConnected
      ensures Valid() && attempt.stopped && !runtime.queueConnected
      ensures View() == old(View()).(stopped := old(View()).stopped[|built| - 1 := true],
                                     connected := false, failLogged := true)
    {
      ghost var before := View();
      runtime.queueConnected := false;
      attempt.Stop();
      if !connectFailedLogged {
        connectFailedLogged := true;
      }
      assert View().stopped == before.stopped[|built| - 1 := true];
    }

    /** One connect attempt; `connects` and `starts` say whether the two awaits return or raise. */
    method ConnectOnce(connects: bool, starts: bool) returns (ok: bool)
      requires Valid()
      modifies this`broker, this`built, this`connectFailedLogged, broker, runtime`queueConnected
      ensures Valid() && |built| == |old(built)| + 1 && old(built) == built[..|old(built)|]
              && fresh(built[|old(built)|])
      ensures broker == (if ok then built[|old(built)|] else null)
      ensures old(broker) != null ==> old(broker).stopped
      ensures built[|old(built)|].stopped == !ok && runtime.queueConnected == ok && ok == (connects && starts)
      ensures var m := Lifecycle.Attempt(old(View()), connects, starts);
              View() == m.s && m.progress == Lifecycle.Ended(ok)
    {
      ghost var before := View();
      SafeClose();
      var attempt := BuildBroker();
      if connects && starts {
        Ready(attempt);
        ok := true;
      } else {
        GiveUp(attempt);
        ok := false;
      }
      assert View().stopped == Lifecycle.StoppedHeld(before) + [!ok];
      Lifecycle.AttemptOutcome(before, connects, starts);
    }

    /** One round of the retry loop: after a failure the task sleeps, after a success it is done. */
    method Retry(connects: bool, starts: bool) returns (ok: bool)
      requires Valid()
      modifies this`broker, this`built, this`connectFailedLogged, this`retryTask, broker, runtime`queueConnected
      ensures Valid() && |built| == |old(built)| + 1 && old(built) == built[..|old(built)|]
              && fresh(built[|old(built)|])
      ensures broker == (if ok then built[|old(built)|] else null)
      ensures old(broker) != null ==> old(broker).stopped
      ensures built[|old(built)|].stopped == !ok && runtime.queueConnected == ok && ok == (connects && starts)
      ensures retryTask == if ok then Lifecycle.RetryDone else Lifecycle.RetrySleeps
      ensures View() == Lifecycle.PlaceRetry(Lifecycle.Attempt(old(View()), connects, starts))
    {
      ok := ConnectOnce(connects, starts);
      retryTask := if ok then Lifecycle.RetryDone else Lifecycle.RetrySleeps;
    }

    /** Attempts until one succeeds. The script tells how each goes; it ends where the task is
        cancelled in its sleep. */
    method RetryLoop(script: seq<(bool, bool)>) returns (connected: bool)
      requires Valid()
      modifies this`broker, this`built, this`connectFailedLogged, this`retryTask, broker, runtime`queueConnected
      ensures Valid() && |old(built)| <= |built| && old(built) == built[..|old(built)|]
      ensures connected <==> Lifecycle.Succeeds(script)
      ensures old(Lifecycle.BetweenAttempts(View())) ==>
                && View() == Lifecycle.Tried(old(View()), script)
                && View() == Lifecycle.Run(old(View()), Lifecycle.TriedSteps(old(View()), script))
      ensures retryTask == if connected then Lifecycle.RetryDone
                           else if script == [] then old(retryTask) else Lifecycle.RetrySleeps
      ensures connected ==> broker != null && !broker.stopped && broker == built[|built| - 1] && runtime.queueConnected
      ensures !connected ==> |built| == |old(built)| + |script|
      ensures !connected && script != [] ==> broker == null && !runtime.queueConnected
      ensures script != [] && old(broker) != null ==> old(broker).stopped
      ensures forall k :: |old(built)| <= k < |built| ==> fresh(built[k]) && (built[k].stopped || built[k] == broker)
    {
      ghost var before := View();
      ghost var now := before;
      connected := false;
      for i := 0 to |script|
        invariant Valid() && broker == if i == 0 then old(broker) else null
        invariant retryTask == if i == 0 then old(retryTask) else Lifecycle.RetrySleeps
        invariant |built| == |old(built)| + i && old(built) == built[..|old(built)|]
        invariant View() == now && !Lifecycle.Succeeds(script[..i])
        invariant Lifecycle.BetweenAttempts(before) ==>
                    now == Lifecycle.Tried(before, script[..i]) && Lifecycle.BetweenAttempts(now)
        invariant i > 0 ==> !runtime.queueConnected && (old(broker) != null ==> old(broker).stopped)
        invariant forall k :: |old(built)| <= k < |built| ==> fresh(built[k]) && built[k].stopped
      {
        ghost var known := built;
        connected := Retry(script[i].0, script[i].1);
        assert forall k :: 0 <= k < |known| ==> built[k] == known[k];
        Lifecycle.SucceedsNext(script, i);
        Lifecycle.AttemptFollows(before, now, script, i);
        now := Lifecycle.PlaceRetry(Lifecycle.Attempt(now, script[i].0, script[i].1));
        if connected {
          Lifecycle.TriedStops(before, script, i + 1);
          Lifecycle.TriedIsRun(before, script);
          return;
        }
      }
      assert script[..|script|] == script;
      Lifecycle.TriedIsRun(before, script);
    }

    /** The first attempt; a failed one leaves the retry task to go on. */
    method Start(connects: bool, starts: bool) returns (ok: bool)
      requires Valid()
      modifies this`broker, this`built, this`connectFailedLogged, this`retryTask, this`start,
               broker, runtime`queueConnected
      ensures Valid() && ok == (connects && starts)
      ensures View() == Lifecycle.PlaceStart(Lifecycle.Attempt(old(View()), connects, starts))
    {
      ok := ConnectOnce(connects, starts);
      if !ok {
        retryTask := Lifecycle.RetryCreated;
      }
      start := Lifecycle.StartReturned(ok);
    }

    /** False without a broker or after an exception; a cancellation goes through to the caller. */
    method Publish(subject: string, envelope: Envelope, fate: PublishFate) returns (ok: bool, cancelled: bool)
      modifies runtime`queueConnected, stream
      ensures ok <==> broker != null && fate.Confirmed?
      ensures cancelled <==> broker != null && fate.Interrupted?
      ensures stream.messages == old(stream.messages)
                                 + if broker != null && Stores(fate) then [(subject, envelope)] else []
      ensures runtime.queueConnected == (old(runtime.queueConnected) && (broker == null || ok || cancelled))
    {
      if broker == null {
        return false, false;
      }
      if Stores(fate) {
        stream.messages := stream.messages + [(subject, envelope)];
      }
      if fate.Interrupted? {
        return false, true;
      }
      if !fate.Confirmed? {
        runtime.queueConnected := false;
        return false, false;
      }
      return true, false;
    }

    /** The retry task is cancelled and awaited wherever it stands, then the broker that is held is
        stopped; one that only the cancelled attempt knew of is not. */
    method Close()
      requires Valid()
      modifies this`broker, this`retryTask, this`closing, broker, runtime`queueConnected
      ensures Valid() && built == old(built)
      ensures View() == Lifecycle.CloseOutcome(old(View()))
      ensures old(Lifecycle.Closable(View())) ==>
                View() == Lifecycle.Run(old(View()), Lifecycle.CloseSteps(true))
      ensures old(broker) != null ==> old(broker).stopped
      ensures forall b :: b in built && b != old(broker) ==> b.stopped == old(b.stopped)
    {
      ghost var before := View();
      closing := Closing(Lifecycle.Closed, !retryTask.NoRetry?, Lifecycle.Doomed(before));
      retryTask := Lifecycle.NoRetry;
      SafeClose();
      runtime.queueConnected := false;
      assert View() == Lifecycle.CloseOutcome(before);
      if Lifecycle.Closable(before) {
        Lifecycle.UninterruptedClose(before, true);
      }
    }
  }
}
