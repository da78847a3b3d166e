/** The connection in the delivery machine is the one that the gateway's coroutines make. */
module Connection {
  import Lifecycle
  import opened Delivery

  /** What the delivery machine sees of a run of the gateway: when a broker comes and when it goes. */
  function BrokerSteps(life: seq<Lifecycle.Step>): seq<Step> {
    if life == [] then []
    else
      var before := Lifecycle.Run(Lifecycle.INITIAL, life[..|life| - 1]);
      var after := Lifecycle.Run(Lifecycle.INITIAL, life);
      BrokerSteps(life[..|life| - 1])
      + if before.broker.Some? == after.broker.Some? then [] else [Broker(after.broker.Some?)]
  }

  /** In one life of the agent a gateway never connects, or connects once, and then closes at most once. */
  lemma {:induction false} GatewayConnectsOnce(life: seq<Lifecycle.Step>)
    ensures var s := Lifecycle.Run(Lifecycle.INITIAL, life);
            BrokerSteps(life) == if Lifecycle.Rises(Lifecycle.INITIAL, life) == 0 then []
                                 else if s.close.Closed? then [Broker(true), Broker(false)]
                                 else [Broker(true)]
  {
    if life == [] {
    } else {
      var init := life[..|life| - 1];
      GatewayConnectsOnce(init);
      Lifecycle.HeldFromRiseToClose(init);
      Lifecycle.HeldFromRiseToClose(life);
      Lifecycle.ConnectedRisesOnce(life);
      Lifecycle.ReachableInv(init);
      Lifecycle.BrokerStep(Lifecycle.Run(Lifecycle.INITIAL, init), life[|life| - 1]);
    }
  }

  function Connections(steps: seq<Step>): seq<Step> {
    if steps == [] then []
    else
      var last := steps[|steps| - 1];
      Connections(steps[..|steps| - 1]) + if last.Broker? then [last] else []
  }

  lemma OnlyConnectionsMatter(s: State, step: Step)
    requires !step.Restart?
    ensures Next(s, step).brokerHeld == if step.Broker? then step.held else s.brokerHeld
  {
  }

  lemma {:induction false} HeldIsLastConnection(s: State, steps: seq<Step>)
    requires forall i :: 0 <= i < |steps| ==> !steps[i].Restart?
    ensures forall i :: 0 <= i < |Connections(steps)| ==> Connections(steps)[i].Broker?
    ensures var made := Connections(steps);
            Run(s, steps).brokerHeld == if made == [] then s.brokerHeld else made[|made| - 1].held
  {
    if steps == [] {
    } else {
      HeldIsLastConnection(s, steps[..|steps| - 1]);
      OnlyConnectionsMatter(Run(s, steps[..|steps| - 1]), steps[|steps| - 1]);
    }
  }

  lemma {:induction false} BrokerStepsEndHeld(life: seq<Lifecycle.Step>)
    ensures var made, held := BrokerSteps(life), Lifecycle.Run(Lifecycle.INITIAL, life).broker.Some?;
            if made == [] then !held else made[|made| - 1] == Broker(held)
  {
    GatewayConnectsOnce(life);
    Lifecycle.HeldFromRiseToClose(life);
    Lifecycle.ConnectedRisesOnce(life);
  }

  /** From any start of the agent, whatever else happens in between: where the connections made are
      those of a gateway, a broker is held in the delivery machine exactly when that gateway holds one. */
  lemma HeldAsGatewaySays(s: State, token: bool, steps: seq<Step>, life: seq<Lifecycle.Step>)
    requires forall i :: 0 <= i < |steps| ==> !steps[i].Restart?
    requires Connections(steps) == BrokerSteps(life)
    ensures Run(Next(s, Restart(token)), steps).brokerHeld
       <==> Lifecycle.Run(Lifecycle.INITIAL, life).broker.Some?
  {
    HeldIsLastConnection(Next(s, Restart(token)), steps);
    BrokerStepsEndHeld(life);
  }
}
