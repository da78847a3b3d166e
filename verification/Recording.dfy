/** One record call of the event service is a run of its call in the delivery machine. */
module Recording {
  import opened Domain
  import opened Delivery
  import opened DeliveryTheorems
  import Draining
  import Gateway
  import Events

  // ---- The newest call, moving alone ----

  /** The state `s` with one more call and all that this call has left behind so far. */
  function WithCall(s: State, call: Call): State {
    s.(calls := s.calls + [call],
       history := s.history + (if call.committed then Rows(call.envelope.payload) else []),
       commits := s.commits + (if call.committed then [|s.calls|] else []),
       messages := s.messages + (if call.wire.Stored? then [Message(|s.calls|, None, None)] else []))
  }

  function Move(s: State, call: Call, move: CallMove): Call {
    MoveCall(call, move, s.brokerHeld, |s.messages|)
  }

  lemma MoveNewest(s: State, call: Call, move: CallMove)
    requires CallOk(call)
    ensures CallOk(Move(s, call, move))
    ensures Next(WithCall(s, call), Recorder(|s.calls|, move)) == WithCall(s, Move(s, call, move))
  {
    MoveKeepsCall(call, move, s.brokerHeld, |s.messages|);
    assert (s.calls + [call])[|s.calls| := Move(s, call, move)] == s.calls + [Move(s, call, move)];
  }

  function MoveAll(s: State, call: Call, moves: seq<CallMove>): Call {
    if moves == [] then call else Move(s, MoveAll(s, call, moves[..|moves| - 1]), moves[|moves| - 1])
  }

  function Steps(c: nat, moves: seq<CallMove>): seq<Step> {
    if moves == [] then [] else Steps(c, moves[..|moves| - 1]) + [Recorder(c, moves[|moves| - 1])]
  }

  lemma {:induction false} NewestMovesAlone(s: State, call: Call, moves: seq<CallMove>)
    requires CallOk(call)
    ensures CallOk(MoveAll(s, call, moves))
    ensures Run(WithCall(s, call), Steps(|s.calls|, moves)) == WithCall(s, MoveAll(s, call, moves))
  {
    if moves == [] {
    } else {
      var init, last := moves[..|moves| - 1], moves[|moves| - 1];
      NewestMovesAlone(s, call, init);
      MoveNewest(s, MoveAll(s, call, init), last);
      RunAppend(WithCall(s, call), Steps(|s.calls|, init), [Recorder(|s.calls|, last)]);
      RunOne(WithCall(s, MoveAll(s, call, init)), Recorder(|s.calls|, last));
    }
  }

  lemma MoveAllThen(s: State, call: Call, moves: seq<CallMove>, move: CallMove)
    ensures MoveAll(s, call, moves + [move]) == Move(s, MoveAll(s, call, moves), move)
  {
    assert (moves + [move])[..|moves|] == moves;
  }

  // ---- What the service's outcomes are in the machine ----

  /** The stream takes what was published or it does not, and then the call ends. */
  function PublishMoves(fate: Gateway.PublishFate): seq<CallMove> {
    [if Gateway.Stores(fate) then StreamStores else PublishLost]
    + [match fate
       case Confirmed => PublishConfirmed
       case Interrupted(_) => Cancel
       case _ => PublishFails]
  }

  function Moves(commit: Events.CommitEnd, held: bool, fate: Gateway.PublishFate): seq<CallMove> {
    match commit
    case CommitRaises => [CommitFails]
    case CommitCancelled(durable) => if durable then [CommitSucceeds] + [Cancel] else [Cancel]
    case Commits => [CommitSucceeds] + [PublishCalled] + if held then PublishMoves(fate) else []
  }

  function PhaseOf(commit: Events.CommitEnd, held: bool, fate: Gateway.PublishFate): CallPhase {
    match Events.EndOf(commit, held, fate)
    case Returns => Returned(held && fate.Confirmed?)
    case Raises => Raised
    case Cancelled => Stopped
  }

  function WireOf(s: State, commit: Events.CommitEnd, fate: Gateway.PublishFate): PublishWire {
    if !Events.Offers(commit, s.brokerHeld) then Unsent
    else if Gateway.Stores(fate) then Stored(|s.messages|)
    else Lost
  }

  lemma MovesLeadThere(s: State, call: Call, commit: Events.CommitEnd, fate: Gateway.PublishFate)
    requires call.phase.Adding? && call.wire.Unsent? && !call.committed
    ensures MoveAll(s, call, Moves(commit, s.brokerHeld, fate))
         == Call(call.envelope, Events.Durable(commit), PhaseOf(commit, s.brokerHeld, fate), WireOf(s, commit, fate))
  {
    MoveAllThen(s, call, [CommitSucceeds], Cancel);
    if commit.Commits? {
      var opening := [CommitSucceeds] + [PublishCalled];
      MoveAllThen(s, call, [CommitSucceeds], PublishCalled);
      if s.brokerHeld {
        var arrival, last := PublishMoves(fate)[0], PublishMoves(fate)[1];
        MoveAllThen(s, call, opening, arrival);
        MoveAllThen(s, call, opening + [arrival], last);
        assert opening + PublishMoves(fate) == opening + [arrival] + [last];
      } else {
        assert opening + [] == opening;
      }
    }
  }

  // ---- The record call as a run ----

  function RecordRun(s: State, payload: Payload, agentId: string, now: int,
                     commit: Events.CommitEnd, fate: Gateway.PublishFate): seq<Step> {
    [Record(payload, agentId, now)] + Steps(|s.calls|, Moves(commit, s.brokerHeld, fate))
  }

  lemma RecordThenMoves(s: State, payload: Payload, agentId: string, now: int, moves: seq<CallMove>)
    ensures Run(s, [Record(payload, agentId, now)] + Steps(|s.calls|, moves))
         == WithCall(s, MoveAll(s, Call(Wrap(payload, agentId, now), false, Adding, Unsent), moves))
  {
    var call := Call(Wrap(payload, agentId, now), false, Adding, Unsent);
    RunAppend(s, [Record(payload, agentId, now)], Steps(|s.calls|, moves));
    RunOne(s, Record(payload, agentId, now));
    assert Next(s, Record(payload, agentId, now)) == WithCall(s, call);
    NewestMovesAlone(s, call, moves);
  }

  /** Undisturbed by other steps, a record call leaves its rows exactly when its commit is durable,
      its message exactly when the stream stores what it was offered, and ends as the service says. */
  lemma RecordCallIsARun(s: State, payload: Payload, agentId: string, now: int,
                         commit: Events.CommitEnd, fate: Gateway.PublishFate)
    ensures Run(s, RecordRun(s, payload, agentId, now, commit, fate))
         == WithCall(s, Call(Wrap(payload, agentId, now), Events.Durable(commit),
                             PhaseOf(commit, s.brokerHeld, fate), WireOf(s, commit, fate)))
  {
    var call := Call(Wrap(payload, agentId, now), false, Adding, Unsent);
    RecordThenMoves(s, payload, agentId, now, Moves(commit, s.brokerHeld, fate));
    MovesLeadThere(s, call, commit, fate);
  }

  /** After it the event can reach the server if and only if the commit returned, a broker was held
      and the stream stored the message; what the service was told decides nothing. */
  lemma RecordedCanReach(s: State, payload: Payload, agentId: string, now: int,
                         commit: Events.CommitEnd, fate: Gateway.PublishFate)
    requires Inv(s)
    ensures Draining.CanReachServer(Run(s, RecordRun(s, payload, agentId, now, commit, fate)), |s.calls|)
       <==> Events.Offers(commit, s.brokerHeld) && Gateway.Stores(fate)
  {
    var steps := RecordRun(s, payload, agentId, now, commit, fate);
    var call := Call(Wrap(payload, agentId, now), Events.Durable(commit),
                     PhaseOf(commit, s.brokerHeld, fate), WireOf(s, commit, fate));
    RunKeepsInv(s, steps);
    assert Run(s, steps).calls == s.calls + [call] by {
      RecordCallIsARun(s, payload, agentId, now, commit, fate);
    }
    Draining.OverReachesIffOnItsWay(Run(s, steps), |s.calls|);
  }

  /** Committed, published and confirmed: its rows in history, one new message that stands for its
      envelope, and true returned. */
  lemma UndisturbedRecord(s: State, payload: Payload, agentId: string, now: int)
    requires s.brokerHeld
    ensures Run(s, RecordRun(s, payload, agentId, now, Events.Commits, Gateway.Confirmed))
         == s.(calls := s.calls + [Call(Wrap(payload, agentId, now), true, Returned(true), Stored(|s.messages|))],
               history := s.history + Rows(payload),
               commits := s.commits + [|s.calls|],
               messages := s.messages + [Message(|s.calls|, None, None)])
  {
    RecordCallIsARun(s, payload, agentId, now, Events.Commits, Gateway.Confirmed);
  }

  // ---- The objects follow the machine ----

  /** History, stream and connection are those of the machine. */
  predicate Mirrors(rows: seq<Row>, messages: seq<(string, Envelope)>, held: bool, s: State) {
    && rows == s.history && held == s.brokerHeld && |messages| == |s.messages|
    && (forall m :: 0 <= m < |messages| ==>
          s.messages[m].call < |s.calls| && messages[m].1 == s.calls[s.messages[m].call].envelope)
  }

  /** Whatever a record method of the service does to history and stream, the machine does in the
      run above, and both end alike. */
  twostate lemma RecordsRefines(service: Events.EventService, s: State,
                                payload: Payload, agentId: string, now: int,
                                commit: Events.CommitEnd, fate: Gateway.PublishFate, end: Events.Ending)
    requires old(service.session.pending) == []
    requires Mirrors(old(service.session.database.rows), old(service.gateway.stream.messages),
                     service.gateway.broker != null, s)
    requires service.Records(payload, agentId, now, commit, fate, end)
    ensures var s' := Run(s, RecordRun(s, payload, agentId, now, commit, fate));
            && Mirrors(service.session.database.rows, service.gateway.stream.messages,
                       service.gateway.broker != null, s')
            && |s'.calls| == |s.calls| + 1
            && (end.Returns? <==> s'.calls[|s.calls|].phase.Returned?)
            && (end.Raises? <==> s'.calls[|s.calls|].phase.Raised?)
            && (end.Cancelled? <==> s'.calls[|s.calls|].phase.Stopped?)
  {
    RecordCallIsARun(s, payload, agentId, now, commit, fate);
    assert [] + Rows(payload) == Rows(payload);
  }
}
