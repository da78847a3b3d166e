/** Store and forward: recorders, the durable stream, the consumer and the server as one machine.

    Every step is a choice of the environment: which coroutine moves, whether a commit, a publish,
    a request or an acknowledgement gets through, when a lease expires, when the agent is killed.
    A step that is not enabled leaves the state as it is, so a run is any sequence of steps. */
module Delivery {
  import opened Domain
  import opened ServerClient
  import Forwarder

  // ---- One record call: commit to history, then publish ----

  datatype CallPhase =
    | Adding                     // rows added, commit not done
    | Committed                  // rows durable, publish not begun
    | Publishing                 // waiting for the stream's confirmation
    | Returned(enqueued: bool)   // publish returned
    | Raised                     // commit raised, publish never reached
    | Stopped                    // cancelled, or the agent died first

  /** What the publish has put on its way: nothing, a message that may still arrive, one that was
      refused or got lost, or one that the stream has taken. */
  datatype PublishWire = Unsent | Sent | Lost | Stored(index: nat)

  datatype Call = Call(envelope: Envelope, committed: bool, phase: CallPhase, wire: PublishWire)

  // ---- The stream ----

  datatype Lease = Lease(attempt: nat, since: nat)

  datatype Message = Message(call: nat, ackedBy: Option<nat>, lease: Option<Lease>)

  // ---- One delivery of a message to the handler ----

  datatype HandlerPhase =
    | Entered
    | AwaitingReply
    | Finished(ack: bool)        // returned or raised; the settlement is on its way
    | Settled(ack: bool)
    | Dead                       // killed before it could settle

  datatype Request = NoRequest | OnWire | Answered(status: nat)

  /** Whether and why the stream took the message back from this delivery. */
  datatype Release = Held | Nacked | Expired | Superseded

  datatype Attempt = Attempt(message: nat, phase: HandlerPhase, request: Request, gaveUp: bool, release: Release)

  datatype State = State(
    hasToken: bool, brokerHeld: bool, ackWait: nat, clock: nat,
    calls: seq<Call>, history: seq<Row>, commits: seq<nat>,
    messages: seq<Message>, attempts: seq<Attempt>)

  function Init(hasToken: bool, ackWait: nat): State {
    State(hasToken, false, ackWait, 0, [], [], [], [], [])
  }

  /** What can happen to one record call... */
  datatype CallMove =
    | CommitSucceeds
    | CommitFails
    | PublishCalled
    | StreamStores
    | PublishLost
    | PublishConfirmed
    | PublishFails
    | Cancel

  /** ...and to one delivery. */
  datatype HandlerMove =
    | Starts
    | ServerAnswers(status: nat)
    | ReplyArrives
    | SendFails
    | SettlementArrives
    | SettlementLost

  /** `Broker` is the gateway's connection made or closed; `Lifecycle` says how that comes about. */
  datatype Step =
    | Record(payload: Payload, agentId: string, now: int)
    | Recorder(c: nat, callMove: CallMove)
    | Tick(d: nat)
    | Expire(m: nat)
    | Deliver(m: nat)
    | Handler(a: nat, move: HandlerMove)
    | Broker(held: bool)
    | Restart(token: bool)

  /** A call that is cancelled, or killed with the agent, goes no further; what is on the wire stays. */
  function KillCall(c: Call): Call {
    if c.phase.Adding? || c.phase.Committed? || c.phase.Publishing? then c.(phase := Stopped) else c
  }

  /** The call itself; `held` says whether the gateway holds a broker, and `index` is the place its
      message would get in the stream. */
  function MoveCall(call: Call, move: CallMove, held: bool, index: nat): Call {
    match move
    case CommitSucceeds => if call.phase.Adding? then call.(phase := Committed, committed := true) else call
    case CommitFails => if call.phase.Adding? then call.(phase := Raised) else call
    case PublishCalled =>
      if !call.phase.Committed? then call
      else if held then call.(phase := Publishing, wire := Sent)
      else call.(phase := Returned(false))
    case StreamStores => if call.wire.Sent? then call.(wire := Stored(index)) else call
    case PublishLost => if call.wire.Sent? then call.(wire := Lost) else call
    case PublishConfirmed =>
      if call.phase.Publishing? && call.wire.Stored? then call.(phase := Returned(true)) else call
    case PublishFails => if call.phase.Publishing? then call.(phase := Returned(false)) else call
    case Cancel => KillCall(call)
  }

  /** The delivery itself; a settlement that arrives also acts on the stream. */
  function MoveAttempt(att: Attempt, hasToken: bool, move: HandlerMove): Attempt {
    match move
    case Starts =>
      if !att.phase.Entered? then att
      else if hasToken then att.(phase := AwaitingReply, request := OnWire)
      else att.(phase := Finished(false))
    case ServerAnswers(status) => if att.request.OnWire? then att.(request := Answered(status)) else att
    case ReplyArrives =>
      if att.phase.AwaitingReply? && att.request.Answered?
      then att.(phase := Finished(Forwarder.Acks(true, Response(att.request.status)))) else att
    case SendFails =>
      if att.phase.AwaitingReply?
      then att.(phase := Finished(Forwarder.Acks(true, NoResponse)), gaveUp := true) else att
    case SettlementArrives => if att.phase.Finished? then att.(phase := Settled(att.phase.ack)) else att
    case SettlementLost => if att.phase.Finished? then att.(phase := Settled(att.phase.ack)) else att
  }

  /** Takes the message back from the delivery that holds it, if any. */
  function Unlease(s: State, m: nat, why: Release): State
    requires m < |s.messages|
  {
    match s.messages[m].lease
    case None => s
    case Some(lease) =>
      if lease.attempt >= |s.attempts| then s
      else s.(messages := s.messages[m := s.messages[m].(lease := None)],
              attempts := s.attempts[lease.attempt := s.attempts[lease.attempt].(release := why)])
  }

  /** An acknowledgement removes message `m` for good, whichever delivery `a` it comes from. */
  function Ack(s: State, m: nat, a: nat): State
    requires m < |s.messages|
  {
    if s.messages[m].ackedBy.Some? then s
    else s.(messages := s.messages[m := s.messages[m].(ackedBy := Some(a), lease := None)])
  }

  /** A negative one makes it deliverable again, even when a later delivery holds it. */
  function Nack(s: State, m: nat, a: nat): State
    requires m < |s.messages|
  {
    if s.messages[m].lease.None? then s
    else Unlease(s, m, if s.messages[m].lease.value.attempt == a then Nacked else Superseded)
  }

  /** A settlement already on its way is no longer the agent's. */
  function KillAttempt(a: Attempt): Attempt {
    if a.phase.Entered? || a.phase.AwaitingReply? then a.(phase := Dead) else a
  }

  function NextOfCall(s: State, c: nat, move: CallMove): State
    requires c < |s.calls|
  {
    var call := s.calls[c];
    var s' := s.(calls := s.calls[c := MoveCall(call, move, s.brokerHeld, |s.messages|)]);
    if move.CommitSucceeds? && call.phase.Adding? then
      s'.(history := s.history + Rows(call.envelope.payload), commits := s.commits + [c])
    else if move.StreamStores? && call.wire.Sent? then
      s'.(messages := s.messages + [Message(c, None, None)])
    else s'
  }

  function NextOfHandler(s: State, a: nat, move: HandlerMove): State
    requires a < |s.attempts|
  {
    var att := s.attempts[a];
    var s' := s.(attempts := s.attempts[a := MoveAttempt(att, s.hasToken, move)]);
    if !move.SettlementArrives? || !att.phase.Finished? || att.message >= |s.messages| then s'
    else if att.phase.ack then Ack(s', att.message, a)
    else Nack(s', att.message, a)
  }

  function Next(s: State, step: Step): State {
    match step
    case Record(payload, agentId, now) =>
      s.(calls := s.calls + [Call(Wrap(payload, agentId, now), false, Adding, Unsent)])
    case Recorder(c, move) =>
      if c < |s.calls| then NextOfCall(s, c, move) else s
    case Tick(d) =>
      s.(clock := s.clock + d)
    case Expire(m) =>
      if m < |s.messages| && Due(s, m) then Unlease(s, m, Expired) else s
    case Deliver(m) =>
      if m >= |s.messages| || s.messages[m].ackedBy.Some? || s.messages[m].lease.Some? then s
      else s.(messages := s.messages[m := s.messages[m].(lease := Some(Lease(|s.attempts|, s.clock)))],
              attempts := s.attempts + [Attempt(m, Entered, NoRequest, false, Held)])
    case Handler(a, move) =>
      if a < |s.attempts| then NextOfHandler(s, a, move) else s
    case Broker(held) =>
      s.(brokerHeld := held)
    case Restart(token) =>
      s.(hasToken := token,
         brokerHeld := false,
         calls := seq(|s.calls|, i requires 0 <= i < |s.calls| => KillCall(s.calls[i])),
         attempts := seq(|s.attempts|, i requires 0 <= i < |s.attempts| => KillAttempt(s.attempts[i])))
  }

  predicate Due(s: State, m: nat)
    requires m < |s.messages|
  {
    s.messages[m].lease.Some? && s.clock - s.messages[m].lease.value.since >= s.ackWait
  }

  function Run(s: State, steps: seq<Step>): State {
    if steps == [] then s else Next(Run(s, steps[..|steps| - 1]), steps[|steps| - 1])
  }

  // ---- What every step keeps ----

  /** The server took this request, whether or not the agent ever heard so. */
  predicate Accepted(a: Attempt) {
    a.request.Answered? && Send(Response(a.request.status)).Delivered?
  }

  predicate CallOk(call: Call) {
    && (call.phase.Adding? || call.phase.Raised? ==> !call.committed)
    && (call.phase.Committed? || call.phase.Publishing? || call.phase.Returned? ==> call.committed)
    && (!call.wire.Unsent? ==> call.committed && !call.phase.Committed?)
    && (call.phase == Returned(true) ==> call.wire.Stored?)
  }

  /** Stored calls and messages point at each other. */
  predicate Linked(calls: seq<Call>, messages: seq<Message>) {
    && (forall c :: 0 <= c < |calls| && calls[c].wire.Stored? ==>
          calls[c].wire.index < |messages| && messages[calls[c].wire.index].call == c)
    && (forall m :: 0 <= m < |messages| ==>
          messages[m].call < |calls| && calls[messages[m].call].wire == Stored(m))
  }

  predicate CallsOk(s: State) {
    (forall c :: 0 <= c < |s.calls| ==> CallOk(s.calls[c])) && Linked(s.calls, s.messages)
  }

  function Projection(calls: seq<Call>, commits: seq<nat>): seq<Row> {
    if commits == [] then []
    else
      var c := commits[|commits| - 1];
      Projection(calls, commits[..|commits| - 1]) + if c < |calls| then Rows(calls[c].envelope.payload) else []
  }

  /** The log of commits is the committed calls, each once. */
  predicate CommitsOk(calls: seq<Call>, commits: seq<nat>) {
    && (forall k :: 0 <= k < |commits| ==> commits[k] < |calls| && calls[commits[k]].committed)
    && (forall i, j :: 0 <= i < j < |commits| ==> commits[i] != commits[j])
    && (forall c :: 0 <= c < |calls| && calls[c].committed ==> c in commits)
  }

  predicate HistoryOk(s: State) {
    s.history == Projection(s.calls, s.commits) && CommitsOk(s.calls, s.commits)
  }

  predicate MessageOk(s: State, m: nat)
    requires m < |s.messages|
  {
    var msg := s.messages[m];
    && (msg.lease.Some? ==>
          && msg.ackedBy.None?
          && msg.lease.value.since <= s.clock
          && msg.lease.value.attempt < |s.attempts|
          && s.attempts[msg.lease.value.attempt].message == m
          && s.attempts[msg.lease.value.attempt].release.Held?)
    && (msg.ackedBy.Some? ==>
          && msg.ackedBy.value < |s.attempts|
          && s.attempts[msg.ackedBy.value].message == m
          && s.attempts[msg.ackedBy.value].phase == Settled(true))
  }

  predicate HandlerOk(a: Attempt) {
    && (a.phase.Entered? ==> a.request.NoRequest? && !a.gaveUp)
    && (a.phase.AwaitingReply? ==> !a.request.NoRequest? && !a.gaveUp)
    && (a.phase == Finished(true) || a.phase == Settled(true) ==> Accepted(a) && !a.gaveUp)
    && (a.phase == Finished(false) || a.phase == Settled(false) ==> Accepted(a) ==> a.gaveUp)
    && (a.request.OnWire? && (a.phase.Finished? || a.phase.Settled?) ==> a.gaveUp)
    && (a.release.Nacked? ==> a.phase == Settled(false))
  }

  predicate AttemptOk(s: State, a: nat)
    requires a < |s.attempts|
  {
    var att := s.attempts[a];
    && HandlerOk(att)
    && att.message < |s.messages|
    && (att.release.Held? && s.messages[att.message].ackedBy.None? ==>
          s.messages[att.message].lease.Some? && s.messages[att.message].lease.value.attempt == a)
  }

  predicate QueueOk(s: State) {
    && (forall m :: 0 <= m < |s.messages| ==> MessageOk(s, m))
    && (forall a :: 0 <= a < |s.attempts| ==> AttemptOk(s, a))
  }

  /** A message is handed out again only after the stream took it back from every earlier delivery. */
  predicate OneHolder(attempts: seq<Attempt>) {
    forall a, b :: 0 <= a < b < |attempts| && attempts[a].message == attempts[b].message ==>
      !attempts[a].release.Held?
  }

  ghost predicate Inv(s: State) {
    CallsOk(s) && HistoryOk(s) && QueueOk(s) && OneHolder(s.attempts)
  }

  // -- calls and history --

  lemma MoveKeepsCall(call: Call, move: CallMove, held: bool, index: nat)
    requires CallOk(call)
    ensures var call' := MoveCall(call, move, held, index);
            && CallOk(call') && call'.envelope == call.envelope
            && call'.committed == (call.committed || (move.CommitSucceeds? && call.phase.Adding?))
            && (call'.wire == call.wire || call'.wire.Sent? || call'.wire.Lost?
                || (move.StreamStores? && call.wire.Sent? && call'.wire == Stored(index)))
            && (call.wire.Stored? ==> call'.wire == call.wire)
  {
  }

  lemma KillKeepsCall(call: Call)
    requires CallOk(call)
    ensures var call' := KillCall(call);
            CallOk(call') && call'.envelope == call.envelope
            && call'.committed == call.committed && call'.wire == call.wire
  {
  }

  lemma LinkedAfterMove(calls: seq<Call>, messages: seq<Message>, c: nat, call: Call, added: seq<Message>)
    requires Linked(calls, messages) && c < |calls|
    requires calls[c].wire.Stored? ==> call.wire == calls[c].wire
    requires if added == [] then call.wire.Stored? ==> calls[c].wire == call.wire
             else added == [Message(c, None, None)] && call.wire == Stored(|messages|) && !calls[c].wire.Stored?
    ensures Linked(calls[c := call], messages + added)
  {
    var calls' := calls[c := call];
    var messages' := messages + added;
    forall m | 0 <= m < |messages'|
      ensures messages'[m].call < |calls'| && calls'[messages'[m].call].wire == Stored(m)
    {
      if m < |messages| {
        assert messages'[m] == messages[m];
        assert calls[messages[m].call].wire == Stored(m);
      }
    }
  }

  lemma CallMoveKeepsCalls(s: State, c: nat, move: CallMove)
    requires CallsOk(s) && c < |s.calls|
    ensures CallsOk(NextOfCall(s, c, move))
  {
    var call := MoveCall(s.calls[c], move, s.brokerHeld, |s.messages|);
    MoveKeepsCall(s.calls[c], move, s.brokerHeld, |s.messages|);
    var added := if move.StreamStores? && s.calls[c].wire.Sent? then [Message(c, None, None)] else [];
    LinkedAfterMove(s.calls, s.messages, c, call, added);
    assert s.messages + [] == s.messages;
  }

  /** Steps of the queue and of a restart change neither wires nor the calls messages stand for. */
  lemma LinkedSameShape(calls: seq<Call>, calls': seq<Call>, messages: seq<Message>, messages': seq<Message>)
    requires Linked(calls, messages)
    requires |calls| <= |calls'| && |messages| == |messages'|
    requires forall c :: 0 <= c < |calls| ==> calls'[c].wire == calls[c].wire
    requires forall c :: |calls| <= c < |calls'| ==> calls'[c].wire.Unsent?
    requires forall m :: 0 <= m < |messages| ==> messages'[m].call == messages[m].call
    ensures Linked(calls', messages')
  {
  }

  lemma RestartKeepsCalls(s: State, token: bool)
    requires CallsOk(s)
    ensures CallsOk(Next(s, Restart(token)))
  {
    var calls := Next(s, Restart(token)).calls;
    forall c | 0 <= c < |s.calls|
      ensures CallOk(calls[c]) && calls[c].wire == s.calls[c].wire
    {
      KillKeepsCall(s.calls[c]);
    }
    LinkedSameShape(s.calls, calls, s.messages, s.messages);
  }

  lemma QueueStepKeepsRecords(s: State, step: Step)
    requires !step.Record? && !step.Recorder? && !step.Restart?
    ensures var s' := Next(s, step);
            && s'.calls == s.calls && s'.history == s.history && s'.commits == s.commits
            && |s'.messages| == |s.messages|
            && (forall m :: 0 <= m < |s.messages| ==> s'.messages[m].call == s.messages[m].call)
  {
  }

  lemma StepKeepsCalls(s: State, step: Step)
    requires CallsOk(s)
    ensures CallsOk(Next(s, step))
  {
    match step
    case Recorder(c, move) => if c < |s.calls| { CallMoveKeepsCalls(s, c, move); }
    case Restart(token) => RestartKeepsCalls(s, token);
    case Record(_, _, _) => LinkedSameShape(s.calls, Next(s, step).calls, s.messages, s.messages);
    case _ =>
      QueueStepKeepsRecords(s, step);
      LinkedSameShape(s.calls, s.calls, s.messages, Next(s, step).messages);
  }

  lemma {:induction false} ProjectionIgnoresPhases(calls: seq<Call>, calls': seq<Call>, commits: seq<nat>)
    requires |calls| <= |calls'|
    requires forall c :: 0 <= c < |calls| ==> calls[c].envelope == calls'[c].envelope
    requires forall k :: 0 <= k < |commits| ==> commits[k] < |calls|
    ensures Projection(calls, commits) == Projection(calls', commits)
  {
    if commits == [] {
    } else {
      ProjectionIgnoresPhases(calls, calls', commits[..|commits| - 1]);
    }
  }

  lemma CommitsGrow(calls: seq<Call>, calls': seq<Call>, commits: seq<nat>, c: nat)
    requires CommitsOk(calls, commits) && c < |calls| == |calls'| && !calls[c].committed && calls'[c].committed
    requires forall d :: 0 <= d < |calls| && d != c ==> calls'[d].committed == calls[d].committed
    ensures CommitsOk(calls', commits + [c])
  {
    var commits' := commits + [c];
    assert commits'[|commits|] == c;
    forall d | 0 <= d < |calls'| && calls'[d].committed
      ensures d in commits'
    {
      assert d != c ==> d in commits;
    }
  }

  lemma HistoryGrows(s: State, calls: seq<Call>, c: nat)
    requires HistoryOk(s) && c < |s.calls| == |calls| && !s.calls[c].committed && calls[c].committed
    requires forall d :: 0 <= d < |calls| ==> calls[d].envelope == s.calls[d].envelope
    requires forall d :: 0 <= d < |calls| && d != c ==> calls[d].committed == s.calls[d].committed
    ensures HistoryOk(s.(calls := calls, commits := s.commits + [c],
                         history := s.history + Rows(s.calls[c].envelope.payload)))
  {
    ProjectionIgnoresPhases(s.calls, calls, s.commits);
    assert (s.commits + [c])[..|s.commits|] == s.commits;
    CommitsGrow(s.calls, calls, s.commits, c);
  }

  lemma HistoryStays(s: State, calls: seq<Call>)
    requires HistoryOk(s) && |s.calls| <= |calls|
    requires forall c :: 0 <= c < |s.calls| ==>
               calls[c].envelope == s.calls[c].envelope && calls[c].committed == s.calls[c].committed
    requires forall c :: |s.calls| <= c < |calls| ==> !calls[c].committed
    ensures HistoryOk(s.(calls := calls))
  {
    ProjectionIgnoresPhases(s.calls, calls, s.commits);
  }

  lemma CallMoveKeepsHistory(s: State, c: nat, move: CallMove)
    requires CallsOk(s) && HistoryOk(s) && c < |s.calls|
    ensures HistoryOk(NextOfCall(s, c, move))
  {
    var calls := s.calls[c := MoveCall(s.calls[c], move, s.brokerHeld, |s.messages|)];
    MoveKeepsCall(s.calls[c], move, s.brokerHeld, |s.messages|);
    if move.CommitSucceeds? && s.calls[c].phase.Adding? {
      HistoryGrows(s, calls, c);
    } else {
      HistoryStays(s, calls);
    }
  }

  lemma RestartKeepsHistory(s: State, token: bool)
    requires CallsOk(s) && HistoryOk(s)
    ensures HistoryOk(Next(s, Restart(token)))
  {
    var calls := Next(s, Restart(token)).calls;
    forall c | 0 <= c < |s.calls|
      ensures calls[c].committed == s.calls[c].committed && calls[c].envelope == s.calls[c].envelope
    {
      KillKeepsCall(s.calls[c]);
    }
    HistoryStays(s, calls);
  }

  lemma StepKeepsHistory(s: State, step: Step)
    requires CallsOk(s) && HistoryOk(s)
    ensures HistoryOk(Next(s, step))
  {
    match step
    case Recorder(c, move) => if c < |s.calls| { CallMoveKeepsHistory(s, c, move); }
    case Restart(token) => RestartKeepsHistory(s, token);
    case Record(_, _, _) => HistoryStays(s, Next(s, step).calls);
    case _ => QueueStepKeepsRecords(s, step);
  }

  // -- the queue --

  lemma MoveKeepsHandler(att: Attempt, hasToken: bool, move: HandlerMove)
    requires HandlerOk(att)
    ensures var att' := MoveAttempt(att, hasToken, move);
            && HandlerOk(att') && att'.message == att.message && att'.release == att.release
            && (Accepted(att) ==> Accepted(att'))
            && (att.phase.Settled? ==> att'.phase == att.phase)
            && (att'.gaveUp ==> att.gaveUp || move.SendFails?)
  {
  }

  lemma KillKeepsHandler(att: Attempt)
    requires HandlerOk(att)
    ensures var att' := KillAttempt(att);
            && HandlerOk(att') && att' == att.(phase := att'.phase)
            && (att.phase.Finished? || att.phase.Settled? ==> att' == att)
  {
  }

  /** Handlers may move on by themselves without disturbing the queue. */
  lemma HandlerMovesKeepQueue(s: State, attempts: seq<Attempt>)
    requires QueueOk(s) && |attempts| == |s.attempts|
    requires forall a :: 0 <= a < |attempts| ==>
               && HandlerOk(attempts[a])
               && attempts[a].message == s.attempts[a].message && attempts[a].release == s.attempts[a].release
               && (s.attempts[a].phase.Settled? ==> attempts[a].phase == s.attempts[a].phase)
    ensures QueueOk(s.(attempts := attempts))
  {
    var s' := s.(attempts := attempts);
    forall m | 0 <= m < |s'.messages|
      ensures MessageOk(s', m)
    {
      assert MessageOk(s, m);
    }
    forall b | 0 <= b < |attempts|
      ensures AttemptOk(s', b)
    {
      assert AttemptOk(s, b);
    }
  }

  lemma UnleaseKeepsQueue(s: State, m: nat, why: Release)
    requires QueueOk(s) && m < |s.messages| && !why.Held?
    requires why.Nacked? && s.messages[m].lease.Some? ==>
               s.messages[m].lease.value.attempt < |s.attempts|
               && s.attempts[s.messages[m].lease.value.attempt].phase == Settled(false)
    ensures QueueOk(Unlease(s, m, why))
  {
    var s' := Unlease(s, m, why);
    assert MessageOk(s, m);
    forall n | 0 <= n < |s'.messages|
      ensures MessageOk(s', n)
    {
      assert MessageOk(s, n);
    }
    forall b | 0 <= b < |s'.attempts|
      ensures AttemptOk(s', b)
    {
      assert AttemptOk(s, b);
    }
  }

  lemma AckKeepsQueue(s: State, m: nat, a: nat)
    requires QueueOk(s) && m < |s.messages| && a < |s.attempts|
    requires s.attempts[a].phase == Settled(true) && s.attempts[a].message == m
    ensures QueueOk(Ack(s, m, a))
  {
    var s' := Ack(s, m, a);
    forall n | 0 <= n < |s'.messages|
      ensures MessageOk(s', n)
    {
      assert MessageOk(s, n);
    }
    forall b | 0 <= b < |s'.attempts|
      ensures AttemptOk(s', b)
    {
      assert AttemptOk(s, b);
    }
  }

  lemma HandlerStepKeepsQueue(s: State, a: nat, move: HandlerMove)
    requires QueueOk(s) && a < |s.attempts|
    ensures QueueOk(NextOfHandler(s, a, move))
  {
    forall b | 0 <= b < |s.attempts|
      ensures HandlerOk(s.attempts[b])
    {
      assert AttemptOk(s, b);
    }
    var att, att' := s.attempts[a], MoveAttempt(s.attempts[a], s.hasToken, move);
    MoveKeepsHandler(att, s.hasToken, move);
    HandlerMovesKeepQueue(s, s.attempts[a := att']);
    if move.SettlementArrives? && att.phase.Finished? {
      var s' := s.(attempts := s.attempts[a := att']);
      assert AttemptOk(s, a);
      if att.phase.ack {
        AckKeepsQueue(s', att.message, a);
      } else if s.messages[att.message].lease.Some? {
        assert MessageOk(s, att.message);
        UnleaseKeepsQueue(s', att.message,
                          if s.messages[att.message].lease.value.attempt == a then Nacked else Superseded);
      }
    }
  }

  lemma DeliverKeepsQueue(s: State, m: nat)
    requires QueueOk(s)
    ensures QueueOk(Next(s, Deliver(m)))
  {
    var s' := Next(s, Deliver(m));
    forall n | 0 <= n < |s'.messages|
      ensures MessageOk(s', n)
    {
      assert MessageOk(s, n);
    }
    forall b | 0 <= b < |s'.attempts|
      ensures AttemptOk(s', b)
    {
      assert b < |s.attempts| ==> AttemptOk(s, b);
    }
  }

  lemma RestartKeepsQueue(s: State, token: bool)
    requires QueueOk(s)
    ensures QueueOk(Next(s, Restart(token)))
  {
    var attempts := Next(s, Restart(token)).attempts;
    forall a | 0 <= a < |attempts|
      ensures HandlerOk(attempts[a]) && attempts[a].message == s.attempts[a].message
              && attempts[a].release == s.attempts[a].release
      ensures s.attempts[a].phase.Settled? ==> attempts[a] == s.attempts[a]
    {
      assert AttemptOk(s, a);
      KillKeepsHandler(s.attempts[a]);
    }
    HandlerMovesKeepQueue(s, attempts);
    QuietStepKeepsQueue(s.(attempts := attempts), Next(s, Restart(token)));
  }

  lemma QuietStepKeepsQueue(s: State, s': State)
    requires QueueOk(s)
    requires s'.attempts == s.attempts && s'.clock >= s.clock && |s.messages| <= |s'.messages|
    requires forall m :: 0 <= m < |s.messages| ==> s'.messages[m] == s.messages[m]
    requires forall m :: |s.messages| <= m < |s'.messages| ==>
               s'.messages[m].ackedBy.None? && s'.messages[m].lease.None?
    ensures QueueOk(s')
  {
    forall n | 0 <= n < |s'.messages|
      ensures MessageOk(s', n)
    {
      assert n < |s.messages| ==> MessageOk(s, n);
    }
    forall b | 0 <= b < |s'.attempts|
      ensures AttemptOk(s', b)
    {
      assert AttemptOk(s, b);
    }
  }

  lemma StepKeepsQueue(s: State, step: Step)
    requires QueueOk(s)
    ensures QueueOk(Next(s, step))
  {
    match step
    case Expire(m) => if m < |s.messages| && Due(s, m) { UnleaseKeepsQueue(s, m, Expired); }
    case Deliver(m) => DeliverKeepsQueue(s, m);
    case Restart(token) => RestartKeepsQueue(s, token);
    case Handler(a, move) => if a < |s.attempts| { HandlerStepKeepsQueue(s, a, move); }
    case _ => QuietStepKeepsQueue(s, Next(s, step));
  }

  /** Every delivery keeps its message, and once taken back stays so, with one new delivery at most. */
  predicate ReleasesGrow(attempts: seq<Attempt>, attempts': seq<Attempt>) {
    && |attempts| <= |attempts'|
    && (forall a :: 0 <= a < |attempts| ==>
          && attempts'[a].message == attempts[a].message
          && (attempts'[a].release.Held? ==> attempts[a].release.Held?))
  }

  lemma HandlerStepReleases(s: State, a: nat, move: HandlerMove)
    requires a < |s.attempts|
    ensures ReleasesGrow(s.attempts, NextOfHandler(s, a, move).attempts)
    ensures |NextOfHandler(s, a, move).attempts| == |s.attempts|
  {
  }

  lemma StepReleases(s: State, step: Step)
    ensures ReleasesGrow(s.attempts, Next(s, step).attempts)
    ensures |Next(s, step).attempts| > |s.attempts| ==>
              && step.Deliver? && step.m < |s.messages|
              && s.messages[step.m].ackedBy.None? && s.messages[step.m].lease.None?
              && Next(s, step).attempts == s.attempts + [Attempt(step.m, Entered, NoRequest, false, Held)]
  {
    if step.Handler? && step.a < |s.attempts| {
      HandlerStepReleases(s, step.a, step.move);
    }
  }

  lemma StepKeepsOneHolder(s: State, step: Step)
    requires QueueOk(s) && OneHolder(s.attempts)
    ensures OneHolder(Next(s, step).attempts)
  {
    StepReleases(s, step);
    HoldersStayUnique(s, Next(s, step).attempts, step);
  }

  lemma HoldersStayUnique(s: State, attempts: seq<Attempt>, step: Step)
    requires QueueOk(s) && OneHolder(s.attempts) && ReleasesGrow(s.attempts, attempts)
    requires |attempts| > |s.attempts| ==>
               && step.Deliver? && step.m < |s.messages|
               && s.messages[step.m].ackedBy.None? && s.messages[step.m].lease.None?
               && attempts == s.attempts + [Attempt(step.m, Entered, NoRequest, false, Held)]
    ensures OneHolder(attempts)
  {
    forall a, b | 0 <= a < b < |attempts| && attempts[a].message == attempts[b].message
      ensures !attempts[a].release.Held?
    {
      assert AttemptOk(s, a);
    }
  }

  lemma {:induction false} RunKeepsInv(s: State, steps: seq<Step>)
    requires Inv(s)
    ensures Inv(Run(s, steps))
  {
    if steps == [] {
    } else {
      var before, step := Run(s, steps[..|steps| - 1]), steps[|steps| - 1];
      RunKeepsInv(s, steps[..|steps| - 1]);
      StepKeepsCalls(before, step);
      StepKeepsHistory(before, step);
      StepKeepsQueue(before, step);
      StepKeepsOneHolder(before, step);
    }
  }
}
