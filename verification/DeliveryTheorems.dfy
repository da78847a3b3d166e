/** What the delivery machine guarantees over all its runs. */
module DeliveryTheorems {
  import opened Domain
  import opened ServerClient
  import opened Delivery

  lemma ReachableInv(hasToken: bool, ackWait: nat, steps: seq<Step>)
    ensures Inv(Run(Init(hasToken, ackWait), steps))
  {
    RunKeepsInv(Init(hasToken, ackWait), steps);
  }

  lemma {:induction false} RunAppend(s: State, a: seq<Step>, b: seq<Step>)
    ensures Run(s, a + b) == Run(Run(s, a), b)
  {
    if b == [] {
      assert a + b == a;
    } else {
      RunAppend(s, a, b[..|b| - 1]);
      assert (a + b)[..|a + b| - 1] == a + b[..|b| - 1];
    }
  }

  lemma RunOne(s: State, a: Step)
    ensures Run(s, [a]) == Next(s, a)
  {
    assert [a][..0] == [];
    assert Run(s, []) == s;
  }

  lemma RunTwo(s: State, a: Step, b: Step)
    ensures Run(s, [a, b]) == Next(Next(s, a), b)
  {
    assert [a, b][..1] == [a];
    RunOne(s, a);
  }

  lemma RunThree(s: State, a: Step, b: Step, c: Step)
    ensures Run(s, [a, b, c]) == Next(Next(Next(s, a), b), c)
  {
    assert [a, b, c][..2] == [a, b];
    RunTwo(s, a, b);
  }

  // ---- Nothing is lost ----

  predicate AcceptedFor(s: State, m: nat, a: nat) {
    a < |s.attempts| && s.attempts[a].message == m && Accepted(s.attempts[a])
  }

  /** Every event whose publish returned true is exactly one message of the stream, and that
      message is still unacknowledged or the server has accepted it. */
  lemma NothingIsLost(hasToken: bool, ackWait: nat, steps: seq<Step>, c: nat)
    requires c < |Run(Init(hasToken, ackWait), steps).calls|
             && Run(Init(hasToken, ackWait), steps).calls[c].phase == Returned(true)
    ensures var s := Run(Init(hasToken, ackWait), steps);
            exists m :: 0 <= m < |s.messages| && s.messages[m].call == c
              && (forall n :: 0 <= n < |s.messages| && s.messages[n].call == c ==> n == m)
              && (s.messages[m].ackedBy.None? || exists a: nat :: AcceptedFor(s, m, a))
  {
    ReachableInv(hasToken, ackWait, steps);
    var s := Run(Init(hasToken, ackWait), steps);
    assert CallOk(s.calls[c]);
    var m := s.calls[c].wire.index;
    assert MessageOk(s, m);
    if s.messages[m].ackedBy.Some? {
      AckedWasAccepted(hasToken, ackWait, steps, m);
    }
    forall n | 0 <= n < |s.messages| && s.messages[n].call == c
      ensures n == m
    {
      assert s.calls[c].wire == Stored(n);
    }
  }

  /** The stream forgets a message only when a handler saw the server accept it. */
  lemma AckedWasAccepted(hasToken: bool, ackWait: nat, steps: seq<Step>, m: nat)
    requires var s := Run(Init(hasToken, ackWait), steps); m < |s.messages| && s.messages[m].ackedBy.Some?
    ensures var s := Run(Init(hasToken, ackWait), steps);
            var a := s.messages[m].ackedBy.value;
            AcceptedFor(s, m, a) && !s.attempts[a].gaveUp && s.attempts[a].phase == Settled(true)
  {
    ReachableInv(hasToken, ackWait, steps);
    InvAckedWasAccepted(Run(Init(hasToken, ackWait), steps), m);
  }

  lemma InvAckedWasAccepted(s: State, m: nat)
    requires QueueOk(s) && m < |s.messages| && s.messages[m].ackedBy.Some?
    ensures var a := s.messages[m].ackedBy.value;
            AcceptedFor(s, m, a) && !s.attempts[a].gaveUp && s.attempts[a].phase == Settled(true)
  {
    assert MessageOk(s, m);
    assert AttemptOk(s, s.messages[m].ackedBy.value);
  }

  /** Stored messages stay, in place and for the same event; acknowledgements are final. */
  predicate Extends(s: State, s': State) {
    && |s.calls| <= |s'.calls| && |s.messages| <= |s'.messages| && |s.attempts| <= |s'.attempts|
    && (forall c :: 0 <= c < |s.calls| ==> s'.calls[c].envelope == s.calls[c].envelope)
    && (forall m :: 0 <= m < |s.messages| ==>
          && s'.messages[m].call == s.messages[m].call
          && (s.messages[m].ackedBy.Some? ==> s'.messages[m].ackedBy == s.messages[m].ackedBy))
    && (forall a :: 0 <= a < |s.attempts| ==>
          && s'.attempts[a].message == s.attempts[a].message
          && (Accepted(s.attempts[a]) ==> Accepted(s'.attempts[a])))
    && s.history <= s'.history
  }

  lemma HandlerStepExtends(s: State, a: nat, move: HandlerMove)
    requires QueueOk(s) && a < |s.attempts|
    ensures Extends(s, NextOfHandler(s, a, move))
  {
    assert AttemptOk(s, a);
    MoveKeepsHandler(s.attempts[a], s.hasToken, move);
  }

  lemma CallStepExtends(s: State, c: nat, move: CallMove)
    requires c < |s.calls|
    ensures Extends(s, NextOfCall(s, c, move))
  {
  }

  lemma StepExtends(s: State, step: Step)
    requires QueueOk(s)
    ensures Extends(s, Next(s, step))
  {
    match step
    case Handler(a, move) => if a < |s.attempts| { HandlerStepExtends(s, a, move); }
    case Recorder(c, move) => if c < |s.calls| { CallStepExtends(s, c, move); }
    case _ =>
  }

  lemma {:induction false} RunExtends(s: State, steps: seq<Step>)
    requires Inv(s)
    ensures Extends(s, Run(s, steps))
  {
    if steps == [] {
    } else {
      RunExtends(s, steps[..|steps| - 1]);
      RunKeepsInv(s, steps[..|steps| - 1]);
      StepExtends(Run(s, steps[..|steps| - 1]), steps[|steps| - 1]);
    }
  }

  // ---- Write-ahead ----

  predicate At(rows: seq<Row>, k: nat, part: seq<Row>) {
    k + |part| <= |rows| && rows[k..k + |part|] == part
  }

  lemma {:induction false} CommittedRowsAreThere(calls: seq<Call>, commits: seq<nat>, c: nat)
    requires c in commits && c < |calls|
    ensures exists k: nat :: At(Projection(calls, commits), k, Rows(calls[c].envelope.payload))
  {
    var init, last := commits[..|commits| - 1], commits[|commits| - 1];
    var rows, before := Rows(calls[c].envelope.payload), Projection(calls, init);
    if last == c {
      assert Projection(calls, commits) == before + rows;
      assert At(before + rows, |before|, rows);
    } else {
      CommittedRowsAreThere(calls, init, c);
      var k: nat :| At(before, k, rows);
      assert before <= Projection(calls, commits);
      assert At(Projection(calls, commits), k, rows);
    }
  }

  /** Whatever is in the stream, and hence whatever the server ever accepts, has its rows in the
      committed history already. */
  lemma WriteAhead(hasToken: bool, ackWait: nat, steps: seq<Step>, m: nat)
    requires m < |Run(Init(hasToken, ackWait), steps).messages|
    ensures var s := Run(Init(hasToken, ackWait), steps);
            && s.messages[m].call < |s.calls|
            && exists k: nat :: At(s.history, k, Rows(s.calls[s.messages[m].call].envelope.payload))
  {
    ReachableInv(hasToken, ackWait, steps);
    var s := Run(Init(hasToken, ackWait), steps);
    var c := s.messages[m].call;
    assert CallOk(s.calls[c]);
    CommittedRowsAreThere(s.calls, s.commits, c);
  }

  /** History is the rows of the committed record calls, each once, in commit order: publishing
      or failing to publish leaves no trace in it. */
  lemma HistoryIsTheCommittedCalls(hasToken: bool, ackWait: nat, steps: seq<Step>)
    ensures var s := Run(Init(hasToken, ackWait), steps);
            && s.history == Projection(s.calls, s.commits)
            && (forall i, j :: 0 <= i < j < |s.commits| ==> s.commits[i] != s.commits[j])
            && (forall c :: 0 <= c < |s.calls| ==>
                  (c in s.commits <==> s.calls[c].committed)
                  && (s.calls[c].phase.Returned? || !s.calls[c].wire.Unsent? ==> c in s.commits)
                  && (s.calls[c].phase.Raised? || s.calls[c].phase.Adding? ==> c !in s.commits))
  {
    ReachableInv(hasToken, ackWait, steps);
    var s := Run(Init(hasToken, ackWait), steps);
    forall c | 0 <= c < |s.calls|
      ensures (c in s.commits <==> s.calls[c].committed)
      ensures s.calls[c].phase.Returned? || !s.calls[c].wire.Unsent? ==> c in s.commits
      ensures s.calls[c].phase.Raised? || s.calls[c].phase.Adding? ==> c !in s.commits
    {
      assert CallOk(s.calls[c]);
    }
  }

  // ---- Duplicates ----

  function AcceptedCount(attempts: seq<Attempt>, m: nat): nat {
    if attempts == [] then 0
    else
      var last := attempts[|attempts| - 1];
      AcceptedCount(attempts[..|attempts| - 1], m) + if last.message == m && Accepted(last) then 1 else 0
  }

  /** Accepted, yet the stream took the message back: the handler gave up on the reply before it
      nacked, or the lease ran out, or a stale negative acknowledgement cut it short. */
  predicate Excused(a: Attempt) {
    Accepted(a) && (a.gaveUp || a.release.Expired? || a.release.Superseded?)
  }

  function ExcusedCount(attempts: seq<Attempt>, m: nat): nat {
    if attempts == [] then 0
    else
      var last := attempts[|attempts| - 1];
      ExcusedCount(attempts[..|attempts| - 1], m) + if last.message == m && Excused(last) then 1 else 0
  }

  predicate ReleasedAreExcused(attempts: seq<Attempt>) {
    forall a :: 0 <= a < |attempts| && Accepted(attempts[a]) && !attempts[a].release.Held? ==> Excused(attempts[a])
  }

  lemma {:induction false} AllReleasedCount(attempts: seq<Attempt>, m: nat)
    requires ReleasedAreExcused(attempts)
    requires forall a :: 0 <= a < |attempts| && attempts[a].message == m ==> !attempts[a].release.Held?
    ensures AcceptedCount(attempts, m) == ExcusedCount(attempts, m)
  {
    if attempts == [] {
    } else {
      AllReleasedCount(attempts[..|attempts| - 1], m);
    }
  }

  lemma {:induction false} OneUnexcused(attempts: seq<Attempt>, m: nat)
    requires OneHolder(attempts) && ReleasedAreExcused(attempts)
    ensures ExcusedCount(attempts, m) <= AcceptedCount(attempts, m) <= ExcusedCount(attempts, m) + 1
  {
    if attempts == [] {
    } else {
      var init, last := attempts[..|attempts| - 1], attempts[|attempts| - 1];
      if last.message == m {
        AllReleasedCount(init, m);
      } else {
        OneUnexcused(init, m);
      }
    }
  }

  /** The server accepts a message at most once more than the number of acceptances the agent
      could not use. */
  lemma DuplicatesAreExcused(hasToken: bool, ackWait: nat, steps: seq<Step>, m: nat)
    ensures var attempts := Run(Init(hasToken, ackWait), steps).attempts;
            AcceptedCount(attempts, m) <= ExcusedCount(attempts, m) + 1
  {
    ReachableInv(hasToken, ackWait, steps);
    var s := Run(Init(hasToken, ackWait), steps);
    InvReleasedAreExcused(s);
    OneUnexcused(s.attempts, m);
  }

  lemma InvReleasedAreExcused(s: State)
    requires QueueOk(s)
    ensures ReleasedAreExcused(s.attempts)
  {
    forall a | 0 <= a < |s.attempts| && Accepted(s.attempts[a]) && !s.attempts[a].release.Held?
      ensures Excused(s.attempts[a])
    {
      assert AttemptOk(s, a);
    }
  }

  lemma {:induction false} SomeAccepted(attempts: seq<Attempt>, m: nat, a: nat)
    requires a < |attempts| && attempts[a].message == m && Accepted(attempts[a])
    ensures AcceptedCount(attempts, m) >= 1
  {
    if a == |attempts| - 1 {
    } else {
      SomeAccepted(attempts[..|attempts| - 1], m, a);
    }
  }

  lemma {:induction false} NoneExcused(attempts: seq<Attempt>, m: nat)
    requires forall a :: 0 <= a < |attempts| ==> !Excused(attempts[a])
    ensures ExcusedCount(attempts, m) == 0
  {
    if attempts == [] {
    } else {
      NoneExcused(attempts[..|attempts| - 1], m);
    }
  }

  // ---- Exactly once ----

  predicate Fresh(s: State) {
    forall m :: 0 <= m < |s.messages| && s.messages[m].lease.Some? ==> !Due(s, m)
  }

  /** The agent gives up on a request the server has accepted, or the server accepts one that the
      agent has given up on. A request that is refused or times out unaccepted is neither. */
  predicate Ambiguous(s: State, step: Step) {
    step.Handler? && step.a < |s.attempts| &&
    var att := s.attempts[step.a];
    || (step.move.SendFails? && att.phase.AwaitingReply? && Accepted(att))
    || (step.move.ServerAnswers? && att.request.OnWire? && att.gaveUp && Send(Response(step.move.status)).Delivered?)
  }

  /** Time never runs past the lease of a message in flight, and no request ends ambiguously. */
  predicate Prompt(s: State, steps: seq<Step>) {
    steps == [] ||
    var before, step := Run(s, steps[..|steps| - 1]), steps[|steps| - 1];
    && Prompt(s, steps[..|steps| - 1])
    && !Ambiguous(before, step)
    && (step.Tick? ==> Fresh(Next(before, step)))
  }

  predicate Usable(a: Attempt) {
    (Accepted(a) ==> !a.gaveUp) && (a.release.Held? || a.release.Nacked?)
  }

  predicate Undisturbed(s: State) {
    forall a :: 0 <= a < |s.attempts| ==> Usable(s.attempts[a])
  }

  lemma {:induction false} PromptStaysUndisturbed(s: State, steps: seq<Step>)
    requires Inv(s) && Fresh(s) && Undisturbed(s) && s.ackWait > 0 && Prompt(s, steps)
    ensures var s' := Run(s, steps); Fresh(s') && Undisturbed(s') && s'.ackWait == s.ackWait
  {
    if steps == [] {
    } else {
      var before, step := Run(s, steps[..|steps| - 1]), steps[|steps| - 1];
      PromptStaysUndisturbed(s, steps[..|steps| - 1]);
      RunKeepsInv(s, steps[..|steps| - 1]);
      PromptStep(before, step);
    }
  }

  lemma MoveStaysUsable(s: State, a: nat, move: HandlerMove)
    requires QueueOk(s) && a < |s.attempts| && Usable(s.attempts[a]) && !Ambiguous(s, Handler(a, move))
    ensures Usable(MoveAttempt(s.attempts[a], s.hasToken, move))
  {
    assert AttemptOk(s, a);
  }

  lemma PromptHandlerStep(s: State, a: nat, move: HandlerMove)
    requires QueueOk(s) && Fresh(s) && Undisturbed(s) && a < |s.attempts| && !Ambiguous(s, Handler(a, move))
    ensures Fresh(NextOfHandler(s, a, move)) && Undisturbed(NextOfHandler(s, a, move))
  {
    MoveStaysUsable(s, a, move);
    assert AttemptOk(s, a);
    assert MessageOk(s, s.attempts[a].message);
  }

  lemma PromptRestart(s: State, token: bool)
    requires Fresh(s) && Undisturbed(s)
    ensures Fresh(Next(s, Restart(token))) && Undisturbed(Next(s, Restart(token)))
  {
    var s' := Next(s, Restart(token));
    forall a | 0 <= a < |s'.attempts|
      ensures Usable(s'.attempts[a])
    {
      assert Usable(s.attempts[a]);
    }
  }

  lemma PromptStep(s: State, step: Step)
    requires QueueOk(s) && Fresh(s) && Undisturbed(s) && s.ackWait > 0
    requires !Ambiguous(s, step) && (step.Tick? ==> Fresh(Next(s, step)))
    ensures Fresh(Next(s, step)) && Undisturbed(Next(s, step)) && Next(s, step).ackWait == s.ackWait
  {
    match step
    case Handler(a, move) => if a < |s.attempts| { PromptHandlerStep(s, a, move); }
    case Restart(token) => PromptRestart(s, token);
    case _ =>
  }

  /** In a prompt run no message is accepted twice, and every acknowledged one exactly once. */
  lemma PromptRunsDeliverExactlyOnce(hasToken: bool, ackWait: nat, steps: seq<Step>, m: nat)
    requires ackWait > 0 && Prompt(Init(hasToken, ackWait), steps)
    requires m < |Run(Init(hasToken, ackWait), steps).messages|
    ensures var s := Run(Init(hasToken, ackWait), steps);
            && AcceptedCount(s.attempts, m) <= 1
            && (s.messages[m].ackedBy.Some? ==> AcceptedCount(s.attempts, m) == 1)
  {
    ReachableInv(hasToken, ackWait, steps);
    PromptStaysUndisturbed(Init(hasToken, ackWait), steps);
    var s := Run(Init(hasToken, ackWait), steps);
    NoneExcused(s.attempts, m);
    DuplicatesAreExcused(hasToken, ackWait, steps, m);
    if s.messages[m].ackedBy.Some? {
      AckedWasAccepted(hasToken, ackWait, steps, m);
      SomeAccepted(s.attempts, m, s.messages[m].ackedBy.value);
    }
  }

  // ---- What a duplicate costs ----

  /** The step makes the agent give up on an accepted request for `m`, lets the server accept one it
      gave up on or lost the lease of, or takes the lease of `m` from an accepted delivery. */
  predicate Wastes(s: State, step: Step, m: nat) {
    match step
    case Handler(a, move) =>
      a < |s.attempts| && s.attempts[a].message == m &&
      var att := s.attempts[a];
      (match move
       case SendFails => att.phase.AwaitingReply? && Accepted(att)
       case ServerAnswers(status) =>
         && att.request.OnWire? && Send(Response(status)).Delivered?
         && (att.gaveUp || att.release.Expired? || att.release.Superseded?)
       case SettlementArrives =>
         att.phase == Finished(false) && HeldByAccepted(s, m) && s.messages[m].lease.value.attempt != a
       case _ => false)
    case Expire(n) => n == m && HeldByAccepted(s, m) && Due(s, m)
    case _ => false
  }

  predicate HeldByAccepted(s: State, m: nat) {
    && m < |s.messages| && s.messages[m].lease.Some?
    && s.messages[m].lease.value.attempt < |s.attempts|
    && Accepted(s.attempts[s.messages[m].lease.value.attempt])
  }

  function WastedSteps(s: State, steps: seq<Step>, m: nat): nat {
    if steps == [] then 0
    else
      var before := steps[..|steps| - 1];
      WastedSteps(s, before, m) + if Wastes(Run(s, before), steps[|steps| - 1], m) then 1 else 0
  }

  /** Apart from delivery `k`, no delivery of `m` became excused. */
  predicate ExcusedApartFrom(a: seq<Attempt>, b: seq<Attempt>, m: nat, k: int) {
    && |a| <= |b|
    && (forall i :: 0 <= i < |a| ==> b[i].message == a[i].message)
    && (forall i :: 0 <= i < |a| && i != k && b[i].message == m && Excused(b[i]) ==> Excused(a[i]))
    && (forall i :: |a| <= i < |b| ==> !Excused(b[i]))
  }

  lemma {:induction false} ExcusedOneMore(a: seq<Attempt>, b: seq<Attempt>, m: nat, k: int)
    requires ExcusedApartFrom(a, b, m, k)
    ensures ExcusedCount(b, m) <= ExcusedCount(a, m) + if 0 <= k < |a| then 1 else 0
    decreases |b|
  {
    if |b| == 0 {
    } else if |a| < |b| {
      ExcusedOneMore(a, b[..|b| - 1], m, k);
    } else {
      ExcusedOneMore(a[..|a| - 1], b[..|b| - 1], m, k);
    }
  }

  /** The delivery a step can make excused. */
  function Touched(s: State, step: Step): int {
    match step
    case Expire(n) => HolderOf(s, n)
    case Handler(a, move) =>
      if move.SettlementArrives? && a < |s.attempts| then HolderOf(s, s.attempts[a].message) else a
    case _ => -1
  }

  function HolderOf(s: State, m: nat): int {
    if m < |s.messages| && s.messages[m].lease.Some? then s.messages[m].lease.value.attempt else -1
  }

  lemma MoveTouchesOne(s: State, a: nat, move: HandlerMove, m: nat)
    requires QueueOk(s) && a < |s.attempts|
    ensures var att, att' := s.attempts[a], MoveAttempt(s.attempts[a], s.hasToken, move);
            && att'.message == att.message
            && (att'.message == m && Excused(att') ==>
                  Excused(att) || (!move.SettlementArrives? && Wastes(s, Handler(a, move), m)))
  {
    assert AttemptOk(s, a);
  }

  lemma HandlerTouchesOne(s: State, a: nat, move: HandlerMove, m: nat)
    requires QueueOk(s) && a < |s.attempts|
    ensures ExcusedApartFrom(s.attempts, NextOfHandler(s, a, move).attempts, m,
                             if Wastes(s, Handler(a, move), m) then Touched(s, Handler(a, move)) else -1)
  {
    MoveTouchesOne(s, a, move, m);
    assert AttemptOk(s, a);
    assert MessageOk(s, s.attempts[a].message);
  }

  lemma StepTouchesOne(s: State, step: Step, m: nat)
    requires QueueOk(s)
    ensures ExcusedApartFrom(s.attempts, Next(s, step).attempts, m, if Wastes(s, step, m) then Touched(s, step) else -1)
  {
    match step
    case Handler(a, move) => if a < |s.attempts| { HandlerTouchesOne(s, a, move, m); }
    case Expire(n) => if n < |s.messages| { assert MessageOk(s, n); }
    case _ =>
  }

  lemma {:induction false} ExcusesAreWasted(s: State, steps: seq<Step>, m: nat)
    requires Inv(s)
    ensures ExcusedCount(Run(s, steps).attempts, m) <= ExcusedCount(s.attempts, m) + WastedSteps(s, steps, m)
  {
    if steps == [] {
    } else {
      var before, step := steps[..|steps| - 1], steps[|steps| - 1];
      ExcusesAreWasted(s, before, m);
      RunKeepsInv(s, before);
      var s' := Run(s, before);
      StepTouchesOne(s', step, m);
      ExcusedOneMore(s'.attempts, Next(s', step).attempts, m, if Wastes(s', step, m) then Touched(s', step) else -1);
    }
  }

  /** Every acceptance of a message beyond the first costs one step that wasted an acceptance. */
  lemma DuplicatesCostWastedSteps(hasToken: bool, ackWait: nat, steps: seq<Step>, m: nat)
    ensures var s := Init(hasToken, ackWait);
            AcceptedCount(Run(s, steps).attempts, m) <= 1 + WastedSteps(s, steps, m)
  {
    DuplicatesAreExcused(hasToken, ackWait, steps, m);
    ExcusesAreWasted(Init(hasToken, ackWait), steps, m);
  }

  // ---- Across a restart ----

  predicate Over(call: Call) {
    call.phase.Returned? || call.phase.Raised? || call.phase.Stopped?
  }

  /** The deliveries of `before` have no handler any more: the most that can happen to one is that
      a settlement it has already sent arrives or gets lost. */
  predicate Severed(before: seq<Attempt>, attempts: seq<Attempt>) {
    && |before| <= |attempts|
    && (forall a :: 0 <= a < |before| ==>
          && !before[a].phase.Entered? && !before[a].phase.AwaitingReply?
          && (attempts[a].phase == before[a].phase
              || (before[a].phase.Finished? && attempts[a].phase == Settled(before[a].phase.ack))))
  }

  /** Whoever acknowledged a message since `s` is a later delivery, or one that had sent its
      acknowledgement by then. */
  predicate NewAcksOnly(s: State, s': State) {
    forall m :: 0 <= m < |s'.messages| && s'.messages[m].ackedBy.Some? ==>
      || (m < |s.messages| && s.messages[m].ackedBy == s'.messages[m].ackedBy)
      || s'.messages[m].ackedBy.value >= |s.attempts|
      || s.attempts[s'.messages[m].ackedBy.value].phase == Finished(true)
  }

  lemma SpentMove(att: Attempt, hasToken: bool, move: HandlerMove)
    requires !att.phase.Entered? && !att.phase.AwaitingReply?
    ensures var phase := MoveAttempt(att, hasToken, move).phase;
            phase == att.phase || (att.phase.Finished? && phase == Settled(att.phase.ack))
  {
  }

  lemma SeveredHandlerStep(s: State, s': State, a: nat, move: HandlerMove)
    requires Severed(s.attempts, s'.attempts) && a < |s'.attempts|
    ensures Severed(s.attempts, NextOfHandler(s', a, move).attempts)
  {
    if a < |s.attempts| {
      SpentMove(s'.attempts[a], s'.hasToken, move);
    }
  }

  lemma SeveredAck(s: State, s': State, a: nat, move: HandlerMove)
    requires Severed(s.attempts, s'.attempts) && NewAcksOnly(s, s') && a < |s'.attempts|
    ensures NewAcksOnly(s, NextOfHandler(s', a, move))
  {
    var att, t := s'.attempts[a], NextOfHandler(s', a, move);
    forall m | 0 <= m < |t.messages| && t.messages[m].ackedBy.Some?
      ensures t.messages[m].ackedBy == s'.messages[m].ackedBy
              || (t.messages[m].ackedBy == Some(a) && att.phase == Finished(true))
    {
    }
  }

  lemma SeveredRestart(s: State, s': State, token: bool)
    requires Severed(s.attempts, s'.attempts) && NewAcksOnly(s, s')
    ensures Severed(s.attempts, Next(s', Restart(token)).attempts) && NewAcksOnly(s, Next(s', Restart(token)))
  {
  }

  lemma SeveredStep(s: State, s': State, step: Step)
    requires Severed(s.attempts, s'.attempts) && NewAcksOnly(s, s')
    ensures Severed(s.attempts, Next(s', step).attempts) && NewAcksOnly(s, Next(s', step))
  {
    match step
    case Handler(a, move) => if a < |s'.attempts| { SeveredHandlerStep(s, s', a, move); SeveredAck(s, s', a, move); }
    case Restart(token) => SeveredRestart(s, s', token);
    case _ =>
  }

  lemma {:induction false} SeveredRun(s: State, steps: seq<Step>)
    requires Severed(s.attempts, s.attempts)
    ensures Severed(s.attempts, Run(s, steps).attempts) && NewAcksOnly(s, Run(s, steps))
  {
    if steps == [] {
    } else {
      SeveredRun(s, steps[..|steps| - 1]);
      SeveredStep(s, Run(s, steps[..|steps| - 1]), steps[|steps| - 1]);
    }
  }

  /** A restart ends every record call and every handler: a message that was not acknowledged before
      it can only be acknowledged by a delivery made after it, or by an acknowledgement that was
      already on its way. */
  lemma RestartSeversDeliveries(s: State, token: bool, steps: seq<Step>)
    ensures forall c :: 0 <= c < |s.calls| ==> Over(Next(s, Restart(token)).calls[c])
    ensures NewAcksOnly(s, Run(Next(s, Restart(token)), steps))
  {
    SeveredRun(Next(s, Restart(token)), steps);
  }

  predicate AckedBy(s: State, m: nat, a: nat) {
    m < |s.messages| && s.messages[m].ackedBy == Some(a)
  }

  ghost predicate CanStillAck(s: State, m: nat, a: nat) {
    exists steps :: AckedBy(Run(s, steps), m, a)
  }

  lemma SettlementAcks(s: State, a: nat)
    requires a < |s.attempts| && s.attempts[a].phase == Finished(true) && s.attempts[a].message < |s.messages|
    requires s.messages[s.attempts[a].message].ackedBy.None?
    ensures AckedBy(Next(s, Handler(a, SettlementArrives)), s.attempts[a].message, a)
  {
  }

  /** Of the deliveries made before a restart, exactly those that had sent their acknowledgement
      can still remove their message. */
  lemma OldDeliveryAcksIffSent(s: State, token: bool, a: nat)
    requires a < |s.attempts| && s.attempts[a].message < |s.messages|
    requires s.messages[s.attempts[a].message].ackedBy.None?
    ensures CanStillAck(Next(s, Restart(token)), s.attempts[a].message, a) <==> s.attempts[a].phase == Finished(true)
  {
    var m, s' := s.attempts[a].message, Next(s, Restart(token));
    if s.attempts[a].phase == Finished(true) {
      RunOne(s', Handler(a, SettlementArrives));
      SettlementAcks(s', a);
      assert AckedBy(Run(s', [Handler(a, SettlementArrives)]), m, a);
    } else {
      forall steps
        ensures !AckedBy(Run(s', steps), m, a)
      {
        RestartSeversDeliveries(s, token, steps);
      }
    }
  }

  // ---- Without a token ----

  /** No request left the agent since `s`. */
  predicate NothingSent(s: State, s': State) {
    && !s'.hasToken && |s.attempts| <= |s'.attempts|
    && (forall a :: 0 <= a < |s'.attempts| && (a < |s.attempts| ==> s.attempts[a].request.NoRequest?) ==>
          s'.attempts[a].request.NoRequest?)
  }

  lemma SilentHandlerStep(s: State, s': State, a: nat, move: HandlerMove)
    requires NothingSent(s, s') && a < |s'.attempts|
    ensures NothingSent(s, NextOfHandler(s', a, move))
  {
  }

  lemma NothingSentStep(s: State, s': State, step: Step)
    requires NothingSent(s, s') && step != Restart(true)
    ensures NothingSent(s, Next(s', step))
  {
    match step
    case Handler(a, move) => if a < |s'.attempts| { SilentHandlerStep(s, s', a, move); }
    case _ =>
  }

  lemma {:induction false} NothingSentRun(s: State, steps: seq<Step>)
    requires !s.hasToken && forall i :: 0 <= i < |steps| ==> steps[i] != Restart(true)
    ensures NothingSent(s, Run(s, steps))
  {
    if steps == [] {
    } else {
      NothingSentRun(s, steps[..|steps| - 1]);
      NothingSentStep(s, Run(s, steps[..|steps| - 1]), steps[|steps| - 1]);
    }
  }

  lemma SilentDeliveriesAckNothing(s: State, s': State, m: nat)
    requires QueueOk(s') && NothingSent(s, s') && m < |s'.messages| && s'.messages[m].ackedBy.Some?
    ensures s'.messages[m].ackedBy.value < |s.attempts|
  {
    InvAckedWasAccepted(s', m);
  }

  /** From the moment the agent runs without a token until it gets one, no request leaves it, and a
      message is acknowledged only if that acknowledgement was on its way before. */
  lemma NoTokenNothingLeaves(s: State, steps: seq<Step>)
    requires Inv(s) && forall i :: 0 <= i < |steps| ==> steps[i] != Restart(true)
    ensures var s' := Run(Next(s, Restart(false)), steps);
            && NothingSent(s, s')
            && (forall m :: 0 <= m < |s'.messages| && s'.messages[m].ackedBy.Some? ==>
                  || (m < |s.messages| && s.messages[m].ackedBy == s'.messages[m].ackedBy)
                  || (s'.messages[m].ackedBy.value < |s.attempts|
                      && s.attempts[s'.messages[m].ackedBy.value].phase == Finished(true)))
  {
    var s0 := Next(s, Restart(false));
    var s' := Run(s0, steps);
    NothingSentRun(s0, steps);
    assert NothingSent(s, s');
    RestartSeversDeliveries(s, false, steps);
    assert QueueOk(s') by {
      RunOne(s, Restart(false));
      RunKeepsInv(s, [Restart(false)]);
      RunKeepsInv(s0, steps);
    }
    forall m | 0 <= m < |s'.messages| && s'.messages[m].ackedBy.Some?
      ensures s'.messages[m].ackedBy.value < |s.attempts|
    {
      SilentDeliveriesAckNothing(s, s', m);
    }
  }

  /** An agent that never had a token sends nothing, and everything stored stays in the stream. */
  lemma NoTokenEver(ackWait: nat, steps: seq<Step>, m: nat)
    requires forall i :: 0 <= i < |steps| ==> steps[i] != Restart(true)
    requires m < |Run(Init(false, ackWait), steps).messages|
    ensures var s := Run(Init(false, ackWait), steps);
            && s.messages[m].ackedBy.None?
            && forall a :: 0 <= a < |s.attempts| ==> s.attempts[a].request.NoRequest?
  {
    var s := Init(false, ackWait);
    assert Next(s, Restart(false)) == s;
    NoTokenNothingLeaves(s, steps);
  }
}
