/** The queue empties under fair schedules, and which events can still reach the server. */
module Draining {
  import opened Domain
  import opened ServerClient
  import opened Delivery
  import opened DeliveryTheorems
  import Forwarder

  // ---- The backlog ----

  function Unacked(messages: seq<Message>): nat {
    if messages == [] then 0
    else Unacked(messages[..|messages| - 1]) + if messages[|messages| - 1].ackedBy.None? then 1 else 0
  }

  predicate NewlyStored(s: State, step: Step) {
    step.Recorder? && step.callMove.StreamStores? && step.c < |s.calls| && s.calls[step.c].wire.Sent?
  }

  predicate NewlyAcked(s: State, step: Step) {
    && step.Handler? && step.move.SettlementArrives? && step.a < |s.attempts|
    && s.attempts[step.a].phase == Finished(true)
    && s.attempts[step.a].message < |s.messages|
    && s.messages[s.attempts[step.a].message].ackedBy.None?
  }

  lemma {:induction false} UnackedSame(a: seq<Message>, b: seq<Message>)
    requires |a| == |b| && forall m :: 0 <= m < |a| ==> (a[m].ackedBy.None? <==> b[m].ackedBy.None?)
    ensures Unacked(a) == Unacked(b)
  {
    if a == [] {
    } else {
      UnackedSame(a[..|a| - 1], b[..|b| - 1]);
    }
  }

  lemma {:induction false} UnackedDrops(a: seq<Message>, b: seq<Message>, m: nat)
    requires |a| == |b| && m < |a| && a[m].ackedBy.None? && b[m].ackedBy.Some?
    requires forall n :: 0 <= n < |a| && n != m ==> (a[n].ackedBy.None? <==> b[n].ackedBy.None?)
    ensures Unacked(a) == Unacked(b) + 1
  {
    if m == |a| - 1 {
      UnackedSame(a[..|a| - 1], b[..|b| - 1]);
    } else {
      UnackedDrops(a[..|a| - 1], b[..|b| - 1], m);
    }
  }

  /** The backlog grows by one per stored message and shrinks by one per first acknowledgement;
      no negative acknowledgement, expiry, loss or restart changes it. */
  lemma BacklogAccounting(s: State, step: Step)
    ensures Unacked(Next(s, step).messages)
         == Unacked(s.messages) + (if NewlyStored(s, step) then 1 else 0) - (if NewlyAcked(s, step) then 1 else 0)
  {
    var s' := Next(s, step);
    if NewlyStored(s, step) {
      assert s'.messages[..|s.messages|] == s.messages;
    } else if NewlyAcked(s, step) {
      UnackedDrops(s.messages, s'.messages, s.attempts[step.a].message);
    } else {
      UnackedSame(s.messages, s'.messages);
    }
  }

  // ---- What a handler does ----

  /** A handler without a token raises at once and sends nothing. With one it sends a request, and then
      ends as the forwarder judges the reply: it returns on a status below 400, and raises on any
      other, on a lost reply and on a timeout. */
  lemma HandlerSettlesAsForwarded(s: State, a: nat, status: nat, flags: Forwarder.Flags)
    requires a < |s.attempts| && s.attempts[a].phase.Entered?
    ensures var started := Run(s, [Handler(a, Starts)]).attempts;
            && |started| == |s.attempts|
            && if s.hasToken then started[a].phase.AwaitingReply? && started[a].request.OnWire?
               else started[a].phase == Finished(false) && started[a].request == s.attempts[a].request
    ensures var steps := [Handler(a, Starts), Handler(a, ServerAnswers(status)), Handler(a, ReplyArrives)];
            var replied := Run(s, steps).attempts;
            && |replied| == |s.attempts|
            && replied[a].phase == Finished(Forwarder.Handle(flags, s.hasToken, Response(status)).ack)
            && replied[a].phase == Finished(s.hasToken && status < 400)
    ensures var failed := Run(s, [Handler(a, Starts), Handler(a, SendFails)]).attempts;
            && |failed| == |s.attempts|
            && failed[a].phase == Finished(false)
            && (failed[a].gaveUp <==> s.hasToken || s.attempts[a].gaveUp)
  {
    RunOne(s, Handler(a, Starts));
    RunTwo(s, Handler(a, Starts), Handler(a, SendFails));
    RunThree(s, Handler(a, Starts), Handler(a, ServerAnswers(status)), Handler(a, ReplyArrives));
    Forwarder.FlagsDoNotDecide(flags, Forwarder.INITIAL, s.hasToken, Response(status));
  }

  // ---- What a settlement does ----

  /** All but message `m` and the deliveries `a` and `b` are as before. */
  predicate OnlyTouches(s: State, s': State, m: nat, a: nat, b: nat) {
    && s'.clock == s.clock && s'.calls == s.calls && s'.history == s.history
    && |s'.messages| == |s.messages| && |s'.attempts| == |s.attempts|
    && (forall n :: 0 <= n < |s.messages| && n != m ==> s'.messages[n] == s.messages[n])
    && (forall c :: 0 <= c < |s.attempts| && c != a && c != b ==> s'.attempts[c] == s.attempts[c])
  }

  /** A negative acknowledgement from the delivery that holds its message: from that moment, with no
      time passing, the message is free, and the stream can hand it to a new delivery. */
  lemma NackFreesOwnMessage(s: State, a: nat)
    requires QueueOk(s) && a < |s.attempts| && s.attempts[a].phase == Finished(false)
    requires s.attempts[a].message < |s.messages|
    requires s.messages[s.attempts[a].message].lease.Some?
    requires s.messages[s.attempts[a].message].lease.value.attempt == a
    ensures var s', m, n := Next(s, Handler(a, SettlementArrives)), s.attempts[a].message, |s.attempts|;
            && OnlyTouches(s, s', m, a, a)
            && s'.messages[m].ackedBy.None? && s'.messages[m].lease.None?
            && s'.attempts[a].phase == Settled(false) && s'.attempts[a].release.Nacked?
            && var t := Next(s', Deliver(m));
               && |t.attempts| == n + 1 && t.clock == s.clock
               && t.attempts[n].message == m && t.attempts[n].phase.Entered? && t.attempts[n].release.Held?
               && t.messages[m].lease.Some? && t.messages[m].lease.value.attempt == n
               && t.messages[m].lease.value.since == s.clock
  {
    assert MessageOk(s, s.attempts[a].message);
  }

  /** One from a delivery that has lost its message to a later one takes the message away from that
      one, whose handler goes on none the wiser. */
  lemma StaleNackFreesMessage(s: State, a: nat)
    requires QueueOk(s) && a < |s.attempts| && s.attempts[a].phase == Finished(false)
    requires s.attempts[a].message < |s.messages|
    requires s.messages[s.attempts[a].message].lease.Some?
    requires s.messages[s.attempts[a].message].lease.value.attempt != a
    ensures var s', m := Next(s, Handler(a, SettlementArrives)), s.attempts[a].message;
            var b := s.messages[m].lease.value.attempt;
            && b < |s.attempts| && OnlyTouches(s, s', m, a, b)
            && s'.messages[m].ackedBy.None? && s'.messages[m].lease.None?
            && s'.attempts[a].phase == Settled(false) && s'.attempts[a].release == s.attempts[a].release
            && s'.attempts[b].phase == s.attempts[b].phase && s'.attempts[b].release.Superseded?
            && |Next(s', Deliver(m)).attempts| == |s.attempts| + 1
  {
    assert MessageOk(s, s.attempts[a].message);
  }

  /** A positive one removes the message, whoever holds it by then. */
  lemma AckRemovesMessage(s: State, a: nat)
    requires QueueOk(s) && a < |s.attempts| && s.attempts[a].phase == Finished(true)
    requires s.attempts[a].message < |s.messages| && s.messages[s.attempts[a].message].ackedBy.None?
    ensures var s', m := Next(s, Handler(a, SettlementArrives)), s.attempts[a].message;
            && OnlyTouches(s, s', m, a, a)
            && s'.messages[m].ackedBy == Some(a) && s'.messages[m].lease.None?
            && s'.attempts[a].phase == Settled(true) && s'.attempts[a].release == s.attempts[a].release
            && Next(s', Deliver(m)) == s'
  {
  }

  /** A lease ends once `ackWait` has passed since the message was handed out, and not before. */
  lemma LeaseEndsWhenDue(s: State, m: nat)
    requires QueueOk(s) && m < |s.messages| && s.messages[m].lease.Some?
    ensures var s', b := Next(s, Expire(m)), s.messages[m].lease.value.attempt;
            if s.clock < s.messages[m].lease.value.since + s.ackWait then s' == s
            else
              && b < |s.attempts| && OnlyTouches(s, s', m, b, b)
              && s'.messages[m].ackedBy.None? && s'.messages[m].lease.None?
              && s'.attempts[b].phase == s.attempts[b].phase && s'.attempts[b].release.Expired?
  {
    assert MessageOk(s, m);
  }

  /** A message is handed out exactly when it is in the stream and nobody holds it. */
  lemma DeliveredIffFree(s: State, m: nat)
    ensures |Next(s, Deliver(m)).attempts| == |s.attempts| + 1
       <==> m < |s.messages| && s.messages[m].ackedBy.None? && s.messages[m].lease.None?
    ensures |Next(s, Deliver(m)).attempts| != |s.attempts| + 1 ==> Next(s, Deliver(m)) == s
  {
  }

  lemma NackTakesBack(s: State, a: nat)
    requires QueueOk(s) && a < |s.attempts| && s.attempts[a].phase == Finished(false)
    requires s.attempts[a].message < |s.messages|
    ensures Free(Next(s, Handler(a, SettlementArrives)), s.attempts[a].message, true)
  {
    var m := s.attempts[a].message;
    assert MessageOk(s, m);
    if s.messages[m].lease.None? {
    } else if s.messages[m].lease.value.attempt == a {
      NackFreesOwnMessage(s, a);
    } else {
      StaleNackFreesMessage(s, a);
    }
  }

  // ---- One good delivery, with anything else going on around it ----

  predicate Stores(step: Step) {
    step.Recorder? && step.callMove.StreamStores?
  }

  /** No message reaches the stream and the token stays. */
  predicate Calm(steps: seq<Step>) {
    forall i :: 0 <= i < |steps| ==> !Stores(steps[i]) && steps[i] != Restart(false)
  }

  lemma CalmStep(s: State, step: Step)
    requires !Stores(step) && step != Restart(false)
    ensures var s' := Next(s, step);
            |s'.messages| == |s.messages| && (s.hasToken ==> s'.hasToken) && Unacked(s'.messages) <= Unacked(s.messages)
  {
    BacklogAccounting(s, step);
  }

  lemma {:induction false} CalmRun(s: State, steps: seq<Step>)
    requires Calm(steps)
    ensures var s' := Run(s, steps);
            |s'.messages| == |s.messages| && (s.hasToken ==> s'.hasToken) && Unacked(s'.messages) <= Unacked(s.messages)
  {
    if steps == [] {
    } else {
      CalmRun(s, steps[..|steps| - 1]);
      CalmStep(Run(s, steps[..|steps| - 1]), steps[|steps| - 1]);
    }
  }

  /** It keeps what was acknowledged and takes on no message. */
  lemma CalmRunKeeps(s: State, steps: seq<Step>)
    requires Inv(s) && s.hasToken && Calm(steps)
    ensures var s' := Run(s, steps);
            && Inv(s') && s'.hasToken && |s'.messages| == |s.messages|
            && (forall n :: 0 <= n < |s.messages| && s.messages[n].ackedBy.Some? ==> s'.messages[n].ackedBy.Some?)
  {
    RunKeepsInv(s, steps);
    RunExtends(s, steps);
    CalmRun(s, steps);
  }

  /** Why message `m` can be handed out: any lease on it runs out, or a delivery of it that has
      raised gets its negative acknowledgement through. */
  datatype Offering = LeaseRunsOut | NackArrives(nacker: nat)

  /** How a good delivery goes: the offer, and what else happens before each of its steps. */
  datatype Course = Course(
    offering: Offering, expiry: seq<Step>, delivery: seq<Step>,
    start: seq<Step>, answer: seq<Step>, reply: seq<Step>, settlement: seq<Step>)

  const PLAIN := Course(LeaseRunsOut, [], [], [], [], [], [])

  /** Nobody else is handed message `m`... */
  predicate Waits(steps: seq<Step>, m: nat) {
    Calm(steps) && forall i :: 0 <= i < |steps| ==> steps[i] != Deliver(m)
  }

  /** ...and then the agent stays up and leaves handler `a` alone. */
  predicate Spares(steps: seq<Step>, a: nat) {
    Calm(steps) && forall i :: 0 <= i < |steps| ==> !steps[i].Restart? && !(steps[i].Handler? && steps[i].a == a)
  }

  function Then(steps: seq<Step>, gap: seq<Step>, step: Step): seq<Step> {
    steps + gap + [step]
  }

  lemma RunThen(s: State, steps: seq<Step>, gap: seq<Step>, step: Step)
    ensures Run(s, Then(steps, gap, step)) == Next(Run(Run(s, steps), gap), step)
  {
    RunAppend(s, steps, gap);
    assert Then(steps, gap, step)[..|steps + gap|] == steps + gap;
  }

  lemma CalmThen(steps: seq<Step>, gap: seq<Step>, step: Step)
    requires Calm(steps) && Calm(gap) && !Stores(step) && step != Restart(false)
    ensures Calm(Then(steps, gap, step))
  {
  }

  /** Message `m` is taken back... */
  function Offer(s: State, m: nat, course: Course): seq<Step> {
    match course.offering
    case LeaseRunsOut => Then([Tick(s.ackWait)], course.expiry, Expire(m))
    case NackArrives(nacker) => [Handler(nacker, SettlementArrives)]
  }

  predicate CanOffer(s: State, m: nat, offering: Offering) {
    offering.NackArrives? ==>
      && offering.nacker < |s.attempts| && s.attempts[offering.nacker].phase == Finished(false)
      && s.attempts[offering.nacker].message == m
  }

  function Offered(s: State, m: nat, course: Course): State {
    Run(Run(s, Offer(s, m, course)), course.delivery)
  }

  /** ...it is handed to a new handler... */
  function NewHandler(s: State, m: nat, course: Course): nat {
    |Offered(s, m, course).attempts|
  }

  /** ...and that handler gets it through. */
  function GoodDelivery(s: State, m: nat, status: nat, course: Course): seq<Step> {
    var a := NewHandler(s, m, course);
    Success(Then(Offer(s, m, course), course.delivery, Deliver(m)), a, status, course)
  }

  function Success(steps: seq<Step>, a: nat, status: nat, course: Course): seq<Step> {
    var started := Then(steps, course.start, Handler(a, Starts));
    var answered := Then(started, course.answer, Handler(a, ServerAnswers(status)));
    Then(Then(answered, course.reply, Handler(a, ReplyArrives)), course.settlement, Handler(a, SettlementArrives))
  }

  predicate SparedBy(course: Course, a: nat) {
    Spares(course.start, a) && Spares(course.answer, a) && Spares(course.reply, a) && Spares(course.settlement, a)
  }

  /** The server accepts, and everything else leaves the delivery alone. */
  predicate Undisturbing(s: State, m: nat, status: nat, course: Course) {
    && Send(Response(status)).Delivered? && CanOffer(s, m, course.offering)
    && Waits(course.expiry, m) && Waits(course.delivery, m) && SparedBy(course, NewHandler(s, m, course))
  }

  lemma GoodDeliveryIsCalm(s: State, m: nat, status: nat, course: Course)
    requires Undisturbing(s, m, status, course)
    ensures Calm(GoodDelivery(s, m, status, course))
  {
  }

  // -- the offer --

  /** No lease stands in the way of handing out message `m`, or none that has not run out. */
  predicate Free(s: State, m: nat, expired: bool) {
    m < |s.messages| && (s.messages[m].ackedBy.Some? || s.messages[m].lease.None? || (!expired && Due(s, m)))
  }

  lemma FreeStep(s: State, step: Step, m: nat, expired: bool)
    requires Free(s, m, expired) && step != Deliver(m)
    ensures Free(Next(s, step), m, expired)
  {
  }

  lemma {:induction false} FreeRun(s: State, steps: seq<Step>, m: nat, expired: bool)
    requires Free(s, m, expired) && Waits(steps, m)
    ensures Free(Run(s, steps), m, expired)
  {
    if steps == [] {
    } else {
      FreeRun(s, steps[..|steps| - 1], m, expired);
      FreeStep(Run(s, steps[..|steps| - 1]), steps[|steps| - 1], m, expired);
    }
  }

  lemma ExpireFrees(s: State, m: nat)
    requires QueueOk(s) && Free(s, m, false)
    ensures Free(Next(s, Expire(m)), m, true)
  {
    assert MessageOk(s, m);
  }

  lemma TickFrees(s: State, m: nat)
    requires QueueOk(s) && m < |s.messages|
    ensures Free(Next(s, Tick(s.ackWait)), m, false)
  {
    assert MessageOk(s, m);
  }

  lemma LeaseEndFrees(s: State, m: nat, gap: seq<Step>)
    requires Inv(s) && m < |s.messages| && Waits(gap, m)
    ensures Free(Run(s, Then([Tick(s.ackWait)], gap, Expire(m))), m, true)
  {
    var ticked := Run(s, [Tick(s.ackWait)]);
    RunOne(s, Tick(s.ackWait));
    TickFrees(s, m);
    FreeRun(ticked, gap, m, false);
    assert QueueOk(Run(ticked, gap)) by {
      RunKeepsInv(s, [Tick(s.ackWait)]);
      RunKeepsInv(ticked, gap);
    }
    ExpireFrees(Run(ticked, gap), m);
    RunThen(s, [Tick(s.ackWait)], gap, Expire(m));
  }

  /** After the offer nobody holds message `m`. */
  lemma OfferFrees(s: State, m: nat, course: Course)
    requires Inv(s) && m < |s.messages| && CanOffer(s, m, course.offering)
    requires Waits(course.expiry, m) && Waits(course.delivery, m)
    ensures Free(Offered(s, m, course), m, true)
  {
    match course.offering {
      case LeaseRunsOut => LeaseEndFrees(s, m, course.expiry);
      case NackArrives(nacker) =>
        RunOne(s, Handler(nacker, SettlementArrives));
        NackTakesBack(s, nacker);
    }
    FreeRun(Run(s, Offer(s, m, course)), course.delivery, m, true);
  }

  lemma OfferIsCalm(s: State, m: nat, course: Course)
    requires Calm(course.expiry)
    ensures Calm(Offer(s, m, course))
  {
    CalmThen([Tick(s.ackWait)], course.expiry, Expire(m));
  }

  // -- the handler --

  /** A delivery as its handler sees it. */
  function Inside(a: Attempt): Attempt {
    a.(release := Held)
  }

  /** Delivery `a` is, seen from inside, `att`. */
  predicate Shows(s: State, a: nat, att: Attempt) {
    a < |s.attempts| && Inside(s.attempts[a]) == Inside(att) && s.hasToken && att.message < |s.messages|
  }

  lemma SpareStep(s: State, step: Step, a: nat, att: Attempt)
    requires Shows(s, a, att) && !step.Restart? && !(step.Handler? && step.a == a)
    ensures Shows(Next(s, step), a, att)
  {
  }

  lemma {:induction false} SpareRun(s: State, steps: seq<Step>, a: nat, att: Attempt)
    requires Shows(s, a, att) && Spares(steps, a)
    ensures Shows(Run(s, steps), a, att)
  {
    if steps == [] {
    } else {
      SpareRun(s, steps[..|steps| - 1], a, att);
      SpareStep(Run(s, steps[..|steps| - 1]), steps[|steps| - 1], a, att);
    }
  }

  lemma HandlerStage(s: State, steps: seq<Step>, gap: seq<Step>, a: nat, move: HandlerMove, att: Attempt)
    requires Shows(Run(s, steps), a, att) && Spares(gap, a)
    ensures Shows(Run(s, Then(steps, gap, Handler(a, move))), a, MoveAttempt(att, true, move))
    ensures move.SettlementArrives? && att.phase == Finished(true) ==>
              Run(s, Then(steps, gap, Handler(a, move))).messages[att.message].ackedBy.Some?
  {
    RunThen(s, steps, gap, Handler(a, move));
    SpareRun(Run(s, steps), gap, a, att);
    OwnStep(Run(Run(s, steps), gap), a, move, att);
  }

  lemma OwnStep(s: State, a: nat, move: HandlerMove, att: Attempt)
    requires Shows(s, a, att)
    ensures Shows(Next(s, Handler(a, move)), a, MoveAttempt(att, true, move))
    ensures move.SettlementArrives? && att.phase == Finished(true) ==>
              Next(s, Handler(a, move)).messages[att.message].ackedBy.Some?
  {
  }

  lemma SuccessAcks(s: State, steps: seq<Step>, a: nat, status: nat, course: Course, att: Attempt)
    requires Shows(Run(s, steps), a, att) && att.phase.Entered? &&
             Send(Response(status)).Delivered? && SparedBy(course, a)
    ensures var s' := Run(s, Success(steps, a, status, course));
            AcceptedFor(s', att.message, a) && att.message < |s'.messages| && s'.messages[att.message].ackedBy.Some?
  {
    var waiting := att.(phase := AwaitingReply, request := OnWire);
    var heard := waiting.(request := Answered(status));
    var finished := heard.(phase := Finished(true));
    var started := Then(steps, course.start, Handler(a, Starts));
    HandlerStage(s, steps, course.start, a, Starts, att);
    var answered := Then(started, course.answer, Handler(a, ServerAnswers(status)));
    HandlerStage(s, started, course.answer, a, ServerAnswers(status), waiting);
    var replied := Then(answered, course.reply, Handler(a, ReplyArrives));
    HandlerStage(s, answered, course.reply, a, ReplyArrives, heard);
    HandlerStage(s, replied, course.settlement, a, SettlementArrives, finished);
  }

  lemma DeliverEnters(s: State, m: nat)
    requires Free(s, m, true) && s.messages[m].ackedBy.None? && s.hasToken
    ensures Shows(Next(s, Deliver(m)), |s.attempts|, Attempt(m, Entered, NoRequest, false, Held))
  {
  }

  /** Whatever happens in the gaps: a message still in the stream when it is handed out is accepted
      from the new handler. */
  lemma GoodDeliveryAccepts(s: State, m: nat, status: nat, course: Course)
    requires Inv(s) && s.hasToken && m < |s.messages| && Undisturbing(s, m, status, course)
    requires m < |Offered(s, m, course).messages| && Offered(s, m, course).messages[m].ackedBy.None?
    ensures var s' := Run(s, GoodDelivery(s, m, status, course));
            AcceptedFor(s', m, NewHandler(s, m, course)) && m < |s'.messages| && s'.messages[m].ackedBy.Some?
  {
    var offered, a := Offered(s, m, course), NewHandler(s, m, course);
    OfferFrees(s, m, course);
    assert offered.hasToken by {
      OfferIsCalm(s, m, course);
      CalmRun(s, Offer(s, m, course));
      CalmRun(Run(s, Offer(s, m, course)), course.delivery);
    }
    DeliverEnters(offered, m);
    RunThen(s, Offer(s, m, course), course.delivery, Deliver(m));
    SuccessAcks(s, Then(Offer(s, m, course), course.delivery, Deliver(m)), a, status, course,
                Attempt(m, Entered, NoRequest, false, Held));
  }

  /** In any case it is acknowledged afterwards. */
  lemma GoodDeliveryAcks(s: State, m: nat, status: nat, course: Course)
    requires Inv(s) && s.hasToken && m < |s.messages| && Undisturbing(s, m, status, course)
    ensures var s' := Run(s, GoodDelivery(s, m, status, course)); m < |s'.messages| && s'.messages[m].ackedBy.Some?
  {
    var offered := Offered(s, m, course);
    OfferFrees(s, m, course);
    if offered.messages[m].ackedBy.None? {
      GoodDeliveryAccepts(s, m, status, course);
    } else {
      AckedStays(s, m, status, course);
    }
  }

  predicate Gone(s: State, m: nat) {
    m < |s.messages| && s.messages[m].ackedBy.Some?
  }

  lemma ThenKeepsGone(s: State, steps: seq<Step>, gap: seq<Step>, step: Step, m: nat)
    requires Inv(s) && (Gone(Run(s, steps), m) || Gone(Run(Run(s, steps), gap), m))
    ensures Gone(Run(s, Then(steps, gap, step)), m)
  {
    var s1 := Run(s, steps);
    RunKeepsInv(s, steps);
    RunKeepsInv(s1, gap);
    RunExtends(s1, gap);
    StepExtends(Run(s1, gap), step);
    RunThen(s, steps, gap, step);
  }

  lemma AckedStays(s: State, m: nat, status: nat, course: Course)
    requires Inv(s) && Gone(Offered(s, m, course), m)
    ensures Gone(Run(s, GoodDelivery(s, m, status, course)), m)
  {
    var a := NewHandler(s, m, course);
    ThenKeepsGone(s, Offer(s, m, course), course.delivery, Deliver(m), m);
    var delivered := Then(Offer(s, m, course), course.delivery, Deliver(m));
    ThenKeepsGone(s, delivered, course.start, Handler(a, Starts), m);
    var started := Then(delivered, course.start, Handler(a, Starts));
    ThenKeepsGone(s, started, course.answer, Handler(a, ServerAnswers(status)), m);
    var answered := Then(started, course.answer, Handler(a, ServerAnswers(status)));
    ThenKeepsGone(s, answered, course.reply, Handler(a, ReplyArrives), m);
    ThenKeepsGone(s, Then(answered, course.reply, Handler(a, ReplyArrives)), course.settlement,
                  Handler(a, SettlementArrives), m);
  }

  // ---- Fair schedules ----

  /** Whatever the environment does, and then one good delivery of one message. */
  datatype Round = Round(noise: seq<Step>, m: nat, status: nat, course: Course)

  predicate Fair(s: State, round: Round) {
    Calm(round.noise) && Undisturbing(Run(s, round.noise), round.m, round.status, round.course)
  }

  function Play(s: State, round: Round): State {
    var s' := Run(s, round.noise);
    Run(s', GoodDelivery(s', round.m, round.status, round.course))
  }

  function PlayAll(s: State, rounds: seq<Round>): State
    decreases |rounds|
  {
    if rounds == [] then s else PlayAll(Play(s, rounds[0]), rounds[1..])
  }

  predicate FairSchedule(s: State, rounds: seq<Round>)
    decreases |rounds|
  {
    rounds == [] ||
    (Fair(s, rounds[0]) && rounds[0].m < |s.messages| && FairSchedule(Play(s, rounds[0]), rounds[1..]))
  }

  lemma RoundShrinksBacklog(s: State, round: Round)
    requires Inv(s) && s.hasToken && Fair(s, round) && round.m < |s.messages|
    ensures var s' := Play(s, round);
            && Inv(s') && s'.hasToken && |s'.messages| == |s.messages|
            && s'.messages[round.m].ackedBy.Some?
            && (forall n :: 0 <= n < |s.messages| && s.messages[n].ackedBy.Some? ==> s'.messages[n].ackedBy.Some?)
            && (s.messages[round.m].ackedBy.None? ==> Unacked(s'.messages) < Unacked(s.messages))
  {
    CalmRunKeeps(s, round.noise);
    var s1 := Run(s, round.noise);
    GoodDeliveryIsCalm(s1, round.m, round.status, round.course);
    CalmRunKeeps(s1, GoodDelivery(s1, round.m, round.status, round.course));
    GoodDeliveryAcks(s1, round.m, round.status, round.course);
    UnackedStrict(s.messages, Play(s, round).messages, round.m);
  }

  lemma {:induction false} UnackedStrict(a: seq<Message>, b: seq<Message>, m: nat)
    requires |a| == |b| && m < |a| && b[m].ackedBy.Some?
    requires forall n :: 0 <= n < |a| && a[n].ackedBy.Some? ==> b[n].ackedBy.Some?
    ensures Unacked(b) <= Unacked(a)
    ensures a[m].ackedBy.None? ==> Unacked(b) < Unacked(a)
    decreases |a|
  {
    if m == |a| - 1 {
      UnackedWeak(a[..|a| - 1], b[..|b| - 1]);
    } else {
      UnackedStrict(a[..|a| - 1], b[..|b| - 1], m);
    }
  }

  lemma {:induction false} UnackedWeak(a: seq<Message>, b: seq<Message>)
    requires |a| == |b|
    requires forall n :: 0 <= n < |a| && a[n].ackedBy.Some? ==> b[n].ackedBy.Some?
    ensures Unacked(b) <= Unacked(a)
  {
    if a == [] {
    } else {
      UnackedWeak(a[..|a| - 1], b[..|b| - 1]);
    }
  }

  lemma {:induction false} AllAcked(messages: seq<Message>)
    requires forall m :: 0 <= m < |messages| ==> messages[m].ackedBy.Some?
    ensures Unacked(messages) == 0
  {
    if messages == [] {
    } else {
      AllAcked(messages[..|messages| - 1]);
    }
  }

  ghost predicate Covers(rounds: seq<Round>, m: nat) {
    exists i :: 0 <= i < |rounds| && rounds[i].m == m
  }

  lemma {:induction false} RoundsAck(s: State, rounds: seq<Round>)
    requires Inv(s) && s.hasToken && FairSchedule(s, rounds)
    ensures var s' := PlayAll(s, rounds);
            && |s'.messages| == |s.messages|
            && (forall n :: 0 <= n < |s.messages| && s.messages[n].ackedBy.Some? ==> s'.messages[n].ackedBy.Some?)
            && (forall i :: 0 <= i < |rounds| ==> rounds[i].m < |s.messages| && s'.messages[rounds[i].m].ackedBy.Some?)
    decreases |rounds|
  {
    if rounds == [] {
    } else {
      var s' := PlayAll(s, rounds);
      RoundShrinksBacklog(s, rounds[0]);
      RoundsAck(Play(s, rounds[0]), rounds[1..]);
      forall i | 0 <= i < |rounds|
        ensures rounds[i].m < |s.messages| && s'.messages[rounds[i].m].ackedBy.Some?
      {
        assert i > 0 ==> rounds[i] == rounds[1..][i - 1];
      }
    }
  }

  /** From any reachable state with a token, a schedule that at some point delivers each message
      well empties the queue, whatever nacks, losses, expiries and crashes come in between. */
  lemma FairSchedulesDrain(s: State, rounds: seq<Round>)
    requires Inv(s) && s.hasToken && FairSchedule(s, rounds)
    requires forall m :: 0 <= m < |s.messages| ==> Covers(rounds, m)
    ensures Unacked(PlayAll(s, rounds).messages) == 0 && |PlayAll(s, rounds).messages| == |s.messages|
  {
    RoundsAck(s, rounds);
    var messages := PlayAll(s, rounds).messages;
    forall m | 0 <= m < |messages|
      ensures messages[m].ackedBy.Some?
    {
      assert Covers(rounds, m);
    }
    AllAcked(messages);
  }

  // ---- Duplicates do happen ----

  lemma {:induction false} AcceptedGrows(a: seq<Attempt>, b: seq<Attempt>, m: nat, k: nat)
    requires |a| <= |b|
    requires forall i :: 0 <= i < |a| ==> a[i].message == b[i].message && (Accepted(a[i]) ==> Accepted(b[i]))
    ensures AcceptedCount(a, m) <= AcceptedCount(b, m)
    ensures |a| <= k < |b| && b[k].message == m && Accepted(b[k]) ==> AcceptedCount(a, m) < AcceptedCount(b, m)
    decreases |b|
  {
    if |b| == 0 {
    } else if |a| == |b| {
      AcceptedGrows(a[..|a| - 1], b[..|b| - 1], m, k);
    } else {
      AcceptedGrows(a, b[..|b| - 1], m, k);
    }
  }

  /** With nothing else going on the message is still there when it is handed out again. */
  lemma OfferKeepsUnacked(s: State, m: nat)
    requires QueueOk(s) && m < |s.messages| && s.messages[m].ackedBy.None?
    ensures m < |Offered(s, m, PLAIN).messages| && Offered(s, m, PLAIN).messages[m].ackedBy.None?
  {
    RunThen(s, [Tick(s.ackWait)], [], Expire(m));
    RunOne(s, Tick(s.ackWait));
    var ticked := Next(s, Tick(s.ackWait));
    assert Run(ticked, []) == ticked;
    var offered := Next(ticked, Expire(m));
    assert Run(offered, []) == offered;
  }

  lemma LossKeepsMessages(s: State, a: nat)
    ensures Next(s, Handler(a, SettlementLost)).messages == s.messages
    ensures Next(s, Handler(a, SettlementLost)).hasToken == s.hasToken
    ensures |Next(s, Handler(a, SettlementLost)).attempts| == |s.attempts|
    ensures a < |s.attempts| && s.attempts[a].phase.Finished? ==>
              Next(s, Handler(a, SettlementLost)).attempts[a].phase.Settled?
  {
  }

  /** When the acknowledgement of an accepted message gets lost, the handler is done with it, and
      the next good delivery makes the server accept it once more. */
  lemma LostAckCausesDuplicate(s: State, a: nat, status: nat)
    requires Inv(s) && s.hasToken && Send(Response(status)).Delivered?
    requires a < |s.attempts| && s.attempts[a].phase == Finished(true)
    requires s.attempts[a].message < |s.messages| && s.messages[s.attempts[a].message].ackedBy.None?
    ensures var m := s.attempts[a].message;
            var lost := Run(s, [Handler(a, SettlementLost)]);
            && lost.messages == s.messages && a < |lost.attempts| && lost.attempts[a].phase.Settled?
            && AcceptedCount(Run(lost, GoodDelivery(lost, m, status, PLAIN)).attempts, m)
               > AcceptedCount(s.attempts, m) >= 1
  {
    var m := s.attempts[a].message;
    var lost := Run(s, [Handler(a, SettlementLost)]);
    assert lost.messages == s.messages && lost.hasToken
           && |lost.attempts| == |s.attempts| && lost.attempts[a].phase.Settled? by {
      RunOne(s, Handler(a, SettlementLost));
      LossKeepsMessages(s, a);
    }
    RunKeepsInv(s, [Handler(a, SettlementLost)]);
    assert AcceptedCount(s.attempts, m) <= AcceptedCount(lost.attempts, m) by {
      RunExtends(s, [Handler(a, SettlementLost)]);
      AcceptedGrows(s.attempts, lost.attempts, m, 0);
    }
    GoodDeliveryAcceptsMore(lost, m, status);
    assert AttemptOk(s, a);
    SomeAccepted(s.attempts, m, a);
  }

  lemma NewHandlerIsNew(s: State, m: nat, course: Course)
    requires Inv(s)
    ensures NewHandler(s, m, course) >= |s.attempts|
  {
    RunAppend(s, Offer(s, m, course), course.delivery);
    RunExtends(s, Offer(s, m, course) + course.delivery);
  }

  lemma GoodDeliveryAcceptsMore(s: State, m: nat, status: nat)
    requires Inv(s) && s.hasToken && Send(Response(status)).Delivered?
    requires m < |s.messages| && s.messages[m].ackedBy.None?
    ensures AcceptedCount(Run(s, GoodDelivery(s, m, status, PLAIN)).attempts, m) > AcceptedCount(s.attempts, m)
  {
    OfferKeepsUnacked(s, m);
    GoodDeliveryAccepts(s, m, status, PLAIN);
    NewHandlerIsNew(s, m, PLAIN);
    RunExtends(s, GoodDelivery(s, m, status, PLAIN));
    AcceptedGrows(s.attempts, Run(s, GoodDelivery(s, m, status, PLAIN)).attempts, m, NewHandler(s, m, PLAIN));
  }

  // ---- What can still be delivered ----

  ghost predicate ServerHas(s: State, c: nat) {
    exists m: nat, a: nat :: m < |s.messages| && s.messages[m].call == c && AcceptedFor(s, m, a)
  }

  /** Nothing of the event is in the stream or on its way there. */
  predicate NotOnItsWay(call: Call) {
    call.wire.Unsent? || call.wire.Lost?
  }

  /** ...and its record call will not change that. */
  predicate HistoryOnly(s: State, c: nat) {
    c < |s.calls| && Over(s.calls[c]) && NotOnItsWay(s.calls[c])
  }

  lemma HistoryOnlyStep(s: State, step: Step, c: nat)
    requires HistoryOnly(s, c)
    ensures HistoryOnly(Next(s, step), c)
  {
  }

  ghost predicate CanReachServer(s: State, c: nat) {
    exists steps :: ServerHas(Run(s, steps), c)
  }

  lemma {:induction false} HistoryOnlyRun(s: State, steps: seq<Step>, c: nat)
    requires HistoryOnly(s, c)
    ensures HistoryOnly(Run(s, steps), c)
  {
    if steps == [] {
    } else {
      HistoryOnlyRun(s, steps[..|steps| - 1], c);
      HistoryOnlyStep(Run(s, steps[..|steps| - 1]), steps[|steps| - 1], c);
    }
  }

  lemma SentCanBeStored(s: State, c: nat) returns (m: nat)
    requires Inv(s) && c < |s.calls| && !NotOnItsWay(s.calls[c])
    ensures var s' := Next(s, Recorder(c, StreamStores)); m < |s'.messages| && s'.messages[m].call == c
  {
    m := if s.calls[c].wire.Stored? then s.calls[c].wire.index else |s.messages|;
  }

  /** The agent is running again, with a token and a broker. */
  function Recovery(c: nat): seq<Step> {
    [Recorder(c, StreamStores), Restart(true), Broker(true)]
  }

  lemma RestartKeepsMessages(s: State)
    ensures var s' := Next(Next(s, Restart(true)), Broker(true)); s'.messages == s.messages && s'.hasToken
  {
  }

  lemma StoredSurvivesRestart(s: State, c: nat) returns (m: nat)
    requires Inv(s) && c < |s.calls| && !NotOnItsWay(s.calls[c])
    ensures var s' := Run(s, Recovery(c));
            Inv(s') && s'.hasToken && m < |s'.messages| && s'.messages[m].call == c
  {
    RunKeepsInv(s, Recovery(c));
    m := SentCanBeStored(s, c);
    RunThree(s, Recorder(c, StreamStores), Restart(true), Broker(true));
    RestartKeepsMessages(Next(s, Recorder(c, StreamStores)));
  }

  lemma StoredCanBeAccepted(s: State, m: nat)
    requires Inv(s) && s.hasToken && m < |s.messages|
    ensures ServerHas(Run(s, GoodDelivery(s, m, 200, PLAIN)), s.messages[m].call)
  {
    var steps := GoodDelivery(s, m, 200, PLAIN);
    GoodDeliveryAcks(s, m, 200, PLAIN);
    RunKeepsInv(s, steps);
    RunExtends(s, steps);
    InvAckedWasAccepted(Run(s, steps), m);
  }

  lemma HistoryOnlyNeverDelivered(s: State, steps: seq<Step>, c: nat)
    requires Inv(s) && HistoryOnly(s, c)
    ensures !ServerHas(Run(s, steps), c)
  {
    HistoryOnlyRun(s, steps, c);
    RunKeepsInv(s, steps);
  }

  lemma HistoryOnlyCannotReach(s: State, c: nat)
    requires Inv(s) && HistoryOnly(s, c)
    ensures !CanReachServer(s, c)
  {
    forall steps
      ensures !ServerHas(Run(s, steps), c)
    {
      HistoryOnlyNeverDelivered(s, steps, c);
    }
  }

  lemma SentCanReach(s: State, c: nat)
    requires Inv(s) && c < |s.calls| && !NotOnItsWay(s.calls[c])
    ensures CanReachServer(s, c)
  {
    var m := StoredSurvivesRestart(s, c);
    var s' := Run(s, Recovery(c));
    StoredCanBeAccepted(s', m);
    RunAppend(s, Recovery(c), GoodDelivery(s', m, 200, PLAIN));
    var steps := Recovery(c) + GoodDelivery(s', m, 200, PLAIN);
    assert ServerHas(Run(s, steps), c);
  }

  lemma OverReachesIffOnItsWay(s: State, c: nat)
    requires Inv(s) && c < |s.calls| && Over(s.calls[c])
    ensures CanReachServer(s, c) <==> !NotOnItsWay(s.calls[c])
  {
    if NotOnItsWay(s.calls[c]) {
      HistoryOnlyCannotReach(s, c);
    } else {
      SentCanReach(s, c);
    }
  }

  /** An event whose publish returned true can be delivered, over every run. */
  lemma ConfirmedCanReach(hasToken: bool, ackWait: nat, steps: seq<Step>, c: nat)
    requires var s := Run(Init(hasToken, ackWait), steps); c < |s.calls| && s.calls[c].phase == Returned(true)
    ensures CanReachServer(Run(Init(hasToken, ackWait), steps), c)
  {
    ReachableInv(hasToken, ackWait, steps);
    assert CallOk(Run(Init(hasToken, ackWait), steps).calls[c]);
    SentCanReach(Run(Init(hasToken, ackWait), steps), c);
  }

  lemma PublishCallSends(s: State, c: nat)
    requires c < |s.calls| && s.calls[c].phase.Committed? && s.calls[c].wire.Unsent?
    ensures var s' := Next(s, Recorder(c, PublishCalled));
            && c < |s'.calls|
            && (if s.brokerHeld then s'.calls[c].wire.Sent? else HistoryOnly(s', c))
  {
  }

  /** When a committed event is to be published, it can reach the server from then on only if a broker
      is held at that moment; and if one is, nothing is decided yet. */
  lemma ReachableIffBrokerHeld(s: State, c: nat)
    requires Inv(s) && c < |s.calls| && s.calls[c].phase.Committed?
    ensures CanReachServer(Next(s, Recorder(c, PublishCalled)), c) <==> s.brokerHeld
  {
    var s' := Next(s, Recorder(c, PublishCalled));
    assert CallOk(s.calls[c]);
    PublishCallSends(s, c);
    assert Inv(s') by {
      RunOne(s, Recorder(c, PublishCalled));
      RunKeepsInv(s, [Recorder(c, PublishCalled)]);
    }
    if s.brokerHeld {
      SentCanReach(s', c);
    } else {
      HistoryOnlyCannotReach(s', c);
    }
  }

  /** The step calls publish for the committed call `c` while a broker is held. */
  predicate Publishes(s: State, step: Step, c: nat) {
    step == Recorder(c, PublishCalled) && s.brokerHeld && c < |s.calls| && s.calls[c].phase.Committed?
  }

  /** The step loses, or refuses, what that publish has sent. */
  predicate Loses(s: State, step: Step, c: nat) {
    step == Recorder(c, PublishLost) && c < |s.calls| && s.calls[c].wire.Sent?
  }

  predicate PublishedWhileHeld(s: State, steps: seq<Step>, c: nat) {
    steps != [] &&
    (PublishedWhileHeld(s, steps[..|steps| - 1], c)
     || Publishes(Run(s, steps[..|steps| - 1]), steps[|steps| - 1], c))
  }

  predicate LostOnItsWay(s: State, steps: seq<Step>, c: nat) {
    steps != [] &&
    (LostOnItsWay(s, steps[..|steps| - 1], c)
     || Loses(Run(s, steps[..|steps| - 1]), steps[|steps| - 1], c))
  }

  predicate EverSent(s: State, c: nat) {
    c < |s.calls| && !s.calls[c].wire.Unsent?
  }

  predicate WireLost(s: State, c: nat) {
    c < |s.calls| && s.calls[c].wire.Lost?
  }

  lemma WireStep(s: State, step: Step, c: nat)
    ensures EverSent(Next(s, step), c) <==> EverSent(s, c) || Publishes(s, step, c)
    ensures WireLost(Next(s, step), c) ==> WireLost(s, c) || Loses(s, step, c)
    ensures Loses(s, step, c) ==> WireLost(Next(s, step), c)
  {
  }

  lemma LostStaysLost(s: State, step: Step, c: nat)
    requires CallsOk(s) && WireLost(s, c)
    ensures WireLost(Next(s, step), c)
  {
    assert CallOk(s.calls[c]);
  }

  /** The wire of a call tells what the run did to its publish. */
  lemma {:induction false} WireTellsRun(s: State, steps: seq<Step>, c: nat)
    requires Inv(s) && !EverSent(s, c)
    ensures EverSent(Run(s, steps), c) <==> PublishedWhileHeld(s, steps, c)
    ensures WireLost(Run(s, steps), c) <==> LostOnItsWay(s, steps, c)
  {
    if steps == [] {
    } else {
      var before, step := Run(s, steps[..|steps| - 1]), steps[|steps| - 1];
      WireTellsRun(s, steps[..|steps| - 1], c);
      WireStep(before, step, c);
      RunKeepsInv(s, steps[..|steps| - 1]);
      if WireLost(before, c) {
        LostStaysLost(before, step, c);
      }
    }
  }

  /** Over every run: once its record call is over, an event can still reach the server if and only if
      its publish was called while a broker was held and what it sent was not lost. Otherwise the
      event is in history only, for good. */
  lemma DeliverableIffPublishedAndNotLost(hasToken: bool, ackWait: nat, steps: seq<Step>, c: nat)
    requires var s := Run(Init(hasToken, ackWait), steps); c < |s.calls| && Over(s.calls[c])
    ensures var s := Init(hasToken, ackWait);
            CanReachServer(Run(s, steps), c) <==> PublishedWhileHeld(s, steps, c) && !LostOnItsWay(s, steps, c)
  {
    ReachableInv(hasToken, ackWait, steps);
    WireTellsRun(Init(hasToken, ackWait), steps, c);
    OverReachesIffOnItsWay(Run(Init(hasToken, ackWait), steps), c);
  }

  /** The state after the commit of a first record call. */
  lemma FirstCommit(s: State, payload: Payload, agentId: string, now: int)
    requires s.calls == [] && s.history == [] && s.commits == []
    ensures Next(Next(s, Record(payload, agentId, now)), Recorder(0, CommitSucceeds))
         == s.(calls := [Call(Wrap(payload, agentId, now), true, Committed, Unsent)],
               history := Rows(payload), commits := [0])
  {
    assert Next(s, Record(payload, agentId, now)).calls == [Call(Wrap(payload, agentId, now), false, Adding, Unsent)];
    assert [] + Rows(payload) == Rows(payload);
  }

  /** A run that ends in such an event: the commit succeeds before the gateway has connected. The
      event is in history, its record call has returned, and it cannot be delivered. */
  lemma RecordedBeforeConnecting(hasToken: bool, ackWait: nat, payload: Payload, agentId: string, now: int)
    ensures var steps := [Record(payload, agentId, now), Recorder(0, CommitSucceeds), Recorder(0, PublishCalled)];
            var s := Run(Init(hasToken, ackWait), steps);
            && s.history == Rows(payload)
            && s.calls == [Call(Wrap(payload, agentId, now), true, Returned(false), Unsent)]
            && !CanReachServer(s, 0)
  {
    var s := Init(hasToken, ackWait);
    var steps := [Record(payload, agentId, now), Recorder(0, CommitSucceeds), Recorder(0, PublishCalled)];
    RunThree(s, steps[0], steps[1], steps[2]);
    FirstCommit(s, payload, agentId, now);
    ReachableInv(hasToken, ackWait, steps);
    HistoryOnlyCannotReach(Run(s, steps), 0);
  }

  /** The publish of call `c` is called, refused, and raises. */
  function Refusal(c: nat): seq<Step> {
    [Recorder(c, PublishCalled), Recorder(c, PublishLost), Recorder(c, PublishFails)]
  }

  lemma QuietMove(s: State, c: nat, call: Call, move: CallMove)
    requires c < |s.calls| && !move.CommitSucceeds? && !move.StreamStores?
    ensures Next(s.(calls := s.calls[c := call]), Recorder(c, move))
         == s.(calls := s.calls[c := MoveCall(call, move, s.brokerHeld, |s.messages|)])
  {
    var call' := MoveCall(call, move, s.brokerHeld, |s.messages|);
    assert s.calls[c := call][c := call'] == s.calls[c := call'];
  }

  lemma RefusalOutcome(s: State, c: nat)
    requires s.brokerHeld && c < |s.calls| && s.calls[c].phase.Committed?
    ensures Run(s, Refusal(c)) == s.(calls := s.calls[c := s.calls[c].(phase := Returned(false), wire := Lost)])
  {
    var sent, lost := s.calls[c].(phase := Publishing, wire := Sent), s.calls[c].(phase := Publishing, wire := Lost);
    assert s == s.(calls := s.calls[c := s.calls[c]]);
    QuietMove(s, c, s.calls[c], PublishCalled);
    QuietMove(s, c, sent, PublishLost);
    QuietMove(s, c, lost, PublishFails);
    RunThree(s, Recorder(c, PublishCalled), Recorder(c, PublishLost), Recorder(c, PublishFails));
  }

  /** Another one: the gateway holds a broker, but the publish is refused. */
  lemma RefusedWhileConnected(hasToken: bool, ackWait: nat, payload: Payload, agentId: string, now: int)
    ensures var steps := [Broker(true), Record(payload, agentId, now), Recorder(0, CommitSucceeds)] + Refusal(0);
            var s := Run(Init(hasToken, ackWait), steps);
            && s.brokerHeld && s.history == Rows(payload)
            && s.calls == [Call(Wrap(payload, agentId, now), true, Returned(false), Lost)]
            && !CanReachServer(s, 0)
  {
    var s := Init(hasToken, ackWait);
    var recording := [Broker(true), Record(payload, agentId, now), Recorder(0, CommitSucceeds)];
    RunAppend(s, recording, Refusal(0));
    RunThree(s, recording[0], recording[1], recording[2]);
    FirstCommit(Next(s, Broker(true)), payload, agentId, now);
    RefusalOutcome(Run(s, recording), 0);
    ReachableInv(hasToken, ackWait, recording + Refusal(0));
    HistoryOnlyCannotReach(Run(s, recording + Refusal(0)), 0);
  }

  /** A publish that raised tells the agent nothing: from any state in which one is waiting for
      its confirmation, the call can fail with the message in the stream and with it lost for good. */
  lemma FailedPublishIsAmbiguous(s: State, c: nat)
    requires c < |s.calls| && s.calls[c].phase.Publishing? && s.calls[c].wire.Sent?
    ensures var stored := Run(s, [Recorder(c, StreamStores), Recorder(c, PublishFails)]);
            var lost := Run(s, [Recorder(c, PublishLost), Recorder(c, PublishFails)]);
            && |stored.calls| == |lost.calls| == |s.calls|
            && stored.calls[c].(wire := Sent) == lost.calls[c].(wire := Sent) == s.calls[c].(phase := Returned(false))
            && stored.calls[c].wire.Stored? && lost.messages == s.messages
            && |stored.messages| == |s.messages| + 1 && stored.messages[|s.messages|].call == c
            && (Inv(s) ==> CanReachServer(stored, c) && !CanReachServer(lost, c))
  {
    FailsEitherWay(s, c, StreamStores);
    FailsEitherWay(s, c, PublishLost);
    RunTwo(s, Recorder(c, StreamStores), Recorder(c, PublishFails));
    RunTwo(s, Recorder(c, PublishLost), Recorder(c, PublishFails));
    if Inv(s) {
      RunKeepsInv(s, [Recorder(c, StreamStores), Recorder(c, PublishFails)]);
      RunKeepsInv(s, [Recorder(c, PublishLost), Recorder(c, PublishFails)]);
      OverReachesIffOnItsWay(Run(s, [Recorder(c, StreamStores), Recorder(c, PublishFails)]), c);
      OverReachesIffOnItsWay(Run(s, [Recorder(c, PublishLost), Recorder(c, PublishFails)]), c);
    }
  }

  lemma FailsEitherWay(s: State, c: nat, move: CallMove)
    requires c < |s.calls| && s.calls[c].phase.Publishing? && s.calls[c].wire.Sent?
    requires move.StreamStores? || move.PublishLost?
    ensures var s' := Next(Next(s, Recorder(c, move)), Recorder(c, PublishFails));
            && |s'.calls| == |s.calls|
            && s'.calls[c] == s.calls[c].(phase := Returned(false),
                                          wire := if move.PublishLost? then Lost else Stored(|s.messages|))
            && s'.messages == s.messages + if move.PublishLost? then [] else [Message(c, None, None)]
  {
  }
}
