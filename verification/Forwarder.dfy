/** The delivery handler as a state machine over its outage-log flags.

    `Handle` is one handler that runs to its end before the next one starts; the second half
    of the file lets handlers interleave at every point where the coroutine awaits. */
module Forwarder {
  import opened ServerClient

  datatype Log = WarnNoToken | WarnAuth | WarnUnreachable | InfoResumed

  datatype Flags = Flags(noToken: bool, auth: bool, unreachable: bool, reachable: bool)

  datatype Handled = Handled(flags: Flags, log: seq<Log>, ack: bool)

  const INITIAL := Flags(false, false, false, false)
  const DELIVERED := Flags(false, false, false, true)

  function Emit(wanted: bool, log: Log): seq<Log> {
    if wanted then [log] else []
  }

  function HandleWithoutToken(f: Flags): Handled {
    Handled(f.(reachable := false, noToken := true), Emit(!f.noToken, WarnNoToken), false)
  }

  function HandleReply(f: Flags, result: SendResult): Handled {
    match result
    case AuthRejected =>
      Handled(f.(reachable := false, auth := true), Emit(!f.auth, WarnAuth), false)
    case DeliveryFailed =>
      Handled(f.(reachable := false, unreachable := true),
              Emit(f.reachable || !f.unreachable, WarnUnreachable), false)
    case Delivered =>
      Handled(DELIVERED, Emit(!f.reachable, InfoResumed), true)
  }

  function Handle(f: Flags, hasToken: bool, reply: Reply): Handled {
    if hasToken then HandleReply(f, Send(reply)) else HandleWithoutToken(f)
  }

  predicate Acks(hasToken: bool, reply: Reply) {
    hasToken && Send(reply).Delivered?
  }

  /** Whether a message is acknowledged depends on the token and the reply, never on the flags. */
  lemma FlagsDoNotDecide(f: Flags, g: Flags, hasToken: bool, reply: Reply)
    ensures Handle(f, hasToken, reply).ack == Handle(g, hasToken, reply).ack == Acks(hasToken, reply)
  {
  }

  // ---- Runs of handlers, one after the other ----

  datatype State = State(flags: Flags, log: seq<Log>)

  function After(hasToken: bool, replies: seq<Reply>): State {
    if replies == [] then State(INITIAL, [])
    else
      var s := After(hasToken, replies[..|replies| - 1]);
      var h := Handle(s.flags, hasToken, replies[|replies| - 1]);
      State(h.flags, s.log + h.log)
  }

  /** The entries written since the last "reachable again". */
  function Since(log: seq<Log>): seq<Log> {
    if log == [] || log[|log| - 1] == InfoResumed then []
    else Since(log[..|log| - 1]) + [log[|log| - 1]]
  }

  predicate Paced(log: seq<Log>) {
    log == [] ||
    var init, last := log[..|log| - 1], log[|log| - 1];
    && Paced(init)
    && (if last == InfoResumed then InfoResumed in init ==> Since(init) != [] else last !in Since(init))
  }

  predicate FlagsTellLog(s: State) {
    && (s.flags.noToken <==> WarnNoToken in Since(s.log))
    && (s.flags.auth <==> WarnAuth in Since(s.log))
    && (s.flags.unreachable <==> WarnUnreachable in Since(s.log))
    && (s.flags.reachable ==> Since(s.log) == [])
    && (InfoResumed in s.log && !s.flags.reachable ==> Since(s.log) != [])
  }

  lemma LogGrows(log: seq<Log>, entry: Log)
    ensures Since(log + [entry]) == if entry == InfoResumed then [] else Since(log) + [entry]
    ensures Paced(log + [entry])
       <==> (Paced(log) &&
             if entry == InfoResumed then InfoResumed in log ==> Since(log) != [] else entry !in Since(log))
  {
    assert (log + [entry])[..|log|] == log;
  }

  lemma HandlerKeepsPace(s: State, hasToken: bool, reply: Reply)
    requires Paced(s.log) && FlagsTellLog(s)
    ensures var h := Handle(s.flags, hasToken, reply);
            Paced(s.log + h.log) && FlagsTellLog(State(h.flags, s.log + h.log))
  {
    var h := Handle(s.flags, hasToken, reply);
    if h.log == [] {
      assert s.log + h.log == s.log;
    } else {
      assert h.log == [h.log[0]];
      LogGrows(s.log, h.log[0]);
    }
  }

  lemma {:induction false} RunsArePaced(hasToken: bool, replies: seq<Reply>)
    ensures Paced(After(hasToken, replies).log) && FlagsTellLog(After(hasToken, replies))
  {
    if replies == [] {
    } else {
      var init := replies[..|replies| - 1];
      RunsArePaced(hasToken, init);
      HandlerKeepsPace(After(hasToken, init), hasToken, replies[|replies| - 1]);
    }
  }

  lemma {:induction false} SinceHolds(log: seq<Log>, i: nat)
    requires i < |log| && forall k :: i <= k < |log| ==> log[k] != InfoResumed
    ensures log[i] in Since(log)
  {
    if i == |log| - 1 {
    } else {
      SinceHolds(log[..|log| - 1], i);
    }
  }

  lemma {:induction false} SinceComesFrom(log: seq<Log>, i: nat)
    requires i < |log| && log[i] == InfoResumed && Since(log) != []
    ensures exists k :: i < k < |log| && log[k] != InfoResumed
  {
  }

  /** In every run, a repeated warning has a recovery between its two occurrences and two
      recoveries have a warning between them. */
  lemma {:induction false} PacedByPosition(log: seq<Log>, i: nat, j: nat)
    requires Paced(log) && i < j < |log| && log[i] == log[j]
    ensures log[i] == InfoResumed ==> exists k :: i < k < j && log[k] != InfoResumed
    ensures log[i] != InfoResumed ==> exists k :: i < k < j && log[k] == InfoResumed
  {
    var init := log[..|log| - 1];
    if j < |log| - 1 {
      PacedByPosition(init, i, j);
      assert forall k :: i < k < j ==> init[k] == log[k];
    } else if log[i] == InfoResumed {
      assert init[i] == InfoResumed;
      SinceComesFrom(init, i);
      var k :| i < k < |init| && init[k] != InfoResumed;
      assert log[k] == init[k];
    } else if forall k :: i < k < j ==> log[k] != InfoResumed {
      assert init[i] == log[i];
      SinceHolds(init, i);
      assert false;
    }
  }

  lemma LogIsPaced(hasToken: bool, replies: seq<Reply>, i: nat, j: nat)
    requires var log := After(hasToken, replies).log; i < j < |log| && log[i] == log[j]
    ensures var log := After(hasToken, replies).log;
            && (log[i] == InfoResumed ==> exists k :: i < k < j && log[k] != InfoResumed)
            && (log[i] != InfoResumed ==> exists k :: i < k < j && log[k] == InfoResumed)
  {
    RunsArePaced(hasToken, replies);
    PacedByPosition(After(hasToken, replies).log, i, j);
  }

  // ---- The log, told by the replies alone ----

  /** Some reply since the last delivery was judged so. */
  predicate SinceDelivery(replies: seq<Reply>, result: SendResult) {
    replies != [] &&
    var last := Send(replies[|replies| - 1]);
    !last.Delivered? && (last == result || SinceDelivery(replies[..|replies| - 1], result))
  }

  predicate JustDelivered(replies: seq<Reply>) {
    replies != [] && Send(replies[|replies| - 1]).Delivered?
  }

  /** What a handler with a token writes, given the replies to all handlers before it. */
  function EntryFor(before: seq<Reply>, reply: Reply): seq<Log> {
    match Send(reply)
    case AuthRejected => if SinceDelivery(before, AuthRejected) then [] else [WarnAuth]
    case DeliveryFailed => if SinceDelivery(before, DeliveryFailed) then [] else [WarnUnreachable]
    case Delivered => if JustDelivered(before) then [] else [InfoResumed]
  }

  function ExpectedLog(replies: seq<Reply>): seq<Log> {
    if replies == [] then []
    else
      var before := replies[..|replies| - 1];
      ExpectedLog(before) + EntryFor(before, replies[|replies| - 1])
  }

  /** Over every sequential run with a token: a rejection, and a failure, is written when it is the
      first of its kind since the last delivery or the start; a delivery when the handler before it
      did not deliver or it is the first. */
  lemma {:induction false} LogIsExact(replies: seq<Reply>)
    ensures var s := After(true, replies);
            && s.log == ExpectedLog(replies)
            && (s.flags.auth <==> SinceDelivery(replies, AuthRejected))
            && (s.flags.unreachable <==> SinceDelivery(replies, DeliveryFailed))
            && (s.flags.reachable <==> JustDelivered(replies))
            && !s.flags.noToken
  {
    if replies == [] {
    } else {
      var before := replies[..|replies| - 1];
      LogIsExact(before);
      if JustDelivered(before) {
        assert !SinceDelivery(before, DeliveryFailed) && !SinceDelivery(before, AuthRejected);
      }
    }
  }

  /** Without a token the first handler warns, and no other handler ever writes anything. */
  lemma {:induction false} NoTokenWarnsOnce(replies: seq<Reply>)
    ensures var s := After(false, replies);
            && s.log == (if replies == [] then [] else [WarnNoToken])
            && (s.flags.noToken <==> replies != [])
  {
    if replies == [] {
    } else {
      NoTokenWarnsOnce(replies[..|replies| - 1]);
    }
  }

  // ---- Bounds ----

  function Warnings(log: seq<Log>): nat {
    if log == [] then 0
    else Warnings(log[..|log| - 1]) + if log[|log| - 1] == InfoResumed then 0 else 1
  }

  function Recoveries(log: seq<Log>): nat {
    if log == [] then 0
    else Recoveries(log[..|log| - 1]) + if log[|log| - 1] == InfoResumed then 1 else 0
  }

  function One(b: bool): nat {
    if b then 1 else 0
  }

  lemma CountsGrow(log: seq<Log>, more: seq<Log>)
    requires |more| <= 1
    ensures Warnings(log + more) == Warnings(log) + One(more != [] && more[0] != InfoResumed)
    ensures Recoveries(log + more) == Recoveries(log) + One(more != [] && more[0] == InfoResumed)
  {
    if more == [] {
      assert log + more == log;
    } else {
      assert (log + more)[..|log|] == log;
    }
  }

  predicate Bounded(hasToken: bool, s: State) {
    && (s.flags.reachable ==> !s.flags.auth && !s.flags.unreachable && !s.flags.noToken)
    && Warnings(s.log) <= 2 * Recoveries(s.log) + One(s.flags.auth) + One(s.flags.unreachable) + One(s.flags.noToken)
    && Recoveries(s.log) <= Warnings(s.log) + One(s.flags.reachable)
    && (hasToken ==> !s.flags.noToken)
    && (!hasToken ==> Recoveries(s.log) == 0 && !s.flags.reachable && !s.flags.auth && !s.flags.unreachable)
  }

  lemma HandlerKeepsBounds(hasToken: bool, s: State, reply: Reply)
    requires Bounded(hasToken, s)
    ensures var h := Handle(s.flags, hasToken, reply); Bounded(hasToken, State(h.flags, s.log + h.log))
  {
    CountsGrow(s.log, Handle(s.flags, hasToken, reply).log);
  }

  lemma {:induction false} BoundsHold(hasToken: bool, replies: seq<Reply>)
    ensures Bounded(hasToken, After(hasToken, replies))
  {
    if replies == [] {
    } else {
      var init := replies[..|replies| - 1];
      BoundsHold(hasToken, init);
      HandlerKeepsBounds(hasToken, After(hasToken, init), replies[|replies| - 1]);
    }
  }

  /** With a token, warnings stay within two per outage; without one there is a single warning
      for the whole run, and never a recovery. */
  lemma OutageLogIsBounded(hasToken: bool, replies: seq<Reply>)
    ensures var log := After(hasToken, replies).log;
            && (hasToken ==> Warnings(log) <= 2 * (Recoveries(log) + 1))
            && (!hasToken ==> Warnings(log) <= 1 && Recoveries(log) == 0)
            && Recoveries(log) <= Warnings(log) + 1
  {
    BoundsHold(hasToken, replies);
  }

  /** The reported reachability is the outcome of the last handler. */
  lemma ReachableMeansLastDelivered(hasToken: bool, replies: seq<Reply>)
    ensures After(hasToken, replies).flags.reachable
       <==> hasToken && replies != [] && Send(replies[|replies| - 1]).Delivered?
  {
  }

  /** The handler with the `was reachable` half of the unreachable guard left out. */
  function HandleFlagOnly(f: Flags, hasToken: bool, reply: Reply): Handled {
    var h := Handle(f, hasToken, reply);
    if hasToken && Send(reply).DeliveryFailed? then h.(log := Emit(!f.unreachable, WarnUnreachable)) else h
  }

  function AfterFlagOnly(hasToken: bool, replies: seq<Reply>): State {
    if replies == [] then State(INITIAL, [])
    else
      var s := AfterFlagOnly(hasToken, replies[..|replies| - 1]);
      var h := HandleFlagOnly(s.flags, hasToken, replies[|replies| - 1]);
      State(h.flags, s.log + h.log)
  }

  /** In sequential runs that half of the guard never decides anything. */
  lemma {:induction false} WasReachableIsRedundant(hasToken: bool, replies: seq<Reply>)
    ensures AfterFlagOnly(hasToken, replies) == After(hasToken, replies)
  {
    if replies == [] {
    } else {
      var init := replies[..|replies| - 1];
      WasReachableIsRedundant(hasToken, init);
      BoundsHold(hasToken, init);
    }
  }

  /** A sequential run has no silent outage: the handler that turns the server unreachable warns. */
  lemma SequentialOutageWarns(hasToken: bool, replies: seq<Reply>, reply: Reply)
    requires After(hasToken, replies).flags.reachable
    requires !After(hasToken, replies + [reply]).flags.reachable
    ensures |After(hasToken, replies + [reply]).log| == |After(hasToken, replies).log| + 1
  {
    BoundsHold(hasToken, replies);
    ReachableMeansLastDelivered(hasToken, replies);
    assert (replies + [reply])[..|replies|] == replies;
  }

  // ---- Handlers interleaved at their awaits ----

  datatype Pc =
    | AwaitSend
    | AwaitLog(entry: Log)
    | Done(ack: bool)

  datatype Tasks = Tasks(hasToken: bool, flags: Flags, log: seq<Log>, handlers: seq<Pc>)

  datatype Step =
    | Enter
    | Reply(h: nat, reply: ServerClient.Reply)
    | LogWritten(h: nat)

  /** Suspend handler `h` at the logger when there is something to write, else finish it. */
  function WriteOrFinish(t: Tasks, h: nat, wanted: bool, entry: Log): Tasks
    requires h < |t.handlers|
  {
    if wanted then t.(log := t.log + [entry], handlers := t.handlers[h := AwaitLog(entry)])
    else FinishHandler(t, h, entry)
  }

  /** What a handler does after the (possibly skipped) logging await. */
  function FinishHandler(t: Tasks, h: nat, entry: Log): Tasks
    requires h < |t.handlers|
  {
    match entry
    case InfoResumed => t.(flags := DELIVERED, handlers := t.handlers[h := Done(true)])
    case _ => t.(handlers := t.handlers[h := Done(false)])
  }

  function Flagged(f: Flags, entry: Log): Flags {
    match entry
    case WarnNoToken => f.(noToken := true)
    case WarnAuth => f.(auth := true)
    case WarnUnreachable => f.(unreachable := true)
    case InfoResumed => f
  }

  function Next(t: Tasks, step: Step): Tasks {
    match step
    case Enter =>
      var t' := t.(handlers := t.handlers + [AwaitSend]);
      if t.hasToken then t'
      else WriteOrFinish(t'.(flags := t.flags.(reachable := false)), |t.handlers|, !t.flags.noToken, WarnNoToken)
    case Reply(h, reply) =>
      if h >= |t.handlers| || t.handlers[h] != AwaitSend then t
      else
        var down := t.(flags := t.flags.(reachable := false));
        (match Send(reply)
         case AuthRejected => WriteOrFinish(down, h, !t.flags.auth, WarnAuth)
         case DeliveryFailed =>
           WriteOrFinish(down, h, t.flags.reachable || !t.flags.unreachable, WarnUnreachable)
         case Delivered => WriteOrFinish(t, h, !t.flags.reachable, InfoResumed))
    case LogWritten(h) =>
      if h >= |t.handlers| || !t.handlers[h].AwaitLog? then t
      else
        var entry := t.handlers[h].entry;
        FinishHandler(t.(flags := Flagged(t.flags, entry)), h, entry)
  }

  const IDLE := Tasks(true, INITIAL, [], [])

  function Interleave(t: Tasks, steps: seq<Step>): Tasks {
    if steps == [] then t else Next(Interleave(t, steps[..|steps| - 1]), steps[|steps| - 1])
  }

  lemma InterleaveSnoc(t: Tasks, steps: seq<Step>, step: Step)
    ensures Interleave(t, steps + [step]) == Next(Interleave(t, steps), step)
  {
    assert (steps + [step])[..|steps|] == steps;
  }

  lemma {:induction false} InterleaveAppend(t: Tasks, a: seq<Step>, b: seq<Step>)
    ensures Interleave(t, a + b) == Interleave(Interleave(t, a), b)
  {
    if b == [] {
      assert a + b == a;
    } else {
      var init, last := b[..|b| - 1], b[|b| - 1];
      InterleaveAppend(t, a, init);
      assert a + b == (a + init) + [last];
      InterleaveSnoc(t, a + init, last);
      InterleaveSnoc(Interleave(t, a), init, last);
      assert init + [last] == b;
    }
  }

  lemma InterleaveTwo(t: Tasks, a: Step, b: Step)
    ensures Interleave(t, [a, b]) == Next(Next(t, a), b)
  {
    assert [a, b] == [a] + [b] && [a] == [] + [a];
    InterleaveSnoc(t, [], a);
    InterleaveSnoc(t, [a], b);
  }

  lemma InterleaveThree(t: Tasks, a: Step, b: Step, c: Step)
    ensures Interleave(t, [a, b, c]) == Next(Next(Next(t, a), b), c)
  {
    assert [a, b, c] == [a, b] + [c];
    InterleaveTwo(t, a, b);
    InterleaveSnoc(t, [a, b], c);
  }

  lemma LastHandler(handlers: seq<Pc>, pc: Pc, pc': Pc)
    ensures (handlers + [pc])[|handlers|] == pc
    ensures (handlers + [pc])[|handlers| := pc'] == handlers + [pc']
  {
  }

  /** The logging half of a handler that nothing interrupts. */
  lemma WriteAlone(t: Tasks, h: nat, wanted: bool, entry: Log)
    requires h < |t.handlers|
    ensures var done := Next(WriteOrFinish(t, h, wanted, entry), LogWritten(h));
            && done.hasToken == t.hasToken
            && done.flags == (if entry == InfoResumed then DELIVERED
                               else if wanted then Flagged(t.flags, entry) else t.flags)
            && done.log == t.log + Emit(wanted, entry)
            && done.handlers == t.handlers[h := Done(entry == InfoResumed)]
  {
  }

  /** A handler that nothing interrupts does what `Handle` says, whatever else is suspended. */
  lemma UninterruptedHandler(t: Tasks, reply: ServerClient.Reply)
    ensures var h := |t.handlers|;
            var done := Interleave(t, [Enter, Step.Reply(h, reply), LogWritten(h)]);
            var handled := Handle(t.flags, t.hasToken, reply);
            && done.flags == handled.flags
            && done.log == t.log + handled.log
            && done.handlers == t.handlers + [Done(handled.ack)]
  {
    var h := |t.handlers|;
    InterleaveThree(t, Enter, Step.Reply(h, reply), LogWritten(h));
    var entered := t.(handlers := t.handlers + [AwaitSend]);
    var down := entered.(flags := t.flags.(reachable := false));
    var ack := Handle(t.flags, t.hasToken, reply).ack;
    LastHandler(t.handlers, AwaitSend, Done(ack));
    if !t.hasToken {
      WriteAlone(down, h, !t.flags.noToken, WarnNoToken);
      assert !Next(t, Enter).handlers[h].AwaitSend?;
    } else {
      assert Next(t, Enter) == entered;
      match Send(reply)
      case AuthRejected => WriteAlone(down, h, !t.flags.auth, WarnAuth);
      case DeliveryFailed => WriteAlone(down, h, t.flags.reachable || !t.flags.unreachable, WarnUnreachable);
      case Delivered => WriteAlone(entered, h, !t.flags.reachable, InfoResumed);
    }
  }

  /** At any point of any interleaving, the step that turns the server from reachable to
      unreachable stays silent exactly when it is an authentication rejection whose warning
      is already flagged; a delivery error always warns. */
  lemma SilentOutage(t: Tasks, step: Step)
    requires t.hasToken && t.flags.reachable && !Next(t, step).flags.reachable
    ensures Next(t, step).log == t.log
       <==> step.Reply? && Send(step.reply).AuthRejected? && t.flags.auth
    ensures step.Reply? && Send(step.reply).DeliveryFailed? ==> Next(t, step).log == t.log + [WarnUnreachable]
  {
    if Next(t, step).log == t.log + [WarnUnreachable] {
      assert |Next(t, step).log| == |t.log| + 1;
    }
    if Next(t, step).log == t.log + [WarnAuth] {
      assert |Next(t, step).log| == |t.log| + 1;
    }
  }

  /** At any point of any interleaving, a handler that enters without a token writes the warning
      exactly when it is not flagged, and then waits at the logger; else it is done, unacknowledged. */
  lemma EntersWithoutToken(t: Tasks)
    requires !t.hasToken
    ensures var t', h := Next(t, Enter), |t.handlers|;
            && !t'.flags.reachable && |t'.handlers| == h + 1
            && if t.flags.noToken then t'.log == t.log && t'.handlers[h] == Done(false)
               else t'.log == t.log + [WarnNoToken] && t'.handlers[h] == AwaitLog(WarnNoToken)
                    && Next(t', LogWritten(h)).flags.noToken && Next(t', LogWritten(h)).handlers[h] == Done(false)
  {
  }

  predicate OneAtLogger(t: Tasks) {
    forall h, k :: 0 <= h < k < |t.handlers| ==> !t.handlers[h].AwaitLog? || !t.handlers[k].AwaitLog?
  }

  /** No two handlers are ever suspended at the logger together. */
  predicate LoggerShared(t: Tasks, steps: seq<Step>) {
    OneAtLogger(Interleave(t, steps)) && (steps == [] || LoggerShared(t, steps[..|steps| - 1]))
  }

  /** While the server is reachable no handler is at the logger and no rejection is flagged. */
  predicate FlagsInOrder(t: Tasks) {
    t.flags.reachable ==> !t.flags.auth && forall h :: 0 <= h < |t.handlers| ==> !t.handlers[h].AwaitLog?
  }

  lemma StepKeepsOrder(t: Tasks, step: Step)
    requires t.hasToken && FlagsInOrder(t) && OneAtLogger(t) && OneAtLogger(Next(t, step))
    ensures Next(t, step).hasToken && FlagsInOrder(Next(t, step))
  {
  }

  lemma {:induction false} OrderHolds(t: Tasks, steps: seq<Step>)
    requires t.hasToken && FlagsInOrder(t) && LoggerShared(t, steps)
    ensures Interleave(t, steps).hasToken && FlagsInOrder(Interleave(t, steps))
  {
    if steps == [] {
    } else {
      OrderHolds(t, steps[..|steps| - 1]);
      StepKeepsOrder(Interleave(t, steps[..|steps| - 1]), steps[|steps| - 1]);
    }
  }

  /** Over every interleaved run in which no two handlers are ever at the logger together: each step
      that turns the server unreachable writes a warning. */
  lemma NoSilentOutageIfLoggerShared(steps: seq<Step>, step: Step)
    requires LoggerShared(IDLE, steps)
    requires Interleave(IDLE, steps).flags.reachable && !Interleave(IDLE, steps + [step]).flags.reachable
    ensures |Interleave(IDLE, steps + [step]).log| == |Interleave(IDLE, steps).log| + 1
  {
    assert (steps + [step])[..|steps|] == steps;
    OrderHolds(IDLE, steps);
    SilentOutage(Interleave(IDLE, steps), step);
  }

  /** A handler suspended at the logger after a rejection leaves its flag up when the other handler
      recovers in between. */
  lemma InterleavingBreaksFlags(t: Tasks, h: nat, k: nat)
    requires t.hasToken && h < |t.handlers| && k < |t.handlers| && h != k
    requires t.handlers[h].AwaitSend? && t.handlers[k].AwaitSend? && !t.flags.auth
    ensures var t' := Interleave(Next(t, Step.Reply(h, Response(401))),
                                 [Step.Reply(k, Response(200)), LogWritten(k), LogWritten(h)]);
            && t'.flags == DELIVERED.(auth := true) && t'.hasToken && |t'.handlers| == |t.handlers|
  {
    var t1 := Next(t, Step.Reply(h, Response(401)));
    assert t1.handlers[h] == AwaitLog(WarnAuth) && t1.handlers[k].AwaitSend? && !t1.flags.reachable;
    var t2 := Next(t1, Step.Reply(k, Response(200)));
    assert t2.handlers[k] == AwaitLog(InfoResumed) && t2.handlers[h] == AwaitLog(WarnAuth);
    InterleaveThree(t1, Step.Reply(k, Response(200)), LogWritten(k), LogWritten(h));
  }

  const REJECTED_WHILE_RECOVERING := [
    Enter, Enter, Step.Reply(0, Response(401)),
    Step.Reply(1, Response(200)), LogWritten(1), LogWritten(0)]

  /** Two interleaved handlers are enough for a silent outage: from the start, the next rejection
      turns the server unreachable and writes nothing. */
  lemma SilentOutageHappens()
    ensures var t := Interleave(IDLE, REJECTED_WHILE_RECOVERING);
            var t' := Interleave(t, [Enter, Step.Reply(2, Response(401))]);
            && t.flags.reachable && !t'.flags.reachable && t'.log == t.log
  {
    var entered := IDLE.(handlers := [AwaitSend, AwaitSend]);
    assert Next(Next(IDLE, Enter), Enter) == entered;
    var first, rest := REJECTED_WHILE_RECOVERING[..3], REJECTED_WHILE_RECOVERING[3..];
    InterleaveAppend(IDLE, first, rest);
    assert first + rest == REJECTED_WHILE_RECOVERING;
    assert first == [Enter, Enter, Step.Reply(0, Response(401))];
    assert rest == [Step.Reply(1, Response(200)), LogWritten(1), LogWritten(0)];
    InterleaveThree(IDLE, Enter, Enter, Step.Reply(0, Response(401)));
    InterleavingBreaksFlags(entered, 0, 1);
    var t := Interleave(IDLE, REJECTED_WHILE_RECOVERING);
    InterleaveTwo(t, Enter, Step.Reply(2, Response(401)));
  }
}
