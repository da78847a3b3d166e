/** The gateway's lifecycle at every point where one of its coroutines is suspended: one `start`,
    the retry task it may leave behind, any number of publishes, and one `close`.

    A broker is a number; `stopped[b]` says that stopping it has run to its end. Where a coroutine
    continues is recorded in a program counter, and `ok` says whether the call it awaited returned
    (true) or raised (false). Steps that are not enabled leave the state unchanged. */
module Lifecycle {
  import opened Domain

  /** Where a connect attempt is suspended. */
  datatype Pc =
    | ClosingOld(b: nat)        // stopping the broker that is still held
    | Connecting(b: nat)
    | Starting(b: nat)
    | StoppingFailed(b: nat)    // in the exception handler
    | LoggingFailure
    | LoggingReady

  datatype StartTask = NotCalled | StartRuns(pc: Pc) | StartReturned(connected: bool)

  datatype RetryTask =
    | NoRetry
    | RetryCreated              // scheduled, not run yet
    | RetryRuns(pc: Pc)
    | RetrySleeps
    | RetryDone
    | RetryCancelled

  datatype CloseCall = NotClosing | AwaitingRetry | StoppingHeld(b: nat) | Closed

  datatype Publish =
    | NoBroker                  // returned false at once
    | Publishing
    | Confirmed                 // returned true
    | Failed                    // raised inside; returned false

  datatype State = State(
    stopped: seq<bool>, broker: Option<nat>, connected: bool, failLogged: bool,
    start: StartTask, retry: RetryTask, cancelling: bool, close: CloseCall, publishes: seq<Publish>,
    leaked: Option<nat>)        // the broker of a connect attempt that was cancelled, if any

  const INITIAL := State([], None, false, false, NotCalled, NoRetry, false, NotClosing, [], None)

  datatype Step =
    | CallStart
    | ResumeStart(ok: bool)
    | ResumeRetry(ok: bool)
    | CallPublish
    | ResumePublish(i: nat, ok: bool)
    | CallClose
    | ResumeClose(ok: bool)

  /** What an attempt does up to its next suspension: it suspends again, or returns. */
  datatype Progress = Suspended(pc: Pc) | Ended(connected: bool)

  datatype Moved = Moved(s: State, progress: Progress)

  function BuildBroker(s: State): Moved {
    Moved(s.(broker := None, stopped := s.stopped + [false]), Suspended(Connecting(|s.stopped|)))
  }

  function BeginAttempt(s: State): Moved {
    match s.broker
    case Some(b) => Moved(s, Suspended(ClosingOld(b)))
    case None => BuildBroker(s)
  }

  function MarkStopped(s: State, b: nat): State {
    if b < |s.stopped| then s.(stopped := s.stopped[b := true]) else s
  }

  function ResumeAttempt(s: State, pc: Pc, ok: bool): Moved {
    match pc
    case ClosingOld(b) => BuildBroker(MarkStopped(s, b))
    case Connecting(b) =>
      if ok then Moved(s, Suspended(Starting(b)))
      else Moved(s.(connected := false), Suspended(StoppingFailed(b)))
    case Starting(b) =>
      if ok then Moved(s.(broker := Some(b), connected := true, failLogged := false), Suspended(LoggingReady))
      else Moved(s.(connected := false), Suspended(StoppingFailed(b)))
    case StoppingFailed(b) =>
      var s' := MarkStopped(s, b);
      if s.failLogged then Moved(s', Ended(false)) else Moved(s', Suspended(LoggingFailure))
    case LoggingFailure => Moved(s.(failLogged := true), Ended(false))
    case LoggingReady => Moved(s, Ended(true))
  }

  function PlaceStart(m: Moved): State {
    match m.progress
    case Suspended(pc) => m.s.(start := StartRuns(pc))
    case Ended(true) => m.s.(start := StartReturned(true))
    case Ended(false) => m.s.(start := StartReturned(false), retry := RetryCreated)
  }

  function PlaceRetry(m: Moved): State {
    match m.progress
    case Suspended(pc) => m.s.(retry := RetryRuns(pc))
    case Ended(true) => m.s.(retry := RetryDone)
    case Ended(false) => m.s.(retry := RetrySleeps)
  }

  /** The broker that only this suspended attempt knows of. */
  function OwnBroker(pc: Pc): Option<nat> {
    match pc
    case Connecting(b) => Some(b)
    case Starting(b) => Some(b)
    case StoppingFailed(b) => Some(b)
    case _ => None
  }

  /** Cancellation is no `Exception`: the attempt is abandoned where it stands. */
  function CancelRetry(s: State): State {
    s.(retry := RetryCancelled, leaked := if s.retry.RetryRuns? then OwnBroker(s.retry.pc) else None)
  }

  function RetryStep(s: State, ok: bool): State {
    if s.retry.NoRetry? || s.retry.RetryDone? || s.retry.RetryCancelled? then s
    else if s.cancelling then CancelRetry(s)
    else
      match s.retry
      case RetryRuns(pc) => PlaceRetry(ResumeAttempt(s, pc, ok))
      case _ => PlaceRetry(BeginAttempt(s))
  }

  function CloseBroker(s: State): State {
    match s.broker
    case Some(b) => s.(close := StoppingHeld(b))
    case None => s.(close := Closed, connected := false)
  }

  function Next(s: State, step: Step): State {
    match step
    case CallStart =>
      if s.start != NotCalled then s else PlaceStart(BeginAttempt(s))
    case ResumeStart(ok) =>
      if !s.start.StartRuns? then s else PlaceStart(ResumeAttempt(s, s.start.pc, ok))
    case ResumeRetry(ok) => RetryStep(s, ok)
    case CallPublish =>
      s.(publishes := s.publishes + [if s.broker.None? then NoBroker else Publishing])
    case ResumePublish(i, ok) =>
      if i >= |s.publishes| || !s.publishes[i].Publishing? then s
      else s.(publishes := s.publishes[i := if ok then Confirmed else Failed], connected := s.connected && ok)
    case CallClose =>
      if !s.start.StartReturned? || !s.close.NotClosing? then s
      else if s.retry.NoRetry? then CloseBroker(s)
      else s.(cancelling := true, close := AwaitingRetry)
    case ResumeClose(_) =>
      match s.close
      case AwaitingRetry =>
        if s.retry.RetryDone? || s.retry.RetryCancelled? then CloseBroker(s.(retry := NoRetry)) else s
      case StoppingHeld(b) =>
        MarkStopped(s, b).(broker := None, close := Closed, connected := false)
      case _ => s
  }

  function Run(s: State, steps: seq<Step>): State {
    if steps == [] then s else Next(Run(s, steps[..|steps| - 1]), steps[|steps| - 1])
  }

  // ---- What holds at every suspension ----

  function AttemptsInFlight(s: State): nat {
    (if s.start.StartRuns? then 1 else 0) + (if s.retry.RetryRuns? then 1 else 0)
  }

  function Pending(s: State): Option<nat> {
    if s.start.StartRuns? then OwnBroker(s.start.pc)
    else if s.retry.RetryRuns? then OwnBroker(s.retry.pc)
    else None
  }

  predicate PcOk(s: State, pc: Pc) {
    && !pc.ClosingOld?
    && (pc.LoggingReady? <==> s.broker.Some?)
    && (!pc.LoggingReady? ==> !s.connected)
  }

  /** Which coroutines can exist together. */
  predicate Control(s: State) {
    && (s.start.NotCalled? ==> s.retry.NoRetry? && s.stopped == [] && s.broker.None? && !s.connected)
    && (s.start.StartRuns? ==> s.retry.NoRetry? && PcOk(s, s.start.pc))
    && (s.retry.RetryRuns? ==> s.start == StartReturned(false) && PcOk(s, s.retry.pc))
    && (s.start == StartReturned(true) ==> s.retry.NoRetry?)
    && (s.retry.RetryCreated? || s.retry.RetrySleeps? ==> s.broker.None?)
    && (s.retry.NoRetry? && s.start == StartReturned(false) ==> s.close.Closed? || s.close.StoppingHeld?)
    && (!s.start.StartReturned? ==> s.close.NotClosing?)
    && (s.close.AwaitingRetry? <==> s.cancelling && !s.retry.NoRetry?)
    && (s.retry.RetryCancelled? ==> s.cancelling)
    && (s.close.NotClosing? ==> !s.cancelling)
    && (s.close.StoppingHeld? ==> s.retry.NoRetry? && s.broker == Some(s.close.b))
    && (s.close.Closed? ==> s.retry.NoRetry? && s.broker.None?)
    && (s.leaked.Some? ==> s.cancelling && (s.retry.RetryCancelled? || s.retry.NoRetry?))
  }

  /** Who is responsible for each broker, `pending` being the one only a running attempt knows. */
  predicate OwnedWith(s: State, pending: Option<nat>) {
    && (s.connected ==> s.broker.Some?)
    && (s.broker.Some? ==> s.broker.value < |s.stopped| && !s.stopped[s.broker.value])
    && (pending.Some? ==> pending.value < |s.stopped| && !s.stopped[pending.value] && s.broker.None?)
    && (s.leaked.Some? ==> s.leaked.value < |s.stopped| && !s.stopped[s.leaked.value] && s.broker.None?)
    && (forall b :: 0 <= b < |s.stopped| ==>
          s.stopped[b] || s.broker == Some(b) || pending == Some(b) || s.leaked == Some(b))
  }

  predicate Owned(s: State) {
    OwnedWith(s, Pending(s))
  }

  predicate Inv(s: State) {
    Control(s) && Owned(s)
  }

  lemma AttemptKeepsPc(s: State, pc: Pc, ok: bool)
    requires PcOk(s, pc) && (s.connected ==> s.broker.Some?)
    ensures var m := ResumeAttempt(s, pc, ok);
            && (m.progress.Suspended? ==> PcOk(m.s, m.progress.pc))
            && (m.progress == Ended(false) ==> m.s.broker.None? && !m.s.connected)
            && m.s == s.(stopped := m.s.stopped, broker := m.s.broker,
                         connected := m.s.connected, failLogged := m.s.failLogged)
  {
  }

  lemma StartKeepsControl(s: State, ok: bool)
    requires Inv(s)
    ensures Control(Next(s, CallStart)) && Control(Next(s, ResumeStart(ok)))
  {
    if s.start.StartRuns? {
      AttemptKeepsPc(s, s.start.pc, ok);
    }
  }

  lemma RetryKeepsControl(s: State, ok: bool)
    requires Inv(s)
    ensures Control(Next(s, ResumeRetry(ok)))
  {
    if s.retry.RetryRuns? && !s.cancelling {
      AttemptKeepsPc(s, s.retry.pc, ok);
    }
  }

  lemma StepKeepsControl(s: State, step: Step)
    requires Inv(s)
    ensures Control(Next(s, step))
  {
    match step
    case CallStart => StartKeepsControl(s, true);
    case ResumeStart(ok) => StartKeepsControl(s, ok);
    case ResumeRetry(ok) => RetryKeepsControl(s, ok);
    case _ =>
  }

  function ProgressBroker(p: Progress): Option<nat> {
    if p.Suspended? then OwnBroker(p.pc) else None
  }

  /** A connect attempt that goes on passes its broker along: to the next suspension, to the
      gateway when it connected, or to nobody once it has stopped it. */
  lemma AttemptKeepsOwned(s: State, pc: Pc, ok: bool)
    requires OwnedWith(s, OwnBroker(pc)) && PcOk(s, pc) && s.leaked.None?
    ensures var m := ResumeAttempt(s, pc, ok); OwnedWith(m.s, ProgressBroker(m.progress)) && m.s.leaked.None?
  {
  }

  lemma BeginKeepsOwned(s: State)
    requires OwnedWith(s, None) && s.broker.None? && s.leaked.None?
    ensures var m := BeginAttempt(s); OwnedWith(m.s, ProgressBroker(m.progress)) && m.s.leaked.None?
  {
  }

  lemma OwnedIgnoresControl(s: State, t: State, pending: Option<nat>)
    requires OwnedWith(s, pending)
    requires t.stopped == s.stopped && t.broker == s.broker && t.connected == s.connected && t.leaked == s.leaked
    ensures OwnedWith(t, pending)
  {
  }

  lemma StartKeepsOwned(s: State, ok: bool)
    requires Inv(s)
    ensures Owned(Next(s, CallStart)) && Owned(Next(s, ResumeStart(ok)))
  {
    if s.start.StartRuns? {
      AttemptKeepsOwned(s, s.start.pc, ok);
      var m := ResumeAttempt(s, s.start.pc, ok);
      OwnedIgnoresControl(m.s, PlaceStart(m), ProgressBroker(m.progress));
    } else if s.start.NotCalled? {
      BeginKeepsOwned(s);
      var m := BeginAttempt(s);
      OwnedIgnoresControl(m.s, PlaceStart(m), ProgressBroker(m.progress));
    }
  }

  lemma CancelKeepsOwned(s: State)
    requires Inv(s) && s.cancelling && s.leaked.None? && !s.start.StartRuns?
    ensures Owned(CancelRetry(s))
  {
  }

  lemma PlacedIsOwned(s: State, m: Moved)
    requires OwnedWith(m.s, ProgressBroker(m.progress)) && !m.s.start.StartRuns?
    ensures Owned(PlaceRetry(m))
  {
    OwnedIgnoresControl(m.s, PlaceRetry(m), ProgressBroker(m.progress));
  }

  lemma RetryKeepsOwned(s: State, ok: bool)
    requires Inv(s)
    ensures Owned(Next(s, ResumeRetry(ok)))
  {
    if s.retry.NoRetry? || s.retry.RetryDone? || s.retry.RetryCancelled? {
    } else if s.cancelling {
      CancelKeepsOwned(s);
    } else if s.retry.RetryRuns? {
      AttemptKeepsOwned(s, s.retry.pc, ok);
      PlacedIsOwned(s, ResumeAttempt(s, s.retry.pc, ok));
    } else {
      BeginKeepsOwned(s);
      PlacedIsOwned(s, BeginAttempt(s));
    }
  }

  lemma CallCloseKeepsOwned(s: State)
    requires Inv(s)
    ensures Owned(Next(s, CallClose))
  {
  }

  lemma ResumeCloseKeepsOwned(s: State, ok: bool)
    requires Inv(s)
    ensures Owned(Next(s, ResumeClose(ok)))
  {
  }

  lemma StepKeepsOwned(s: State, step: Step)
    requires Inv(s)
    ensures Owned(Next(s, step))
  {
    match step
    case CallStart => StartKeepsOwned(s, true);
    case ResumeStart(ok) => StartKeepsOwned(s, ok);
    case ResumeRetry(ok) => RetryKeepsOwned(s, ok);
    case CallClose => CallCloseKeepsOwned(s);
    case ResumeClose(ok) => ResumeCloseKeepsOwned(s, ok);
    case _ =>
  }

  lemma {:induction false} ReachableInv(steps: seq<Step>)
    ensures Inv(Run(INITIAL, steps))
  {
    if steps == [] {
    } else {
      ReachableInv(steps[..|steps| - 1]);
      StepKeepsControl(Run(INITIAL, steps[..|steps| - 1]), steps[|steps| - 1]);
      StepKeepsOwned(Run(INITIAL, steps[..|steps| - 1]), steps[|steps| - 1]);
    }
  }

  /** At every suspension of every interleaving: a connected queue has a live broker, there is at
      most one connect attempt, no attempt ever finds an old broker to close, and each broker is
      held, owned by the running attempt, stopped, or the one a cancellation left behind. */
  lemma SafeAtEverySuspension(steps: seq<Step>)
    ensures var s := Run(INITIAL, steps);
            && (s.connected ==> s.broker.Some? && s.broker.value < |s.stopped| && !s.stopped[s.broker.value])
            && AttemptsInFlight(s) <= 1
            && (s.start.StartRuns? ==> !s.start.pc.ClosingOld?)
            && (s.retry.RetryRuns? ==> !s.retry.pc.ClosingOld?)
            && (forall b :: 0 <= b < |s.stopped| ==>
                  s.stopped[b] || s.broker == Some(b) || Pending(s) == Some(b) || s.leaked == Some(b))
  {
    ReachableInv(steps);
  }

  /** Once `close` has returned there is no task, no broker and no connected queue, every broker
      ever built is stopped except the one a cancelled attempt left behind, and none of this
      changes again. */
  lemma {:induction false} ClosedForGood(before: seq<Step>, after: seq<Step>)
    requires Run(INITIAL, before).close.Closed?
    ensures var s, t := Run(INITIAL, before), Run(Run(INITIAL, before), after);
            && t.close.Closed? && t.retry.NoRetry? && t.broker.None? && !t.connected
            && t.start == s.start && t.stopped == s.stopped && t.leaked == s.leaked
            && (forall b :: 0 <= b < |s.stopped| ==> (s.stopped[b] <==> s.leaked != Some(b)))
  {
    ReachableInv(before);
    var s := Run(INITIAL, before);
    if after == [] {
      ClosedDisconnected(before);
    } else {
      ClosedForGood(before, after[..|after| - 1]);
    }
  }

  lemma {:induction false} ClosedDisconnected(steps: seq<Step>)
    ensures Run(INITIAL, steps).close.Closed? ==> !Run(INITIAL, steps).connected
  {
    ReachableInv(steps);
  }

  // ---- The broker of a cancelled attempt ----

  lemma {:induction false} RunAppend(s: State, a: seq<Step>, b: seq<Step>)
    ensures Run(s, a + b) == Run(Run(s, a), b)
  {
    if b == [] {
      assert a + b == a;
    } else {
      RunAppend(s, a, b[..|b| - 1]);
      assert (a + b)[..|a + b| - 1] == a + b[..|b| - 1];
    }
  }

  /** The broker that a cancellation would abandon. */
  function Doomed(s: State): Option<nat> {
    if s.retry.RetryRuns? then OwnBroker(s.retry.pc) else None
  }

  /** How `close`, called in `s`, is getting on: either the cancellation has not reached the retry
      task yet, or the task is over and has abandoned what it was going to. */
  predicate Closing(s: State, s': State) {
    && s'.start.StartReturned? && !s'.close.NotClosing?
    && if s'.retry.NoRetry? || s'.retry.RetryDone? || s'.retry.RetryCancelled? then s'.leaked == Doomed(s)
       else s'.cancelling && s'.retry == s.retry
  }

  lemma CloseBegins(s: State)
    requires Inv(s) && s.start.StartReturned? && s.close.NotClosing?
    ensures Closing(s, Next(s, CallClose))
  {
  }

  lemma CloseGoesOn(s: State, s': State, step: Step)
    requires Closing(s, s')
    ensures Closing(s, Next(s', step))
  {
  }

  lemma {:induction false} ClosingRun(s: State, s': State, steps: seq<Step>)
    requires Closing(s, s')
    ensures Closing(s, Run(s', steps))
  {
    if steps == [] {
    } else {
      ClosingRun(s, s', steps[..|steps| - 1]);
      CloseGoesOn(s, Run(s', steps[..|steps| - 1]), steps[|steps| - 1]);
    }
  }

  /** In every run in which `close` is called after `start` has returned, and returns: a broker is
      left running if and only if, when `close` was called, the retry task was connecting, starting
      or stopping it. */
  lemma LeftRunningIffMidAttempt(before: seq<Step>, after: seq<Step>)
    requires Run(INITIAL, before).start.StartReturned? && Run(INITIAL, before).close.NotClosing?
    requires Run(Next(Run(INITIAL, before), CallClose), after).close.Closed?
    ensures var s, t := Run(INITIAL, before), Run(Next(Run(INITIAL, before), CallClose), after);
            forall b :: 0 <= b < |t.stopped| ==>
              (!t.stopped[b] <==> s.retry.RetryRuns? && OwnBroker(s.retry.pc) == Some(b))
    ensures var s, t := Run(INITIAL, before), Run(Next(Run(INITIAL, before), CallClose), after);
            s.retry.RetryRuns? && OwnBroker(s.retry.pc).Some? ==> OwnBroker(s.retry.pc).value < |t.stopped|
  {
    var s := Run(INITIAL, before);
    var t := Run(Next(s, CallClose), after);
    ReachableInv(before);
    CloseBegins(s);
    ClosingRun(s, Next(s, CallClose), after);
    var whole := before + [CallClose] + after;
    assert Run(INITIAL, whole) == t by {
      RunAppend(INITIAL, before + [CallClose], after);
      assert (before + [CallClose])[..|before|] == before;
    }
    ReachableInv(whole);
  }

  lemma RunFour(s: State, a: Step, b: Step, c: Step, d: Step)
    ensures Run(s, [a, b, c, d]) == Next(Next(Next(Next(s, a), b), c), d)
  {
    assert Run(s, []) == s;
    assert [a][..0] == [] && [a, b][..1] == [a] && [a, b, c][..2] == [a, b] && [a, b, c, d][..3] == [a, b, c];
    assert Run(s, [a]) == Next(s, a);
    assert Run(s, [a, b]) == Next(Next(s, a), b);
    assert Run(s, [a, b, c]) == Next(Next(Next(s, a), b), c);
  }

  /** The first attempt fails, and `close` comes while the retry task connects. */
  const FAILED_START := [CallStart, ResumeStart(false), ResumeStart(true), ResumeStart(true)]
  const CLOSE_WHILE_RETRYING := [ResumeRetry(true), CallClose, ResumeRetry(true), ResumeClose(true)]

  /** A run that leaves a broker running: `close` has returned, and broker 1 was never stopped. */
  lemma CancellationLeaks()
    ensures var s := Run(INITIAL, FAILED_START + CLOSE_WHILE_RETRYING);
            s.close.Closed? && s.stopped == [true, false]
  {
    RunAppend(INITIAL, FAILED_START, CLOSE_WHILE_RETRYING);
    RunFour(INITIAL, CallStart, ResumeStart(false), ResumeStart(true), ResumeStart(true));
    var s1 := Next(INITIAL, CallStart);
    assert s1 == INITIAL.(stopped := [false], start := StartRuns(Connecting(0)));
    var s2 := Next(s1, ResumeStart(false));
    assert s2 == s1.(start := StartRuns(StoppingFailed(0)));
    var s3 := Next(s2, ResumeStart(true));
    assert s3 == s2.(stopped := [true], start := StartRuns(LoggingFailure));
    var s4 := Next(s3, ResumeStart(true));
    assert s4 == s3.(failLogged := true, start := StartReturned(false), retry := RetryCreated);
    RunFour(s4, ResumeRetry(true), CallClose, ResumeRetry(true), ResumeClose(true));
    var s5 := Next(s4, ResumeRetry(true));
    assert s5 == s4.(stopped := [true, false], retry := RetryRuns(Connecting(1)));
    var s6 := Next(s5, CallClose);
    assert s6 == s5.(cancelling := true, close := AwaitingRetry);
    var s7 := Next(s6, ResumeRetry(true));
    assert s7 == s6.(retry := RetryCancelled, leaked := Some(1));
  }

  // ---- An attempt that nothing interrupts ----

  /** The rest of a suspended attempt when its awaits go as told and no other step comes between. */
  function Drive(s: State, pc: Pc, connects: bool, starts: bool): Moved
    decreases match pc
              case ClosingOld(_) => 5
              case Connecting(_) => 4
              case Starting(_) => 3
              case StoppingFailed(_) => 2
              case _ => 1
  {
    var m := ResumeAttempt(s, pc, if pc.Connecting? then connects else starts);
    match m.progress
    case Ended(_) => m
    case Suspended(pc') => Drive(m.s, pc', connects, starts)
  }

  function Attempt(s: State, connects: bool, starts: bool): Moved {
    var m := BeginAttempt(s);
    match m.progress
    case Ended(_) => m
    case Suspended(pc) => Drive(m.s, pc, connects, starts)
  }

  lemma DriveFailure(s: State, b: nat, connects: bool, starts: bool)
    ensures Drive(s, StoppingFailed(b), connects, starts) == Moved(MarkStopped(s, b).(failLogged := true), Ended(false))
  {
    var s' := MarkStopped(s, b);
    if !s.failLogged {
      assert Drive(s, StoppingFailed(b), connects, starts) == Drive(s', LoggingFailure, connects, starts);
    }
  }

  lemma DriveNew(s: State, b: nat, connects: bool, starts: bool)
    ensures Drive(s, Connecting(b), connects, starts)
         == if connects && starts
            then Moved(s.(broker := Some(b), connected := true, failLogged := false), Ended(true))
            else Moved(MarkStopped(s, b).(connected := false, failLogged := true), Ended(false))
  {
    var failed := s.(connected := false);
    DriveFailure(failed, b, connects, starts);
    if connects {
      assert Drive(s, Connecting(b), connects, starts) == Drive(s, Starting(b), connects, starts);
      var ready := s.(broker := Some(b), connected := true, failLogged := false);
      if starts {
        assert Drive(s, Starting(b), connects, starts) == Drive(ready, LoggingReady, connects, starts);
      } else {
        assert Drive(s, Starting(b), connects, starts) == Drive(failed, StoppingFailed(b), connects, starts);
      }
    } else {
      assert Drive(s, Connecting(b), connects, starts) == Drive(failed, StoppingFailed(b), connects, starts);
    }
  }

  function StoppedHeld(s: State): seq<bool>
    requires s.broker.Some? ==> s.broker.value < |s.stopped|
  {
    if s.broker.Some? then s.stopped[s.broker.value := true] else s.stopped
  }

  function Outcome(s: State, ok: bool): Moved
    requires s.broker.Some? ==> s.broker.value < |s.stopped|
  {
    Moved(s.(stopped := StoppedHeld(s) + [!ok], broker := if ok then Some(|s.stopped|) else None,
             connected := ok, failLogged := !ok),
          Ended(ok))
  }

  /** It ends connected exactly when both awaits return; then its broker is held and running, and
      otherwise no broker is held and its own is stopped. An old broker is stopped either way. */
  lemma AttemptOutcome(s: State, connects: bool, starts: bool)
    requires s.broker.Some? ==> s.broker.value < |s.stopped|
    ensures Attempt(s, connects, starts) == Outcome(s, connects && starts)
  {
    var old' := StoppedHeld(s);
    var b := |s.stopped|;
    var fresh' := s.(broker := None, stopped := old' + [false]);
    if s.broker.Some? {
      assert Attempt(s, connects, starts) == Drive(s, ClosingOld(s.broker.value), connects, starts);
      assert Drive(s, ClosingOld(s.broker.value), connects, starts) == Drive(fresh', Connecting(b), connects, starts);
    } else {
      assert Attempt(s, connects, starts) == Drive(fresh', Connecting(b), connects, starts);
    }
    DriveNew(fresh', b, connects, starts);
    assert (old' + [false])[b := true] == old' + [true];
  }

  /** The state after a `close` that nothing else interrupts. */
  function CloseOutcome(s: State): State
    requires s.broker.Some? ==> s.broker.value < |s.stopped|
  {
    s.(stopped := StoppedHeld(s), broker := None, connected := false, retry := NoRetry,
       cancelling := !s.retry.NoRetry?, close := Closed, leaked := Doomed(s))
  }

  /** `start` has returned and `close` has not been called. */
  predicate Closable(s: State) {
    Inv(s) && s.start.StartReturned? && s.close.NotClosing?
  }

  function CloseSteps(ok: bool): seq<Step> {
    [CallClose, ResumeRetry(ok), ResumeClose(ok), ResumeClose(ok)]
  }

  /** It cancels and awaits the retry task, then stops the broker that is held. */
  lemma UninterruptedClose(s: State, ok: bool)
    requires Closable(s)
    ensures Run(s, CloseSteps(ok)) == CloseOutcome(s)
  {
    RunFour(s, CallClose, ResumeRetry(ok), ResumeClose(ok), ResumeClose(ok));
    var s1 := Next(s, CallClose);
    var s2 := Next(s1, ResumeRetry(ok));
    var cancelled := s.(retry := NoRetry, cancelling := true, leaked := Doomed(s));
    if s.retry.NoRetry? {
      assert s2 == CloseBroker(s);
    } else {
      assert s2.(retry := NoRetry, close := s.close) == cancelled;
      assert Next(s2, ResumeClose(ok)) == CloseBroker(cancelled);
    }
  }

  // ---- The readiness flag ----

  function Rises(s: State, steps: seq<Step>): nat {
    if steps == [] then 0
    else
      var before := Run(s, steps[..|steps| - 1]);
      Rises(s, steps[..|steps| - 1]) + if !before.connected && Run(s, steps).connected then 1 else 0
  }

  /** No attempt can succeed any more: one has, or the last one was cancelled. */
  predicate AttemptsOver(s: State) {
    || s.start == StartRuns(LoggingReady) || s.start == StartReturned(true)
    || s.retry == RetryRuns(LoggingReady) || s.retry.RetryDone? || s.retry.RetryCancelled?
    || s.close.Closed? || s.close.StoppingHeld?
  }

  lemma RiseEndsAttempts(s: State, step: Step)
    requires Inv(s)
    ensures !s.connected && Next(s, step).connected ==> !AttemptsOver(s) && AttemptsOver(Next(s, step))
    ensures AttemptsOver(s) ==> AttemptsOver(Next(s, step))
  {
  }

  /** The queue is reported connected at most once in the life of the process, by the attempt that
      succeeds; a publish that fails after that turns the report off for good. */
  lemma {:induction false} ConnectedRisesOnce(steps: seq<Step>)
    ensures var s := Run(INITIAL, steps);
            && Rises(INITIAL, steps) <= 1
            && (Rises(INITIAL, steps) == 1 ==> AttemptsOver(s))
            && (s.connected ==> Rises(INITIAL, steps) == 1)
  {
    if steps == [] {
    } else {
      ConnectedRisesOnce(steps[..|steps| - 1]);
      ReachableInv(steps[..|steps| - 1]);
      RiseEndsAttempts(Run(INITIAL, steps[..|steps| - 1]), steps[|steps| - 1]);
    }
  }

  /** Once connected and disconnected again, no step reconnects. */
  lemma NeverReconnects(before: seq<Step>, step: Step)
    requires Rises(INITIAL, before) == 1 && !Run(INITIAL, before).connected
    ensures !Run(INITIAL, before + [step]).connected
  {
    assert (before + [step])[..|before|] == before;
    ConnectedRisesOnce(before + [step]);
  }

  /** A broker comes with a rise of the report and goes with the end of `close`. */
  lemma BrokerStep(s: State, step: Step)
    requires Inv(s)
    ensures var s' := Next(s, step);
            && (s.broker.None? && s'.broker.Some? <==> !s.connected && s'.connected)
            && (s.broker.Some? && s'.broker.None? ==> s'.close.Closed?)
            && (s.close.Closed? ==> s'.close.Closed?)
            && (s'.close.Closed? ==> s'.broker.None?)
  {
  }

  /** Over every run: a broker is held from the one attempt that succeeds until `close` has ended. */
  lemma {:induction false} HeldFromRiseToClose(steps: seq<Step>)
    ensures var s := Run(INITIAL, steps);
            s.broker.Some? <==> Rises(INITIAL, steps) == 1 && !s.close.Closed?
  {
    if steps == [] {
    } else {
      HeldFromRiseToClose(steps[..|steps| - 1]);
      ReachableInv(steps[..|steps| - 1]);
      BrokerStep(Run(INITIAL, steps[..|steps| - 1]), steps[|steps| - 1]);
      ConnectedRisesOnce(steps);
    }
  }

  // ---- The retry task does not give up ----

  /** `start` has returned false, nobody has called `close`, and no broker has come since. */
  predicate Waiting(s: State) {
    s.start == StartReturned(false) && s.close.NotClosing? && s.broker.None?
  }

  /** The retry task is between two attempts, about to make one. */
  predicate BetweenAttempts(s: State) {
    (s.retry.RetryCreated? || s.retry.RetrySleeps?) && !s.cancelling && s.broker.None?
  }

  predicate RetryGoesOn(s: State) {
    Waiting(s) ==> s.retry.RetryCreated? || s.retry.RetryRuns? || s.retry.RetrySleeps?
  }

  lemma AttemptEndsConnected(s: State, pc: Pc, ok: bool)
    requires PcOk(s, pc)
    ensures var m := ResumeAttempt(s, pc, ok); m.progress == Ended(true) ==> m.s.broker.Some?
  {
  }

  lemma StepGoesOn(s: State, step: Step)
    requires Inv(s) && RetryGoesOn(s)
    ensures RetryGoesOn(Next(s, step))
  {
    if s.retry.RetryRuns? && step.ResumeRetry? {
      AttemptEndsConnected(s, s.retry.pc, step.ok);
    }
    if s.start.StartRuns? && step.ResumeStart? {
      AttemptEndsConnected(s, s.start.pc, step.ok);
    }
  }

  /** Over every run in which `start` has returned false, `close` has not been called and no broker
      has come, the retry task exists and has not ended. */
  lemma {:induction false} RetryNeverGivesUp(steps: seq<Step>)
    ensures var s := Run(INITIAL, steps);
            s.start == StartReturned(false) && s.close.NotClosing? && s.broker.None? ==>
              !s.retry.NoRetry? && !s.retry.RetryDone? && !s.retry.RetryCancelled? && !s.cancelling
  {
    if steps == [] {
    } else {
      RetryNeverGivesUp(steps[..|steps| - 1]);
      ReachableInv(steps[..|steps| - 1]);
      StepGoesOn(Run(INITIAL, steps[..|steps| - 1]), steps[|steps| - 1]);
      ReachableInv(steps);
    }
  }

  /** The awaits that follow a failed attempt: stop the broker, and log unless that was done before. */
  function CleanUp(failLogged: bool): seq<Step> {
    if failLogged then [ResumeRetry(true)] else [ResumeRetry(true), ResumeRetry(true)]
  }

  /** The awaits of one attempt of the retry task, once it has built a broker and asked to connect. */
  function AttemptRest(connects: bool, starts: bool, failLogged: bool): seq<Step> {
    if !connects then CleanUp(failLogged)
    else if starts then [ResumeRetry(true), ResumeRetry(true)]
    else [ResumeRetry(false)] + CleanUp(failLogged)
  }

  function AttemptSteps(connects: bool, starts: bool, failLogged: bool): seq<Step> {
    [ResumeRetry(true), ResumeRetry(connects)] + AttemptRest(connects, starts, failLogged)
  }

  lemma RunOne(s: State, a: Step)
    ensures Run(s, [a]) == Next(s, a)
  {
    assert [a][..0] == [] && Run(s, []) == s;
  }

  lemma RunTwo(s: State, a: Step, b: Step)
    ensures Run(s, [a, b]) == Next(Next(s, a), b)
  {
    assert [a, b][..1] == [a];
    RunOne(s, a);
  }

  lemma StopsFailed(s: State, b: nat)
    requires s.retry == RetryRuns(StoppingFailed(b)) && !s.cancelling
    ensures Next(s, ResumeRetry(true))
         == MarkStopped(s, b).(retry := if s.failLogged then RetrySleeps else RetryRuns(LoggingFailure))
  {
  }

  lemma LogsFailure(s: State)
    requires s.retry == RetryRuns(LoggingFailure) && !s.cancelling
    ensures Next(s, ResumeRetry(true)) == s.(failLogged := true, retry := RetrySleeps)
  {
  }

  lemma CleanUpRun(s: State, b: nat)
    requires s.retry == RetryRuns(StoppingFailed(b)) && !s.cancelling
    ensures Run(s, CleanUp(s.failLogged)) == MarkStopped(s, b).(failLogged := true, retry := RetrySleeps)
  {
    StopsFailed(s, b);
    if s.failLogged {
      RunOne(s, ResumeRetry(true));
    } else {
      LogsFailure(Next(s, ResumeRetry(true)));
      RunTwo(s, ResumeRetry(true), ResumeRetry(true));
    }
  }

  /** The first two resumptions build a broker and connect it. */
  lemma ConnectingRun(s: State, connects: bool)
    requires BetweenAttempts(s)
    ensures Run(s, [ResumeRetry(true), ResumeRetry(connects)]) == AfterConnect(s, connects)
  {
    RunTwo(s, ResumeRetry(true), ResumeRetry(connects));
  }

  function AfterConnect(s: State, connects: bool): State {
    var built := s.(stopped := s.stopped + [false]);
    if connects then built.(retry := RetryRuns(Starting(|s.stopped|)))
    else built.(connected := false, retry := RetryRuns(StoppingFailed(|s.stopped|)))
  }

  /** The state after one attempt of the retry task: connected and done, or asleep. */
  function AfterAttempt(s: State, ok: bool): State {
    s.(stopped := s.stopped + [!ok], broker := if ok then Some(|s.stopped|) else None,
       connected := ok, failLogged := !ok, retry := if ok then RetryDone else RetrySleeps)
  }

  lemma FailureRun(s: State, s': State)
    requires s.broker.None? && !s.cancelling
    requires s' == s.(stopped := s.stopped + [false], connected := false,
                      retry := RetryRuns(StoppingFailed(|s.stopped|)))
    ensures Run(s', CleanUp(s.failLogged)) == AfterAttempt(s, false)
  {
    CleanUpRun(s', |s.stopped|);
    assert (s.stopped + [false])[|s.stopped| := true] == s.stopped + [true];
  }

  /** An attempt of the retry task that nothing interrupts ends the task when both awaits return, and
      puts it back to sleep with its broker stopped when one raises. */
  lemma RetryAttemptRun(s: State, connects: bool, starts: bool)
    requires BetweenAttempts(s)
    ensures Run(s, AttemptSteps(connects, starts, s.failLogged)) == AfterAttempt(s, connects && starts)
  {
    var t := AfterConnect(s, connects);
    RunAppend(s, [ResumeRetry(true), ResumeRetry(connects)], AttemptRest(connects, starts, s.failLogged));
    ConnectingRun(s, connects);
    if !connects {
      FailureRun(s, t);
    } else if starts {
      RunTwo(t, ResumeRetry(true), ResumeRetry(true));
    } else {
      RunAppend(t, [ResumeRetry(false)], CleanUp(s.failLogged));
      RunOne(t, ResumeRetry(false));
      FailureRun(s, Next(t, ResumeRetry(false)));
    }
  }

  predicate Succeeds(script: seq<(bool, bool)>) {
    script != [] &&
    (Succeeds(script[..|script| - 1]) || (script[|script| - 1].0 && script[|script| - 1].1))
  }

  /** Attempts as the script says, up to the first that succeeds. */
  function Tried(s: State, script: seq<(bool, bool)>): State {
    if script == [] then s
    else
      var init, last := script[..|script| - 1], script[|script| - 1];
      if Succeeds(init) then Tried(s, init) else AfterAttempt(Tried(s, init), last.0 && last.1)
  }

  function TriedSteps(s: State, script: seq<(bool, bool)>): seq<Step> {
    if script == [] then []
    else
      var init, last := script[..|script| - 1], script[|script| - 1];
      TriedSteps(s, init) + if Succeeds(init) then [] else AttemptSteps(last.0, last.1, Tried(s, init).failLogged)
  }

  /** The retry task makes one attempt after the other until one succeeds, and then ends. */
  lemma {:induction false} TriedIsARun(s: State, script: seq<(bool, bool)>)
    requires BetweenAttempts(s)
    ensures Run(s, TriedSteps(s, script)) == Tried(s, script)
    ensures if Succeeds(script) then Tried(s, script).retry.RetryDone? else BetweenAttempts(Tried(s, script))
  {
    if script == [] {
    } else {
      var init, last := script[..|script| - 1], script[|script| - 1];
      TriedIsARun(s, init);
      if Succeeds(init) {
        assert TriedSteps(s, init) + [] == TriedSteps(s, init);
      } else {
        RunAppend(s, TriedSteps(s, init), AttemptSteps(last.0, last.1, Tried(s, init).failLogged));
        RetryAttemptRun(Tried(s, init), last.0, last.1);
      }
    }
  }

  lemma SucceedsNext(script: seq<(bool, bool)>, i: nat)
    requires i < |script|
    ensures Succeeds(script[..i + 1]) <==> Succeeds(script[..i]) || (script[i].0 && script[i].1)
  {
    assert script[..i + 1][..i] == script[..i];
  }

  lemma TriedNext(s: State, script: seq<(bool, bool)>, i: nat)
    requires i < |script| && !Succeeds(script[..i])
    ensures Tried(s, script[..i + 1]) == AfterAttempt(Tried(s, script[..i]), script[i].0 && script[i].1)
  {
    assert script[..i + 1][..i] == script[..i];
  }

  lemma {:induction false} TriedStops(s: State, script: seq<(bool, bool)>, n: nat)
    requires n <= |script| && Succeeds(script[..n])
    ensures Tried(s, script) == Tried(s, script[..n]) && Succeeds(script)
  {
    if n == |script| {
      assert script[..n] == script;
    } else {
      var init := script[..|script| - 1];
      assert init[..n] == script[..n];
      TriedStops(s, init, n);
    }
  }

  /** An attempt that starts between two others leaves an object as `AfterAttempt` says. */
  lemma PlacedAttempt(s: State, connects: bool, starts: bool)
    requires BetweenAttempts(s)
    ensures PlaceRetry(Attempt(s, connects, starts)) == AfterAttempt(s, connects && starts)
    ensures !(connects && starts) ==> BetweenAttempts(AfterAttempt(s, connects && starts))
  {
    AttemptOutcome(s, connects, starts);
  }

  /** The attempt at place `i` of a script, made by an object that is where the script says. */
  lemma AttemptFollows(before: State, now: State, script: seq<(bool, bool)>, i: nat)
    requires i < |script| && !Succeeds(script[..i])
    ensures BetweenAttempts(before) && now == Tried(before, script[..i]) && BetweenAttempts(now) ==>
              var next := PlaceRetry(Attempt(now, script[i].0, script[i].1));
              && next == Tried(before, script[..i + 1])
              && (!(script[i].0 && script[i].1) ==> BetweenAttempts(next))
  {
    TriedNext(before, script, i);
    if BetweenAttempts(now) {
      PlacedAttempt(now, script[i].0, script[i].1);
    }
  }

  lemma TriedIsRun(s: State, script: seq<(bool, bool)>)
    ensures BetweenAttempts(s) ==> Run(s, TriedSteps(s, script)) == Tried(s, script)
  {
    if BetweenAttempts(s) {
      TriedIsARun(s, script);
    }
  }

  /** How many resumptions lead from here to a held broker when every await returns. */
  function Needed(s: State): nat {
    match s.retry
    case RetryRuns(Connecting(_)) => 2
    case RetryRuns(Starting(_)) => 1
    case RetryRuns(StoppingFailed(_)) => if s.failLogged then 4 else 5
    case RetryRuns(LoggingFailure) => 4
    case _ => 3
  }

  function Returning(n: nat): seq<Step> {
    seq(n, _ => ResumeRetry(true))
  }

  lemma ReturningNext(s: State, n: nat)
    ensures Run(s, Returning(n + 1)) == Run(Next(s, ResumeRetry(true)), Returning(n))
  {
    assert Returning(n + 1) == [ResumeRetry(true)] + Returning(n);
    RunAppend(s, [ResumeRetry(true)], Returning(n));
    RunOne(s, ResumeRetry(true));
  }

  lemma OneStepCloser(s: State)
    requires Inv(s) && Waiting(s) && RetryGoesOn(s)
    ensures var s' := Next(s, ResumeRetry(true));
            if Needed(s) == 1 then s'.broker.Some? && s'.connected
            else Inv(s') && Waiting(s') && RetryGoesOn(s') && Needed(s') + 1 == Needed(s)
  {
    StepKeepsControl(s, ResumeRetry(true));
    StepKeepsOwned(s, ResumeRetry(true));
  }

  lemma {:induction false} WaitingCanConnect(s: State)
    requires Inv(s) && Waiting(s) && RetryGoesOn(s)
    ensures var t := Run(s, Returning(Needed(s))); t.broker.Some? && t.connected
    decreases Needed(s)
  {
    OneStepCloser(s);
    ReturningNext(s, Needed(s) - 1);
    if Needed(s) == 1 {
      assert Run(Next(s, ResumeRetry(true)), Returning(0)) == Next(s, ResumeRetry(true));
    } else {
      WaitingCanConnect(Next(s, ResumeRetry(true)));
    }
  }

  /** So, however many attempts have failed, at most five resumptions whose awaits return connect it. */
  lemma RetryConnectsOnceReachable(steps: seq<Step>)
    requires var s := Run(INITIAL, steps); s.start == StartReturned(false) && s.close.NotClosing? && s.broker.None?
    ensures exists n :: 0 <= n <= 5 &&
              var t := Run(INITIAL, steps + Returning(n)); t.broker.Some? && t.connected
  {
    var s := Run(INITIAL, steps);
    ReachableInv(steps);
    RetryNeverGivesUp(steps);
    WaitingCanConnect(s);
    RunAppend(INITIAL, steps, Returning(Needed(s)));
  }

  // ---- What the readiness flag says while a broker is held ----

  predicate NoneFailed(publishes: seq<Publish>) {
    forall i :: 0 <= i < |publishes| ==> !publishes[i].Failed?
  }

  /** While a broker is held the report is whether no publish failed; before, none even started. */
  predicate ReportOk(s: State) {
    && (s.broker.Some? ==> (s.connected <==> NoneFailed(s.publishes)))
    && (s.broker.None? && !s.close.Closed? ==> forall i :: 0 <= i < |s.publishes| ==> s.publishes[i].NoBroker?)
  }

  lemma PublishKeepsReport(s: State, i: nat, ok: bool)
    requires ReportOk(s)
    ensures ReportOk(Next(s, ResumePublish(i, ok)))
  {
    if i < |s.publishes| && s.publishes[i].Publishing? {
      var publishes := Next(s, ResumePublish(i, ok)).publishes;
      assert publishes[i] == if ok then Confirmed else Failed;
      assert forall k :: 0 <= k < |publishes| && k != i ==> publishes[k] == s.publishes[k];
    }
  }

  lemma CallKeepsReport(s: State)
    requires ReportOk(s)
    ensures ReportOk(Next(s, CallPublish))
  {
    var publishes := Next(s, CallPublish).publishes;
    assert forall k :: 0 <= k < |s.publishes| ==> publishes[k] == s.publishes[k];
  }

  lemma AttemptKeepsReport(s: State, pc: Pc, ok: bool)
    requires Inv(s) && ReportOk(s) && PcOk(s, pc) && !s.close.Closed?
    ensures ReportOk(ResumeAttempt(s, pc, ok).s)
  {
  }

  lemma StartKeepsReport(s: State, ok: bool)
    requires Inv(s) && ReportOk(s)
    ensures ReportOk(Next(s, CallStart)) && ReportOk(Next(s, ResumeStart(ok)))
  {
    if s.start.StartRuns? {
      AttemptKeepsReport(s, s.start.pc, ok);
    }
  }

  lemma RetryKeepsReport(s: State, ok: bool)
    requires Inv(s) && ReportOk(s)
    ensures ReportOk(Next(s, ResumeRetry(ok)))
  {
    if s.retry.RetryRuns? {
      AttemptKeepsReport(s, s.retry.pc, ok);
    }
  }

  lemma CloseKeepsReport(s: State, ok: bool)
    requires Inv(s) && ReportOk(s)
    ensures ReportOk(Next(s, CallClose)) && ReportOk(Next(s, ResumeClose(ok)))
  {
  }

  lemma StepKeepsReport(s: State, step: Step)
    requires Inv(s) && ReportOk(s)
    ensures ReportOk(Next(s, step))
  {
    match step
    case CallPublish => CallKeepsReport(s);
    case ResumePublish(i, ok) => PublishKeepsReport(s, i, ok);
    case CallStart => StartKeepsReport(s, true);
    case ResumeStart(ok) => StartKeepsReport(s, ok);
    case ResumeRetry(ok) => RetryKeepsReport(s, ok);
    case CallClose => CloseKeepsReport(s, true);
    case ResumeClose(ok) => CloseKeepsReport(s, ok);
  }

  lemma {:induction false} ReachableReport(steps: seq<Step>)
    ensures ReportOk(Run(INITIAL, steps))
  {
    if steps == [] {
    } else {
      ReachableReport(steps[..|steps| - 1]);
      ReachableInv(steps[..|steps| - 1]);
      StepKeepsReport(Run(INITIAL, steps[..|steps| - 1]), steps[|steps| - 1]);
    }
  }

  /** Over every run: while a broker is held, and so publishing works, the queue is reported connected
      if and only if no publish has failed so far. Without a broker it never is. */
  lemma ConnectedIffNoPublishFailed(steps: seq<Step>)
    ensures var s := Run(INITIAL, steps);
            s.connected <==> s.broker.Some? && NoneFailed(s.publishes)
  {
    ReachableInv(steps);
    ReachableReport(steps);
  }

  const CONNECTED_START := [CallStart, ResumeStart(true), ResumeStart(true), ResumeStart(true)]
  const FAIL_THEN_CONFIRM := [CallPublish, ResumePublish(0, false), CallPublish, ResumePublish(1, true)]

  /** A run in which the report is wrong: a broker is held and has just confirmed a publish. */
  lemma PublishSucceedsWhileReportedDown()
    ensures var s := Run(INITIAL, CONNECTED_START + FAIL_THEN_CONFIRM);
            s.broker == Some(0) && s.stopped == [false] && s.publishes == [Failed, Confirmed] && !s.connected
  {
    RunAppend(INITIAL, CONNECTED_START, FAIL_THEN_CONFIRM);
    RunFour(INITIAL, CallStart, ResumeStart(true), ResumeStart(true), ResumeStart(true));
    var s1 := Next(INITIAL, CallStart);
    assert s1 == INITIAL.(stopped := [false], start := StartRuns(Connecting(0)));
    var s2 := Next(s1, ResumeStart(true));
    assert s2 == s1.(start := StartRuns(Starting(0)));
    var s3 := Next(s2, ResumeStart(true));
    assert s3 == s2.(broker := Some(0), connected := true, start := StartRuns(LoggingReady));
    var s4 := Next(s3, ResumeStart(true));
    assert s4 == s3.(start := StartReturned(true));
    RunFour(s4, CallPublish, ResumePublish(0, false), CallPublish, ResumePublish(1, true));
    var s5 := Next(s4, CallPublish);
    assert s5 == s4.(publishes := [Publishing]);
    var s6 := Next(s5, ResumePublish(0, false));
    assert s6 == s5.(publishes := [Failed], connected := false);
    var s7 := Next(s6, CallPublish);
    assert s7 == s6.(publishes := [Failed, Publishing]);
  }
}
