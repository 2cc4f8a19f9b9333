// The teardown of one proxied TCP session: the handler, the two copiers and
// the expiry timer, each free to run at any moment, closing two connections
// through one sync.Once and reporting on a channel with room for two.
module Session {
  datatype Side = Client | Challenge

  // C2S reads from the client and writes to the challenge, S2C the reverse.
  datatype Direction = C2S | S2C

  datatype Actor = Handler | Timer | Copier(dir: Direction)

  datatype CopierAt = Reading | Writing(last: bool) | Closing | Sending | Ended

  datatype TimerAt = Armed | Expired | Stopped

  datatype Deferred = CloseSide(side: Side) | Cancel | StopTimer

  datatype HandlerAt = Checking | Refusing | Waiting | Woken | Unwinding(defers: seq<Deferred>) | Returned

  // closeAll inside sync.Once: not begun, under way with its owner, or over.
  datatype Once = Fresh | Busy(owner: Actor, closed: nat) | Over

  datatype State = State(
    handler: HandlerAt, c2s: CopierAt, s2c: CopierAt, timer: TimerAt, started: bool,
    once: Once, closeRuns: nat, clientClosed: bool, challengeClosed: bool, cancelled: bool, buffered: nat)

  datatype Event =
    | Check(expired: bool)
    | EnterOnce(a: Actor)
    | CloseNext(a: Actor)
    | PassOnce(a: Actor)
    | ReadData(dir: Direction, last: bool)
    | ReadFail(dir: Direction)
    | WriteOk(dir: Direction)
    | WriteFail(dir: Direction)
    | Send(dir: Direction)
    | Receive
    | CancelExpiry
    | RunDeferred
    | Fire
    | SeeCancel

  const CAPACITY: nat := 2

  function Source(dir: Direction): Side {
    if dir == C2S then Client else Challenge
  }

  function Target(dir: Direction): Side {
    if dir == C2S then Challenge else Client
  }

  const INIT := State(Checking, Reading, Reading, Armed, false, Fresh, 0, false, false, false, 0)

  function Copying(s: State, dir: Direction): CopierAt {
    if dir == C2S then s.c2s else s.s2c
  }

  predicate IsClosed(s: State, side: Side) {
    if side == Client then s.clientClosed else s.challengeClosed
  }

  function CloseOne(s: State, side: Side): State {
    if side == Client then s.(clientClosed := true) else s.(challengeClosed := true)
  }

  // a is at its call of closeOnce.Do.
  predicate AtOnce(s: State, a: Actor)
  {
    match a
    case Handler => s.handler == Refusing
    case Timer => s.started && s.timer == Expired
    case Copier(dir) => s.started && Copying(s, dir) == Closing
  }

  // Reads and writes on a closed connection can only fail.
  predicate Enabled(s: State, e: Event)
  {
    match e
    case Check(_) => s.handler == Checking
    case EnterOnce(a) => AtOnce(s, a) && s.once == Fresh
    case CloseNext(a) => s.once.Busy? && s.once.owner == a
    case PassOnce(a) => AtOnce(s, a) && s.once == Over
    case ReadData(dir, _) => s.started && Copying(s, dir) == Reading && !IsClosed(s, Source(dir))
    case ReadFail(dir) => s.started && Copying(s, dir) == Reading
    case WriteOk(dir) => s.started && Copying(s, dir).Writing? && !IsClosed(s, Target(dir))
    case WriteFail(dir) => s.started && Copying(s, dir).Writing?
    case Send(dir) => s.started && Copying(s, dir) == Sending && s.buffered < CAPACITY
    case Receive => s.handler == Waiting && s.buffered > 0
    case CancelExpiry => s.handler == Woken
    case RunDeferred => s.handler.Unwinding? && s.handler.defers != []
    case Fire => s.started && s.timer == Armed
    case SeeCancel => s.started && s.timer == Armed && s.cancelled
  }

  function At(s: State, dir: Direction, at: CopierAt): State {
    if dir == C2S then s.(c2s := at) else s.(s2c := at)
  }

  function Next(s: State, e: Event): State
    requires Enabled(s, e)
  {
    match e
    case Check(expired) =>
      if expired then s.(handler := Refusing) else s.(handler := Waiting, started := true)
    case EnterOnce(a) => s.(once := Busy(a, 0), closeRuns := s.closeRuns + 1)
    case CloseNext(a) =>
      if s.once.closed == 0 then CloseOne(s.(once := Busy(a, 1)), Client)
      else CloseOne(s.(once := Over), Challenge)
    case PassOnce(a) =>
      (match a
       case Handler => s.(handler := Unwinding([CloseSide(Client), CloseSide(Challenge)]))
       case Timer => s.(timer := Stopped)
       case Copier(dir) => At(s, dir, Sending))
    case ReadData(dir, last) => At(s, dir, Writing(last))
    case ReadFail(dir) => At(s, dir, Closing)
    case WriteOk(dir) => At(s, dir, if Copying(s, dir).last then Closing else Reading)
    case WriteFail(dir) => At(s, dir, Closing)
    case Send(dir) => At(s, dir, Ended).(buffered := s.buffered + 1)
    case Receive => s.(handler := Woken, buffered := s.buffered - 1)
    case CancelExpiry =>
      s.(handler := Unwinding([CloseSide(Client), CloseSide(Challenge), Cancel, StopTimer]), cancelled := true)
    case RunDeferred =>
      var defers := s.handler.defers;
      var rest := defers[..|defers| - 1];
      var s' := s.(handler := if rest == [] then Returned else Unwinding(rest));
      (match defers[|defers| - 1]
       case CloseSide(side) => CloseOne(s', side)
       case Cancel => s'.(cancelled := true)
       // A timer that already fired is drained without blocking.
       case StopTimer => s')
    case Fire => s.(timer := Expired)
    case SeeCancel => s.(timer := Stopped)
  }

  predicate Legal(s: State, events: seq<Event>)
    decreases events
  {
    events != [] ==> Enabled(s, events[0]) && Legal(Next(s, events[0]), events[1..])
  }

  function Run(s: State, events: seq<Event>): State
    requires Legal(s, events)
    decreases events
  {
    if events == [] then s else Run(Next(s, events[0]), events[1..])
  }

  // ---- invariant ----

  function Sent(s: State): nat
  {
    (if s.c2s == Ended then 1 else 0) + (if s.s2c == Ended then 1 else 0)
  }

  predicate Past(at: CopierAt) {
    at == Sending || at == Ended
  }

  predicate Inv(s: State) {
    (s.once == Fresh ==> s.closeRuns == 0 && !s.clientClosed && !s.challengeClosed) &&
    (s.once.Busy? ==>
      s.closeRuns == 1 && s.once.closed <= 1 && AtOnce(s, s.once.owner) &&
      s.clientClosed == (s.once.closed == 1) && !s.challengeClosed) &&
    (s.once == Over ==> s.closeRuns == 1 && s.clientClosed && s.challengeClosed) &&
    (Past(s.c2s) || Past(s.s2c) || s.timer == Stopped ==> s.once == Over) &&
    (s.handler == Woken || s.handler.Unwinding? || s.handler == Returned || s.cancelled ==> s.once == Over) &&
    (s.handler == Checking ==> s.once == Fresh) &&
    (s.handler == Checking || s.handler == Refusing ==> !s.started) &&
    (s.handler == Waiting || s.handler == Woken ==> s.started) &&
    (!s.started ==> s.c2s == Reading && s.s2c == Reading && s.timer == Armed && s.buffered == 0) &&
    (s.started ==> s.buffered + (if s.handler == Waiting then 0 else 1) == Sent(s)) &&
    (s.started && (s.handler.Unwinding? || s.handler == Returned) ==> s.cancelled) &&
    (s.handler.Unwinding? ==> s.handler.defers != [] && |s.handler.defers| <= 4)
  }

  lemma StepKeepsInv(s: State, e: Event)
    requires Inv(s) && Enabled(s, e)
    ensures Inv(Next(s, e))
  {
  }

  lemma {:induction false} RunKeepsInv(s: State, events: seq<Event>)
    requires Inv(s) && Legal(s, events)
    ensures Inv(Run(s, events))
    decreases events
  {
    if events != [] {
      StepKeepsInv(s, events[0]);
      RunKeepsInv(Next(s, events[0]), events[1..]);
    }
  }

  // In every interleaving closeAll runs at most once, no copier ever waits on
  // the channel, and once the handler has returned both connections are closed.
  lemma SafeTeardown(events: seq<Event>)
    requires Legal(INIT, events)
    ensures var s := Run(INIT, events);
      s.closeRuns <= 1 &&
      (forall dir :: s.started && Copying(s, dir) == Sending ==> Enabled(s, Send(dir))) &&
      (s.handler == Returned ==> s.clientClosed && s.challengeClosed)
  {
    RunKeepsInv(INIT, events);
  }

  // ---- everything ends after the first close ----

  // Steps a copier has left once the client side is closed.
  function CopierSteps(dir: Direction, at: CopierAt): nat {
    match at
    case Reading => if dir == C2S then 3 else 4
    case Writing(_) => if dir == C2S then 4 else 3
    case Closing => 2
    case Sending => 1
    case Ended => 0
  }

  function HandlerSteps(at: HandlerAt): nat {
    match at
    case Checking => 8
    case Refusing => 7
    case Waiting => 7
    case Woken => 6
    case Unwinding(defers) => 1 + |defers|
    case Returned => 0
  }

  function Measure(s: State): nat
  {
    HandlerSteps(s.handler) +
    (match s.once case Fresh => 3 case Busy(_, n) => (if n == 0 then 2 else 1) case Over => 0) +
    (if s.started then
      CopierSteps(C2S, s.c2s) + CopierSteps(S2C, s.s2c) +
      (match s.timer case Armed => 2 case Expired => 1 case Stopped => 0)
     else 0)
  }

  predicate Finished(s: State)
  {
    s.handler == Returned &&
    (s.started ==> s.c2s == Ended && s.s2c == Ended && s.timer == Stopped)
  }

  predicate CountsDown(s: State, e: Event)
    requires Enabled(s, e)
  {
    Next(s, e).clientClosed && Measure(Next(s, e)) < Measure(s)
  }

  lemma CopierCountsDown(s: State, e: Event)
    requires Inv(s) && s.clientClosed && Enabled(s, e)
    requires e.ReadData? || e.ReadFail? || e.WriteOk? || e.WriteFail? || e.Send?
    ensures CountsDown(s, e)
  {
  }

  lemma OnceCountsDown(s: State, e: Event)
    requires Inv(s) && s.clientClosed && Enabled(s, e)
    requires e.EnterOnce? || e.CloseNext? || e.PassOnce?
    ensures CountsDown(s, e)
  {
  }

  lemma HandlerCountsDown(s: State, e: Event)
    requires Inv(s) && s.clientClosed && Enabled(s, e)
    requires e.Check? || e.Receive? || e.CancelExpiry? || e.RunDeferred?
    ensures CountsDown(s, e)
  {
  }

  lemma StepCountsDown(s: State, e: Event)
    requires Inv(s) && s.clientClosed && Enabled(s, e)
    ensures CountsDown(s, e)
  {
    match e
    case ReadData(_, _) => CopierCountsDown(s, e);
    case ReadFail(_) => CopierCountsDown(s, e);
    case WriteOk(_) => CopierCountsDown(s, e);
    case WriteFail(_) => CopierCountsDown(s, e);
    case Send(_) => CopierCountsDown(s, e);
    case EnterOnce(_) => OnceCountsDown(s, e);
    case CloseNext(_) => OnceCountsDown(s, e);
    case PassOnce(_) => OnceCountsDown(s, e);
    case Fire =>
    case SeeCancel =>
    case _ => HandlerCountsDown(s, e);
  }

  // A step that needs no luck: it does not wait for a peer, a free buffer or
  // the clock.
  predicate Certain(s: State, e: Event)
  {
    Enabled(s, e) &&
    !e.ReadData? && !e.WriteOk? && !e.Fire? &&
    (e.ReadFail? ==> IsClosed(s, Source(e.dir))) && (e.WriteFail? ==> IsClosed(s, Target(e.dir)))
  }

  lemma CopierCanMove(s: State, dir: Direction)
    requires Inv(s) && s.started && s.once == Over && Copying(s, dir) != Ended
    ensures exists e :: Certain(s, e)
  {
    match Copying(s, dir)
    case Reading => assert Certain(s, ReadFail(dir));
    case Writing(_) => assert Certain(s, WriteFail(dir));
    case Closing => assert Certain(s, PassOnce(Copier(dir)));
    case Sending => assert Certain(s, Send(dir));
  }

  lemma HandlerCanMove(s: State)
    requires Inv(s) && s.once == Over && s.handler != Returned
    requires s.started ==> s.c2s == Ended && s.s2c == Ended
    ensures exists e :: Certain(s, e)
  {
    match s.handler
    case Checking => assert false;
    case Refusing => assert Certain(s, PassOnce(Handler));
    case Waiting => assert Certain(s, Receive);
    case Woken => assert Certain(s, CancelExpiry);
    case Unwinding(_) => assert Certain(s, RunDeferred);
  }

  lemma NobodyIsStuck(s: State)
    requires Inv(s) && s.clientClosed && !Finished(s)
    ensures exists e :: Certain(s, e)
  {
    if s.once.Busy? {
      assert Certain(s, CloseNext(s.once.owner));
    } else if s.started && s.c2s != Ended {
      CopierCanMove(s, C2S);
    } else if s.started && s.s2c != Ended {
      CopierCanMove(s, S2C);
    } else if s.handler != Returned {
      HandlerCanMove(s);
    } else if s.timer == Armed {
      assert Certain(s, SeeCancel);
    } else {
      assert Certain(s, PassOnce(Timer));
    }
  }

  lemma {:induction false} RunIsShort(s: State, events: seq<Event>)
    requires Inv(s) && s.clientClosed && Legal(s, events)
    ensures Run(s, events).clientClosed
    ensures |events| + Measure(Run(s, events)) <= Measure(s)
    decreases events
  {
    if events != [] {
      StepKeepsInv(s, events[0]);
      StepCountsDown(s, events[0]);
      RunIsShort(Next(s, events[0]), events[1..]);
    }
  }

  // Once a connection has been closed, every continuation is at most the
  // measure long, and as long as some goroutine has not ended some step is
  // sure to be possible: all of them end.
  lemma TeardownEnds(events: seq<Event>, more: seq<Event>)
    requires Legal(INIT, events) && Legal(Run(INIT, events), more)
    requires Run(INIT, events).clientClosed || Run(INIT, events).challengeClosed
    ensures var s := Run(INIT, events); var s' := Run(s, more);
      |more| <= Measure(s) &&
      (!Finished(s') ==> exists e :: Certain(s', e))
  {
    RunKeepsInv(INIT, events);
    var s := Run(INIT, events);
    RunIsShort(s, more);
    RunKeepsInv(s, more);
    if !Finished(Run(s, more)) {
      NobodyIsStuck(Run(s, more));
    }
  }

  // ---- who gets a session, and when a copier ends ----

  // The steps of a handler that found the token expired.
  predicate OfRefusal(e: Event) {
    e == Check(true) || e == EnterOnce(Handler) || e == CloseNext(Handler) || e == PassOnce(Handler) || e == RunDeferred
  }

  // The handler is refusing, and nobody else runs.
  predicate Refused(s: State) {
    !s.started && (s.handler == Refusing || s.handler.Unwinding? || s.handler == Returned) &&
    (s.once.Busy? ==> s.once.owner == Handler) && s.c2s == Reading && s.s2c == Reading && s.timer == Armed
  }

  lemma {:induction false} RefusedRun(s: State, events: seq<Event>)
    requires Refused(s) && Inv(s) && Legal(s, events)
    ensures Refused(Run(s, events))
    ensures forall e :: e in events ==> OfRefusal(e) && !e.Check?
    ensures s.once == Fresh && Run(s, events).once != Fresh ==> EnterOnce(Handler) in events
    decreases events
  {
    if events != [] {
      StepKeepsInv(s, events[0]);
      assert OfRefusal(events[0]);
      RefusedRun(Next(s, events[0]), events[1..]);
      assert forall e :: e in events <==> e == events[0] || e in events[1..];
    }
  }

  lemma {:induction false} StartedRun(s: State, events: seq<Event>)
    requires s.started && s.handler != Checking && s.handler != Refusing && Inv(s) && Legal(s, events)
    ensures Run(s, events).started && forall e :: e in events ==> !e.Check?
    decreases events
  {
    if events != [] {
      StepKeepsInv(s, events[0]);
      StartedRun(Next(s, events[0]), events[1..]);
      assert forall e :: e in events <==> e == events[0] || e in events[1..];
    }
  }

  // A session is started exactly for a token that has not expired. For one that
  // has, nothing is read, written or sent and no timer fires; the handler itself
  // closes both connections before it returns.
  lemma SessionIffNotExpired(events: seq<Event>)
    requires Legal(INIT, events)
    ensures Run(INIT, events).started <==> Check(false) in events
    ensures Check(true) in events ==> forall e :: e in events ==> OfRefusal(e)
    ensures Check(true) in events && Run(INIT, events).handler == Returned ==>
      EnterOnce(Handler) in events && Run(INIT, events).clientClosed && Run(INIT, events).challengeClosed
  {
    if events != [] {
      var s, rest := Next(INIT, events[0]), events[1..];
      assert events[0].Check?;
      StepKeepsInv(INIT, events[0]);
      assert forall e :: e in events <==> e == events[0] || e in rest;
      if events[0].expired {
        RefusedRun(s, rest);
        RunKeepsInv(s, rest);
      } else {
        StartedRun(s, rest);
      }
    }
  }

  // Where a copier stands after the reads and writes so far, none of which
  // failed: it leaves its loop after writing what came with an error or the end,
  // and not before. last: such a read has happened.
  predicate CopiesUntil(at: CopierAt, last: bool) {
    match at
    case Reading => !last
    case Writing(l) => l == last
    case _ => last
  }

  lemma CopierStep(s: State, e: Event, dir: Direction, last: bool)
    requires Enabled(s, e) && CopiesUntil(Copying(s, dir), last) && e != ReadFail(dir) && e != WriteFail(dir)
    ensures CopiesUntil(Copying(Next(s, e), dir), last || e == ReadData(dir, true))
  {
  }

  lemma {:induction false} CopierStopsAtLastRead(s: State, events: seq<Event>, dir: Direction, last: bool)
    requires Legal(s, events) && CopiesUntil(Copying(s, dir), last)
    requires ReadFail(dir) !in events && WriteFail(dir) !in events
    ensures CopiesUntil(Copying(Run(s, events), dir), last || ReadData(dir, true) in events)
    decreases events
  {
    if events != [] {
      var e, rest := events[0], events[1..];
      assert forall x :: x in events <==> x == e || x in rest;
      CopierStep(s, e, dir, last);
      CopierStopsAtLastRead(Next(s, e), rest, dir, last || e == ReadData(dir, true));
    }
  }

  // Without failures a copier has left its loop, or is writing its last chunk,
  // exactly when a read brought an error or the end.
  lemma CopierEndsIff(events: seq<Event>, dir: Direction)
    requires Legal(INIT, events) && ReadFail(dir) !in events && WriteFail(dir) !in events
    ensures var at := Copying(Run(INIT, events), dir);
      (at == Reading || at == Writing(false)) <==> ReadData(dir, true) !in events
  {
    CopierStopsAtLastRead(INIT, events, dir, false);
  }

  // When the token runs out during the session, closing both connections takes
  // only steps that wait for nothing.
  lemma ExpiryCloses(s: State)
    requires Inv(s) && s.started && s.timer == Expired && s.once != Over
    ensures exists a :: Certain(s, EnterOnce(a)) || Certain(s, CloseNext(a))
  {
    if s.once == Fresh {
      assert Certain(s, EnterOnce(Timer));
    } else {
      assert Certain(s, CloseNext(s.once.owner));
    }
  }

  // ---- what the handler runs on its way out ----

  function Pops(events: seq<Event>): nat {
    if events == [] then 0 else (if events[0].RunDeferred? then 1 else 0) + Pops(events[1..])
  }

  // The deferred calls a handler that has decided about the token has to run.
  function Deferring(at: HandlerAt): nat {
    match at
    case Unwinding(defers) => |defers|
    case Returned => 0
    case Refusing => 2
    case _ => 4
  }

  // The handler's own steps; nobody else moves it.
  predicate OfHandler(e: Event) {
    e.Check? || e.Receive? || e.CancelExpiry? || e.RunDeferred? || e == PassOnce(Handler)
  }

  lemma OthersLeaveHandler(s: State, e: Event)
    requires Enabled(s, e) && !OfHandler(e)
    ensures Next(s, e).handler == s.handler
  {
  }

  lemma DeferredPops(s: State)
    requires Enabled(s, RunDeferred)
    ensures Next(s, RunDeferred).handler != Checking
    ensures Deferring(Next(s, RunDeferred).handler) == Deferring(s.handler) - 1
  {
  }

  lemma HandlerDefers(s: State, e: Event)
    requires s.handler != Checking && Enabled(s, e) && OfHandler(e) && !e.RunDeferred?
    ensures Next(s, e).handler != Checking && Deferring(Next(s, e).handler) == Deferring(s.handler)
  {
  }

  lemma PopStep(s: State, e: Event)
    requires s.handler != Checking && Enabled(s, e)
    ensures Next(s, e).handler != Checking
    ensures (if e.RunDeferred? then 1 else 0) + Deferring(Next(s, e).handler) == Deferring(s.handler)
  {
    if e.RunDeferred? {
      DeferredPops(s);
    } else if OfHandler(e) {
      HandlerDefers(s, e);
    } else {
      OthersLeaveHandler(s, e);
    }
  }

  lemma {:induction false} PopsAdd(s: State, events: seq<Event>)
    requires s.handler != Checking && Legal(s, events)
    ensures Run(s, events).handler != Checking
    ensures Pops(events) + Deferring(Run(s, events).handler) == Deferring(s.handler)
    decreases events
  {
    if events != [] {
      PopStep(s, events[0]);
      PopsAdd(Next(s, events[0]), events[1..]);
    }
  }

  // A handler that returns has run its two deferred closes, and with a session
  // the cancellation and the stop of the timer before them.
  lemma AllDeferredRun(events: seq<Event>)
    requires Legal(INIT, events) && Run(INIT, events).handler == Returned
    ensures Pops(events) == if Check(false) in events then 4 else 2
  {
    SessionIffNotExpired(events);
    var s, rest := Next(INIT, events[0]), events[1..];
    PopsAdd(s, rest);
    StepKeepsInv(INIT, events[0]);
    assert events[0].Check?;
    if events[0].expired {
      RefusedRun(s, rest);
    }
  }
}
