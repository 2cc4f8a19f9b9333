// The TCP gateway: accept loops, connection goroutines and the four levels of
// slots they take and give back, as a state machine whose steps interleave
// freely. Several gateway processes share the Redis counters; each has its own
// accept loop and semaphore channel. No Redis call fails and no key expires.
//
// Each limiter is one map of counters; RedisLeftEmpty plays every run on the one
// Redis that holds all three under their prefixes.
module Gateway {
  import opened Wrappers
  import opened ConnLimiter

  // maxConns is both the global limit and the capacity of the semaphore.
  datatype Config = Config(maxPerIp: int, maxConns: int, maxPerToken: int)

  predicate Configured(cfg: Config) {
    cfg.maxPerIp >= 1 && cfg.maxConns >= 1 && cfg.maxPerToken >= 1
  }

  datatype Deferred = LeaveSem | FreeIp | FreeGlobal | FreeToken(token: string)

  // The first four stages are those of the accept loop; a goroutine runs with
  // its stack of deferred calls and then unwinds it, last one first.
  datatype Stage =
    | Arrived
    | IpHeld
    | Refused
    | Admitted
    | Running(defers: seq<Deferred>)
    | Unwinding(defers: seq<Deferred>)
    | Closed

  datatype Conn = Conn(process: nat, ip: string, stage: Stage)

  datatype State = State(conns: map<nat, Conn>, ips: Counters, global: Counters, tokens: Counters, sems: map<nat, nat>)

  datatype Event =
    | Accept(c: nat, process: nat, ip: string)
    | DropByRate(c: nat)
    | TakeIp(c: nat)
    | TakeGlobal(c: nat)
    | RollBackIp(c: nat)
    | EnterSem(c: nat)
    | TakeToken(c: nat, token: string)
    | Return(c: nat)
    | RunDeferred(c: nat)

  const GLOBAL := "global"

  predicate InLoop(conn: Conn) {
    conn.stage.Arrived? || conn.stage.IpHeld? || conn.stage.Refused? || conn.stage.Admitted?
  }

  function Entered(s: State, process: nat): nat {
    if process in s.sems then s.sems[process] else 0
  }

  // The deferred call that runs next.
  function Top(s: State, c: nat): Deferred
    requires c in s.conns && s.conns[c].stage.Unwinding? && s.conns[c].stage.defers != []
  {
    s.conns[c].stage.defers[|s.conns[c].stage.defers| - 1]
  }

  // The receive on the semaphore waits until there is a place to give back.
  predicate CanPop(s: State, c: nat)
    requires c in s.conns
  {
    var conn := s.conns[c];
    conn.stage.Unwinding? && conn.stage.defers != [] && (Top(s, c).LeaveSem? ==> Entered(s, conn.process) > 0)
  }

  predicate Enabled(cfg: Config, s: State, e: Event) {
    match e
    case Accept(c, process, _) =>
      c !in s.conns && forall d :: d in s.conns && InLoop(s.conns[d]) ==> s.conns[d].process != process
    case DropByRate(c) => c in s.conns && s.conns[c].stage.Arrived?
    case TakeIp(c) => c in s.conns && s.conns[c].stage.Arrived?
    case TakeGlobal(c) => c in s.conns && s.conns[c].stage.IpHeld?
    case RollBackIp(c) => c in s.conns && s.conns[c].stage.Refused?
    case EnterSem(c) =>
      c in s.conns && s.conns[c].stage.Admitted? && Entered(s, s.conns[c].process) < cfg.maxConns
    case TakeToken(c, token) =>
      c in s.conns && token != "" && s.conns[c].stage.Running? && |s.conns[c].stage.defers| == 3
    case Return(c) => c in s.conns && s.conns[c].stage.Running?
    case RunDeferred(c) => c in s.conns && CanPop(s, c)
  }

  function Move(s: State, c: nat, stage: Stage): State
    requires c in s.conns
  {
    s.(conns := s.conns[c := s.conns[c].(stage := stage)])
  }

  function Next(cfg: Config, s: State, e: Event): State
    requires Enabled(cfg, s, e)
  {
    match e
    case Accept(c, process, ip) => s.(conns := s.conns[c := Conn(process, ip, Arrived)])
    case DropByRate(c) => Move(s, c, Closed)
    case TakeIp(c) =>
      var (ok, ips) := MemoryOp(s.ips, cfg.maxPerIp, Op.Acquire(s.conns[c].ip));
      Move(s, c, if ok then IpHeld else Closed).(ips := ips)
    case TakeGlobal(c) =>
      var (ok, global) := MemoryOp(s.global, cfg.maxConns, Op.Acquire(GLOBAL));
      Move(s, c, if ok then Admitted else Refused).(global := global)
    case RollBackIp(c) =>
      Move(s, c, Closed).(ips := MemoryOp(s.ips, cfg.maxPerIp, Op.Release(s.conns[c].ip)).1)
    case EnterSem(c) =>
      var process := s.conns[c].process;
      Move(s, c, Running([LeaveSem, FreeIp, FreeGlobal])).(sems := s.sems[process := Entered(s, process) + 1])
    case TakeToken(c, token) =>
      var (ok, tokens) := MemoryOp(s.tokens, cfg.maxPerToken, Op.Acquire(token));
      var defers := s.conns[c].stage.defers;
      Move(s, c, if ok then Running(defers + [FreeToken(token)]) else Unwinding(defers)).(tokens := tokens)
    case Return(c) => Move(s, c, Unwinding(s.conns[c].stage.defers))
    case RunDeferred(c) =>
      var defers := s.conns[c].stage.defers;
      var rest := defers[..|defers| - 1];
      var s' := Move(s, c, if rest == [] then Closed else Unwinding(rest));
      match defers[|defers| - 1]
      case LeaveSem =>
        var process := s.conns[c].process;
        s'.(sems := s.sems[process := Entered(s, process) - 1])
      case FreeIp => s'.(ips := MemoryOp(s.ips, cfg.maxPerIp, Op.Release(s.conns[c].ip)).1)
      case FreeGlobal => s'.(global := MemoryOp(s.global, cfg.maxConns, Op.Release(GLOBAL)).1)
      case FreeToken(token) => s'.(tokens := MemoryOp(s.tokens, cfg.maxPerToken, Op.Release(token)).1)
  }

  const INIT := State(map[], map[], map[], map[], map[])

  predicate Legal(cfg: Config, s: State, events: seq<Event>)
    decreases events
  {
    events != [] ==> Enabled(cfg, s, events[0]) && Legal(cfg, Next(cfg, s, events[0]), events[1..])
  }

  function Run(cfg: Config, s: State, events: seq<Event>): State
    requires Legal(cfg, s, events)
    decreases events
  {
    if events == [] then s else Run(cfg, Next(cfg, s, events[0]), events[1..])
  }

  // ---- who holds what ----

  // The slots a connection can hold, and three groups of connections that
  // relate them.
  datatype Slot =
    | IpSlot(ip: string)
    | GlobalSlot
    | TokenSlot(token: string)
    | SemSlot(process: nat)
    | SomeIpSlot
    | OnlyIp
    | NamelessGlobal

  // The i-th call the goroutine deferred is d, and it has not run yet.
  predicate Pending(stage: Stage, i: nat, d: Deferred) {
    (stage.Running? || stage.Unwinding?) && i < |stage.defers| && stage.defers[i] == d
  }

  predicate HasIp(conn: Conn) {
    conn.ip != "" &&
    (conn.stage.IpHeld? || conn.stage.Refused? || conn.stage.Admitted? || Pending(conn.stage, 1, FreeIp))
  }

  predicate HasGlobal(conn: Conn) {
    conn.stage.Admitted? || Pending(conn.stage, 2, FreeGlobal)
  }

  predicate Holds(conn: Conn, slot: Slot) {
    match slot
    case IpSlot(ip) => HasIp(conn) && conn.ip == ip
    case GlobalSlot => HasGlobal(conn)
    case TokenSlot(token) => Pending(conn.stage, 3, FreeToken(token))
    case SemSlot(process) => Pending(conn.stage, 0, LeaveSem) && conn.process == process
    case SomeIpSlot => HasIp(conn)
    case OnlyIp => HasIp(conn) && !HasGlobal(conn)
    case NamelessGlobal => HasGlobal(conn) && conn.ip == ""
  }

  function Holders(conns: map<nat, Conn>, slot: Slot): set<nat> {
    set c | c in conns && Holds(conns[c], slot)
  }

  function Counter(s: State, slot: Slot): int
    requires slot.IpSlot? || slot.GlobalSlot? || slot.TokenSlot? || slot.SemSlot?
  {
    match slot
    case IpSlot(ip) => Value(s.ips, ip)
    case GlobalSlot => Value(s.global, GLOBAL)
    case TokenSlot(token) => Value(s.tokens, token)
    case SemSlot(process) => Entered(s, process)
  }

  predicate Counted(slot: Slot) {
    slot.IpSlot? || slot.GlobalSlot? || slot.TokenSlot? || slot.SemSlot?
  }

  // A goroutine's deferred calls are those it registered, in order, less the
  // ones already run.
  predicate WellStacked(conn: Conn) {
    (conn.stage.Running? ==>
      |conn.stage.defers| >= 3) &&
    (conn.stage.Running? || conn.stage.Unwinding? ==>
      var defers := conn.stage.defers;
      1 <= |defers| <= 4 && defers[0] == LeaveSem &&
      (|defers| > 1 ==> defers[1] == FreeIp) &&
      (|defers| > 2 ==> defers[2] == FreeGlobal) &&
      (|defers| > 3 ==> defers[3].FreeToken? && defers[3].token != ""))
  }

  predicate OneInLoop(conns: map<nat, Conn>) {
    forall c, d ::
      (c in conns && d in conns && InLoop(conns[c]) && InLoop(conns[d]) && conns[c].process == conns[d].process)
      ==> c == d
  }

  ghost predicate Inv(cfg: Config, s: State) {
    (forall c :: c in s.conns ==> WellStacked(s.conns[c])) &&
    OneInLoop(s.conns) &&
    Counting(s.ips, cfg.maxPerIp) && Counting(s.tokens, cfg.maxPerToken) && Counting(s.global, cfg.maxConns) &&
    s.global.Keys <= {GLOBAL} &&
    (forall process :: Entered(s, process) <= cfg.maxConns) &&
    (forall slot :: Counted(slot) ==> Counter(s, slot) == |Holders(s.conns, slot)|)
  }

  lemma HoldersMove(conns: map<nat, Conn>, c: nat, conn: Conn, slot: Slot)
    ensures Holders(conns[c := conn], slot)
         == if Holds(conn, slot) then Holders(conns, slot) + {c} else Holders(conns, slot) - {c}
  {
    var after := Holders(conns[c := conn], slot);
    assert c in after <==> Holds(conn, slot);
    assert forall d :: d != c ==> (d in after <==> d in Holders(conns, slot));
  }

  lemma HoldersUpdate(conns: map<nat, Conn>, c: nat, conn: Conn, slot: Slot)
    ensures |Holders(conns[c := conn], slot)|
         == |Holders(conns, slot)| + (if Holds(conn, slot) then 1 else 0)
            - (if c in conns && Holds(conns[c], slot) then 1 else 0)
  {
    HoldersMove(conns, c, conn, slot);
    assert c in Holders(conns, slot) <==> c in conns && Holds(conns[c], slot);
  }

  // What the step does to the one connection it names.
  function Moved(cfg: Config, s: State, e: Event): Conn
    requires Enabled(cfg, s, e)
  {
    Next(cfg, s, e).conns[e.c]
  }

  lemma StepTouchesOne(cfg: Config, s: State, e: Event)
    requires Enabled(cfg, s, e)
    ensures Next(cfg, s, e).conns == s.conns[e.c := Moved(cfg, s, e)]
  {
  }

  lemma AcquireMoves(count: Counters, max: int, key: string, k: string)
    requires max >= 1 && Counting(count, max)
    ensures var (ok, count') := MemoryOp(count, max, Op.Acquire(key));
      Counting(count', max) && (key == "" ==> ok && count' == count) &&
      Value(count', k) == Value(count, k) + (if ok && key == k && key != "" then 1 else 0)
  {
  }

  lemma ReleaseMoves(count: Counters, max: int, key: string, k: string)
    requires max >= 1 && Counting(count, max)
    requires key != "" ==> Value(count, key) >= 1
    ensures var (ok, count') := MemoryOp(count, max, Op.Release(key));
      Counting(count', max) && (key == "" ==> count' == count) &&
      Value(count', k) == Value(count, k) - (if key == k && key != "" then 1 else 0)
  {
  }

  function Indicator(b: bool): int {
    if b then 1 else 0
  }

  // The facts about one state that a step needs to keep one counter right.
  predicate Ready(cfg: Config, s: State, e: Event, slot: Slot)
    requires Enabled(cfg, s, e)
  {
    Configured(cfg) && Counted(slot) &&
    Counting(s.ips, cfg.maxPerIp) && Counting(s.tokens, cfg.maxPerToken) && Counting(s.global, cfg.maxConns) &&
    (e.c in s.conns ==> WellStacked(s.conns[e.c]) && (Holds(s.conns[e.c], slot) ==> Counter(s, slot) >= 1))
  }

  // A step moves a counter exactly as it moves its connection in or out of the
  // slot's holders.
  predicate Follows(cfg: Config, s: State, e: Event, slot: Slot)
    requires Enabled(cfg, s, e) && Counted(slot)
  {
    Counter(Next(cfg, s, e), slot)
      == Counter(s, slot) + Indicator(Holds(Moved(cfg, s, e), slot))
         - Indicator(e.c in s.conns && Holds(s.conns[e.c], slot))
  }

  // Events of the accept loop that ask no limiter, and those that ask one.
  predicate AsksNone(e: Event) {
    e.Accept? || e.DropByRate? || e.EnterSem?
  }

  predicate AsksOne(e: Event) {
    e.TakeIp? || e.TakeGlobal? || e.RollBackIp?
  }

  lemma ArrivalFollows(cfg: Config, s: State, e: Event, slot: Slot)
    requires Enabled(cfg, s, e) && Ready(cfg, s, e, slot) && AsksNone(e)
    ensures Follows(cfg, s, e, slot)
  {
  }

  lemma IpFollows(cfg: Config, s: State, e: Event, slot: Slot)
    requires Enabled(cfg, s, e) && Ready(cfg, s, e, slot) && (e.TakeIp? || e.RollBackIp?)
    ensures Follows(cfg, s, e, slot)
  {
    var ip := s.conns[e.c].ip;
    if slot.IpSlot? {
      if e.TakeIp? {
        AcquireMoves(s.ips, cfg.maxPerIp, ip, slot.ip);
      } else if ip == slot.ip {
        ReleaseMoves(s.ips, cfg.maxPerIp, ip, slot.ip);
      }
    }
  }

  lemma GlobalFollows(cfg: Config, s: State, e: Event, slot: Slot)
    requires Enabled(cfg, s, e) && Ready(cfg, s, e, slot) && e.TakeGlobal?
    ensures Follows(cfg, s, e, slot)
  {
    AcquireMoves(s.global, cfg.maxConns, GLOBAL, GLOBAL);
  }

  lemma HandlerFollows(cfg: Config, s: State, e: Event, slot: Slot)
    requires Enabled(cfg, s, e) && Ready(cfg, s, e, slot)
    requires e.TakeToken? || e.Return?
    ensures Follows(cfg, s, e, slot)
  {
    if e.TakeToken? && slot.TokenSlot? {
      AcquireMoves(s.tokens, cfg.maxPerToken, e.token, slot.token);
    }
  }

  lemma DeferredFollows(cfg: Config, s: State, e: Event, slot: Slot)
    requires Enabled(cfg, s, e) && Ready(cfg, s, e, slot)
    requires e.RunDeferred?
    ensures Follows(cfg, s, e, slot)
  {
    match Top(s, e.c)
    case LeaveSem => LeaveSemFollows(cfg, s, e, slot);
    case FreeIp => FreeIpFollows(cfg, s, e, slot);
    case FreeGlobal => FreeGlobalFollows(cfg, s, e, slot);
    case FreeToken(_) => FreeTokenFollows(cfg, s, e, slot);
  }

  lemma LeaveSemFollows(cfg: Config, s: State, e: Event, slot: Slot)
    requires Enabled(cfg, s, e) && Ready(cfg, s, e, slot)
    requires e.RunDeferred? && Top(s, e.c).LeaveSem?
    ensures Follows(cfg, s, e, slot)
  {
    assert |s.conns[e.c].stage.defers| == 1;
  }

  lemma FreeIpFollows(cfg: Config, s: State, e: Event, slot: Slot)
    requires Enabled(cfg, s, e) && Ready(cfg, s, e, slot)
    requires e.RunDeferred? && Top(s, e.c).FreeIp?
    ensures Follows(cfg, s, e, slot)
  {
    assert |s.conns[e.c].stage.defers| == 2;
    if slot.IpSlot? && s.conns[e.c].ip == slot.ip {
      ReleaseMoves(s.ips, cfg.maxPerIp, slot.ip, slot.ip);
    }
  }

  lemma FreeGlobalFollows(cfg: Config, s: State, e: Event, slot: Slot)
    requires Enabled(cfg, s, e) && Ready(cfg, s, e, slot)
    requires e.RunDeferred? && Top(s, e.c).FreeGlobal?
    ensures Follows(cfg, s, e, slot)
  {
    assert |s.conns[e.c].stage.defers| == 3;
    if slot.GlobalSlot? {
      ReleaseMoves(s.global, cfg.maxConns, GLOBAL, GLOBAL);
    }
  }

  lemma FreeTokenFollows(cfg: Config, s: State, e: Event, slot: Slot)
    requires Enabled(cfg, s, e) && Ready(cfg, s, e, slot)
    requires e.RunDeferred? && Top(s, e.c).FreeToken?
    ensures Follows(cfg, s, e, slot)
  {
    assert |s.conns[e.c].stage.defers| == 4;
    if slot.TokenSlot? && Top(s, e.c).token == slot.token {
      ReleaseMoves(s.tokens, cfg.maxPerToken, slot.token, slot.token);
    }
  }

  lemma StepFollows(cfg: Config, s: State, e: Event, slot: Slot)
    requires Enabled(cfg, s, e) && Ready(cfg, s, e, slot)
    ensures Follows(cfg, s, e, slot)
  {
    if e.RunDeferred? {
      DeferredFollows(cfg, s, e, slot);
    } else if e.TakeToken? || e.Return? {
      HandlerFollows(cfg, s, e, slot);
    } else if AsksNone(e) {
      ArrivalFollows(cfg, s, e, slot);
    } else if e.TakeGlobal? {
      GlobalFollows(cfg, s, e, slot);
    } else {
      IpFollows(cfg, s, e, slot);
    }
  }

  lemma InvIsReady(cfg: Config, s: State, e: Event, slot: Slot)
    requires Configured(cfg) && Inv(cfg, s) && Enabled(cfg, s, e) && Counted(slot)
    ensures Ready(cfg, s, e, slot)
  {
    if e.c in s.conns && Holds(s.conns[e.c], slot) {
      assert e.c in Holders(s.conns, slot);
    }
  }

  lemma CounterStaysExact(cfg: Config, s: State, s': State, e: Event, slot: Slot)
    requires Configured(cfg) && Inv(cfg, s) && Enabled(cfg, s, e) && Counted(slot)
    requires s' == Next(cfg, s, e)
    ensures Counter(s', slot) == |Holders(s'.conns, slot)|
  {
    InvIsReady(cfg, s, e, slot);
    StepFollows(cfg, s, e, slot);
    StepTouchesOne(cfg, s, e);
    HoldersUpdate(s.conns, e.c, Moved(cfg, s, e), slot);
    assert Counter(s, slot) == |Holders(s.conns, slot)|;
  }

  lemma OpKeepsCounting(count: Counters, max: int)
    requires max >= 1 && Counting(count, max)
    ensures forall op {:trigger MemoryOp(count, max, op)} ::
      Counting(MemoryOp(count, max, op).1, max) && MemoryOp(count, max, op).1.Keys <= count.Keys + {op.key}
  {
  }

  lemma GlobalKeyKept(count: Counters, max: int, op: Op)
    requires max >= 1 && Counting(count, max) && count.Keys <= {GLOBAL} && op.key == GLOBAL
    ensures var count' := MemoryOp(count, max, op).1; Counting(count', max) && count'.Keys <= {GLOBAL}
  {
    OpKeepsCounting(count, max);
  }

  lemma IpLimitKept(cfg: Config, s: State, e: Event)
    requires Configured(cfg) && Inv(cfg, s) && Enabled(cfg, s, e)
    ensures Counting(Next(cfg, s, e).ips, cfg.maxPerIp)
  {
    OpKeepsCounting(s.ips, cfg.maxPerIp);
  }

  lemma TokenLimitKept(cfg: Config, s: State, e: Event)
    requires Configured(cfg) && Inv(cfg, s) && Enabled(cfg, s, e)
    ensures Counting(Next(cfg, s, e).tokens, cfg.maxPerToken)
  {
    OpKeepsCounting(s.tokens, cfg.maxPerToken);
  }

  lemma GlobalLimitKept(cfg: Config, s: State, e: Event)
    requires Configured(cfg) && Inv(cfg, s) && Enabled(cfg, s, e)
    ensures Counting(Next(cfg, s, e).global, cfg.maxConns) && Next(cfg, s, e).global.Keys <= {GLOBAL}
  {
    GlobalKeyKept(s.global, cfg.maxConns, Op.Acquire(GLOBAL));
    GlobalKeyKept(s.global, cfg.maxConns, Op.Release(GLOBAL));
  }

  // Counters never go negative or past their limit, and a released counter was
  // there to release.
  lemma LimitsKept(cfg: Config, s: State, e: Event)
    requires Configured(cfg) && Inv(cfg, s) && Enabled(cfg, s, e)
    ensures var s' := Next(cfg, s, e);
      Counting(s'.ips, cfg.maxPerIp) && Counting(s'.tokens, cfg.maxPerToken) &&
      Counting(s'.global, cfg.maxConns) && s'.global.Keys <= {GLOBAL}
  {
    IpLimitKept(cfg, s, e);
    TokenLimitKept(cfg, s, e);
    GlobalLimitKept(cfg, s, e);
  }

  lemma SemaphoreKept(cfg: Config, s: State, e: Event, process: nat)
    requires Inv(cfg, s) && Enabled(cfg, s, e)
    ensures Entered(Next(cfg, s, e), process) <= cfg.maxConns
  {
    assert Entered(s, process) <= cfg.maxConns;
  }

  // What a step leaves of its connection: a stack in order, and the same
  // process, in the accept loop only if it was there or has just arrived.
  predicate MovedWell(cfg: Config, s: State, e: Event)
    requires Enabled(cfg, s, e)
  {
    var conn := Moved(cfg, s, e);
    WellStacked(conn) &&
    (e.c in s.conns ==> conn.process == s.conns[e.c].process && (InLoop(conn) ==> InLoop(s.conns[e.c])))
  }

  lemma LoopMovesWell(cfg: Config, s: State, e: Event)
    requires Inv(cfg, s) && Enabled(cfg, s, e) && (AsksNone(e) || AsksOne(e))
    ensures MovedWell(cfg, s, e)
  {
  }

  lemma GoroutineMovesWell(cfg: Config, s: State, e: Event)
    requires Inv(cfg, s) && Enabled(cfg, s, e) && !AsksNone(e) && !AsksOne(e)
    ensures MovedWell(cfg, s, e)
  {
    assert WellStacked(s.conns[e.c]);
  }

  lemma StacksKept(cfg: Config, s: State, e: Event)
    requires Inv(cfg, s) && Enabled(cfg, s, e) && MovedWell(cfg, s, e)
    ensures forall c :: c in Next(cfg, s, e).conns ==> WellStacked(Next(cfg, s, e).conns[c])
  {
    StepTouchesOne(cfg, s, e);
  }

  lemma OneInLoopKept(cfg: Config, s: State, e: Event)
    requires Inv(cfg, s) && Enabled(cfg, s, e) && MovedWell(cfg, s, e)
    ensures OneInLoop(Next(cfg, s, e).conns)
  {
    StepTouchesOne(cfg, s, e);
    if e.Accept? {
      assert Moved(cfg, s, e).process == e.process;
    } else {
      assert e.c in s.conns;
    }
  }

  lemma StepKeepsInv(cfg: Config, s: State, e: Event)
    requires Configured(cfg) && Inv(cfg, s) && Enabled(cfg, s, e)
    ensures Inv(cfg, Next(cfg, s, e))
  {
    LimitsKept(cfg, s, e);
    forall process
      ensures Entered(Next(cfg, s, e), process) <= cfg.maxConns
    {
      SemaphoreKept(cfg, s, e, process);
    }
    if AsksNone(e) || AsksOne(e) {
      LoopMovesWell(cfg, s, e);
    } else {
      GoroutineMovesWell(cfg, s, e);
    }
    StacksKept(cfg, s, e);
    OneInLoopKept(cfg, s, e);
    forall slot | Counted(slot)
      ensures Counter(Next(cfg, s, e), slot) == |Holders(Next(cfg, s, e).conns, slot)|
    {
      CounterStaysExact(cfg, s, Next(cfg, s, e), e, slot);
    }
  }

  lemma {:induction false} RunKeepsInv(cfg: Config, s: State, events: seq<Event>)
    requires Configured(cfg) && Inv(cfg, s) && Legal(cfg, s, events)
    ensures Inv(cfg, Run(cfg, s, events))
    decreases events
  {
    if events != [] {
      StepKeepsInv(cfg, s, events[0]);
      RunKeepsInv(cfg, Next(cfg, s, events[0]), events[1..]);
    }
  }

  lemma InitInv(cfg: Config)
    requires Configured(cfg)
    ensures Inv(cfg, INIT)
  {
  }

  // ---- slot accounting ----

  ghost function Pick(m: Counters): (key: string)
    requires m != map[]
    ensures key in m
  {
    var key :| key in m; key
  }

  ghost function Sum(m: Counters): int
  {
    if m == map[] then 0 else m[Pick(m)] + Sum(m - {Pick(m)})
  }

  function At(conns: map<nat, Conn>, group: set<nat>, ip: string): set<nat> {
    set c | c in group && c in conns && conns[c].ip == ip
  }

  lemma AtRest(conns: map<nat, Conn>, group: set<nat>, ip: string, k: string)
    requires k != ip
    ensures At(conns, group - At(conns, group, ip), k) == At(conns, group, k)
  {
  }

  lemma SplitCard(group: set<nat>, own: set<nat>)
    requires own <= group
    ensures |group| == |own| + |group - own|
  {
    assert group == own + (group - own);
  }

  lemma {:induction false} SumCounts(m: Counters, conns: map<nat, Conn>, group: set<nat>)
    requires forall c :: c in group ==> c in conns && conns[c].ip in m
    requires forall key :: key in m ==> m[key] == |At(conns, group, key)|
    ensures Sum(m) == |group|
    decreases m
  {
    if m == map[] {
      assert group == {};
    } else {
      var key := Pick(m);
      var rest := group - At(conns, group, key);
      forall k | k in m - {key}
        ensures (m - {key})[k] == |At(conns, rest, k)|
      {
        AtRest(conns, group, key, k);
      }
      SumCounts(m - {key}, conns, rest);
      SplitCard(group, At(conns, group, key));
    }
  }

  lemma IpCountersSum(cfg: Config, s: State)
    requires Inv(cfg, s)
    ensures Sum(s.ips) == |Holders(s.conns, SomeIpSlot)|
  {
    var group := Holders(s.conns, SomeIpSlot);
    forall c | c in group
      ensures s.conns[c].ip in s.ips
    {
      var slot := IpSlot(s.conns[c].ip);
      assert c in Holders(s.conns, slot);
      assert Counter(s, slot) == |Holders(s.conns, slot)|;
    }
    forall key | key in s.ips
      ensures s.ips[key] == |At(s.conns, group, key)|
    {
      assert Counter(s, IpSlot(key)) == |Holders(s.conns, IpSlot(key))|;
      assert At(s.conns, group, key) == Holders(s.conns, IpSlot(key));
    }
    SumCounts(s.ips, s.conns, group);
  }

  function Limit(cfg: Config, slot: Slot): int {
    match slot
    case IpSlot(_) => cfg.maxPerIp
    case TokenSlot(_) => cfg.maxPerToken
    case _ => cfg.maxConns
  }

  // In every reachable state each counter is the number of connections that
  // hold its slot, and none is over its limit.
  lemma SlotAccounting(cfg: Config, events: seq<Event>, slot: Slot)
    requires Configured(cfg) && Legal(cfg, INIT, events) && Counted(slot)
    ensures var s := Run(cfg, INIT, events);
      Counter(s, slot) == |Holders(s.conns, slot)| &&
      Counter(s, slot) <= Limit(cfg, slot)
  {
    InitInv(cfg);
    RunKeepsInv(cfg, INIT, events);
  }

  // The counters of all addresses add up to the global counter, plus the
  // connections that have an address slot only, less those that got the global
  // slot without a known address.
  lemma IpCountersAgainstGlobal(cfg: Config, events: seq<Event>)
    requires Configured(cfg) && Legal(cfg, INIT, events)
    ensures var s := Run(cfg, INIT, events);
      Sum(s.ips) + |Holders(s.conns, NamelessGlobal)|
        == Value(s.global, GLOBAL) + |Holders(s.conns, OnlyIp)|
  {
    InitInv(cfg);
    RunKeepsInv(cfg, INIT, events);
    var s := Run(cfg, INIT, events);
    IpCountersSum(cfg, s);
    assert Counter(s, GlobalSlot) == |Holders(s.conns, GlobalSlot)|;
    GroupsBalance(s.conns);
  }

  lemma GroupsBalance(conns: map<nat, Conn>)
    requires forall c :: c in conns ==> WellStacked(conns[c])
    ensures |Holders(conns, SomeIpSlot)| + |Holders(conns, NamelessGlobal)|
         == |Holders(conns, GlobalSlot)| + |Holders(conns, OnlyIp)|
  {
    forall c
      ensures Balanced(conns, c)
    {
      if c in conns {
        GlobalCoversIp(conns[c]);
      }
    }
    FourSets(Holders(conns, SomeIpSlot), Holders(conns, NamelessGlobal),
             Holders(conns, GlobalSlot), Holders(conns, OnlyIp));
  }

  predicate Balanced(conns: map<nat, Conn>, c: nat) {
    (c in Holders(conns, SomeIpSlot) + Holders(conns, NamelessGlobal)) ==
    (c in Holders(conns, GlobalSlot) + Holders(conns, OnlyIp)) &&
    !(c in Holders(conns, SomeIpSlot) && c in Holders(conns, NamelessGlobal)) &&
    !(c in Holders(conns, GlobalSlot) && c in Holders(conns, OnlyIp))
  }

  lemma FourSets(a: set<nat>, b: set<nat>, c: set<nat>, d: set<nat>)
    requires forall x: nat :: (x in a || x in b <==> x in c || x in d) && !(x in a && x in b) && !(x in c && x in d)
    ensures |a| + |b| == |c| + |d|
  {
    assert a + b == c + d && a !! b && c !! d;
  }

  // A connection with the global slot has its address slot too.
  lemma GlobalCoversIp(conn: Conn)
    requires WellStacked(conn)
    ensures HasGlobal(conn) && conn.ip != "" ==> HasIp(conn)
  {
  }

  lemma NothingCounted(m: Counters, max: int)
    requires Counting(m, max) && forall key :: key in m ==> Value(m, key) == 0
    ensures m == map[]
  {
  }

  // When every connection has ended nothing is left behind: no counter in
  // Redis and no place taken in any semaphore.
  lemma NoSlotLeaks(cfg: Config, events: seq<Event>)
    requires Configured(cfg) && Legal(cfg, INIT, events)
    ensures var s := Run(cfg, INIT, events);
      (forall c :: c in s.conns ==> s.conns[c].stage.Closed?) ==>
        s.ips == map[] && s.global == map[] && s.tokens == map[] && forall process :: Entered(s, process) == 0
  {
    InitInv(cfg);
    RunKeepsInv(cfg, INIT, events);
    var s := Run(cfg, INIT, events);
    if forall c :: c in s.conns ==> s.conns[c].stage.Closed? {
      forall slot | Counted(slot)
        ensures Counter(s, slot) == 0
      {
        assert Holders(s.conns, slot) == {};
      }
      forall key
        ensures Value(s.ips, key) == 0 && Value(s.tokens, key) == 0
      {
        assert Counter(s, IpSlot(key)) == 0 && Counter(s, TokenSlot(key)) == 0;
      }
      assert Counter(s, GlobalSlot) == 0;
      NothingCounted(s.ips, cfg.maxPerIp);
      NothingCounted(s.tokens, cfg.maxPerToken);
      NothingCounted(s.global, cfg.maxConns);
      forall process ensures Entered(s, process) == 0 {
        assert Counter(s, SemSlot(process)) == 0;
      }
    }
  }

  // ---- the counters in Redis ----

  const IP_PREFIX := ":tcp:conn:ip"
  const TOKEN_PREFIX := ":tcp:conn:token"
  const GLOBAL_PREFIX := ":tcp:conn:global"

  // What a step asks of a limiter: whose keys, its limit and the operation.
  datatype Request = Nothing | Request(prefix: string, max: int, op: Op)

  function RequestOf(cfg: Config, root: string, s: State, e: Event): Request
    requires Enabled(cfg, s, e)
  {
    match e
    case TakeIp(c) => Request(root + IP_PREFIX, cfg.maxPerIp, Op.Acquire(s.conns[c].ip))
    case TakeGlobal(_) => Request(root + GLOBAL_PREFIX, cfg.maxConns, Op.Acquire(GLOBAL))
    case RollBackIp(c) => Request(root + IP_PREFIX, cfg.maxPerIp, Op.Release(s.conns[c].ip))
    case TakeToken(_, token) => Request(root + TOKEN_PREFIX, cfg.maxPerToken, Op.Acquire(token))
    case RunDeferred(c) => (
      match Top(s, c)
      case LeaveSem => Nothing
      case FreeIp => Request(root + IP_PREFIX, cfg.maxPerIp, Op.Release(s.conns[c].ip))
      case FreeGlobal => Request(root + GLOBAL_PREFIX, cfg.maxConns, Op.Release(GLOBAL))
      case FreeToken(token) => Request(root + TOKEN_PREFIX, cfg.maxPerToken, Op.Release(token)))
    case _ => Nothing
  }

  // The one Redis of all limiters, and the answer it gives to the step.
  function RedisNext(c: Counters, r: Request): (bool, Counters) {
    if r.Nothing? then (true, c) else RedisOp(c, r.max, r.prefix, r.op)
  }

  // The answer the step went by.
  function Answer(cfg: Config, s: State, e: Event): bool
    requires Enabled(cfg, s, e)
  {
    match e
    case TakeIp(c) => MemoryOp(s.ips, cfg.maxPerIp, Op.Acquire(s.conns[c].ip)).0
    case TakeGlobal(_) => MemoryOp(s.global, cfg.maxConns, Op.Acquire(GLOBAL)).0
    case TakeToken(_, token) => MemoryOp(s.tokens, cfg.maxPerToken, Op.Acquire(token)).0
    case _ => true
  }

  function RunRedis(cfg: Config, root: string, s: State, c: Counters, events: seq<Event>): Counters
    requires Legal(cfg, s, events)
    decreases events
  {
    if events == [] then c
    else RunRedis(cfg, root, Next(cfg, s, events[0]), RedisNext(c, RequestOf(cfg, root, s, events[0])).1, events[1..])
  }

  // Redis gives every step of a run the answer the step goes by.
  predicate RedisConcurs(cfg: Config, root: string, s: State, c: Counters, events: seq<Event>)
    requires Legal(cfg, s, events)
    decreases events
  {
    events != [] ==>
      var (ok, c') := RedisNext(c, RequestOf(cfg, root, s, events[0]));
      ok == Answer(cfg, s, events[0]) && RedisConcurs(cfg, root, Next(cfg, s, events[0]), c', events[1..])
  }

  // Redis holds the three maps, each under its own prefix.
  ghost predicate InRedis(c: Counters, s: State, root: string) {
    Mirrors(c, s.ips, root + IP_PREFIX) && Mirrors(c, s.global, root + GLOBAL_PREFIX) &&
    Mirrors(c, s.tokens, root + TOKEN_PREFIX)
  }

  // No key but the limiters'.
  ghost predicate OnlyLimiters(c: Counters, root: string) {
    forall k :: k in c ==> exists key: string ::
      k == FullKey(root + IP_PREFIX, key) || k == FullKey(root + GLOBAL_PREFIX, key) ||
      k == FullKey(root + TOKEN_PREFIX, key)
  }

  lemma PrefixesApart(root: string, a: string, b: string)
    ensures FullKey(root + IP_PREFIX, a) != FullKey(root + TOKEN_PREFIX, b)
    ensures FullKey(root + IP_PREFIX, a) != FullKey(root + GLOBAL_PREFIX, b)
    ensures FullKey(root + TOKEN_PREFIX, a) != FullKey(root + GLOBAL_PREFIX, b)
  {
    LimiterKeysDisjoint(root, a, b, b);
    LimiterKeysDisjoint(root, a, a, b);
  }

  // One limiter's operation keeps another limiter's map mirrored.
  lemma OtherKept(c: Counters, r: Request, count: Counters, prefix: string)
    requires Mirrors(c, count, prefix)
    requires r.Request? ==> forall key: string :: FullKey(prefix, key) != FullKey(r.prefix, r.op.key)
    ensures Mirrors(RedisNext(c, r).1, count, prefix)
  {
    if r.Request? {
      OpLeavesOthers(c, r.max, r.prefix, r.op, count, prefix);
    }
  }

  lemma IpKept(cfg: Config, root: string, s: State, c: Counters, e: Event)
    requires Configured(cfg) && Inv(cfg, s) && InRedis(c, s, root) && Enabled(cfg, s, e)
    ensures Mirrors(RedisNext(c, RequestOf(cfg, root, s, e)).1, Next(cfg, s, e).ips, root + IP_PREFIX)
  {
    var r := RequestOf(cfg, root, s, e);
    if r.Request? && r.prefix == root + IP_PREFIX {
      OpKeepsMirror(c, s.ips, cfg.maxPerIp, r.prefix, r.op);
    } else {
      forall key: string
        ensures r.Request? ==> FullKey(root + IP_PREFIX, key) != FullKey(r.prefix, r.op.key)
      {
        if r.Request? {
          PrefixesApart(root, key, r.op.key);
        }
      }
      OtherKept(c, r, s.ips, root + IP_PREFIX);
    }
  }

  lemma GlobalKept(cfg: Config, root: string, s: State, c: Counters, e: Event)
    requires Configured(cfg) && Inv(cfg, s) && InRedis(c, s, root) && Enabled(cfg, s, e)
    ensures Mirrors(RedisNext(c, RequestOf(cfg, root, s, e)).1, Next(cfg, s, e).global, root + GLOBAL_PREFIX)
  {
    var r := RequestOf(cfg, root, s, e);
    if r.Request? && r.prefix == root + GLOBAL_PREFIX {
      OpKeepsMirror(c, s.global, cfg.maxConns, r.prefix, r.op);
    } else {
      forall key: string
        ensures r.Request? ==> FullKey(root + GLOBAL_PREFIX, key) != FullKey(r.prefix, r.op.key)
      {
        if r.Request? {
          PrefixesApart(root, r.op.key, key);
        }
      }
      OtherKept(c, r, s.global, root + GLOBAL_PREFIX);
    }
  }

  lemma TokenKept(cfg: Config, root: string, s: State, c: Counters, e: Event)
    requires Configured(cfg) && Inv(cfg, s) && InRedis(c, s, root) && Enabled(cfg, s, e)
    ensures Mirrors(RedisNext(c, RequestOf(cfg, root, s, e)).1, Next(cfg, s, e).tokens, root + TOKEN_PREFIX)
  {
    var r := RequestOf(cfg, root, s, e);
    if r.Request? && r.prefix == root + TOKEN_PREFIX {
      OpKeepsMirror(c, s.tokens, cfg.maxPerToken, r.prefix, r.op);
    } else {
      forall key: string
        ensures r.Request? ==> FullKey(root + TOKEN_PREFIX, key) != FullKey(r.prefix, r.op.key)
      {
        if r.Request? {
          PrefixesApart(root, r.op.key, key);
          PrefixesApart(root, key, r.op.key);
        }
      }
      OtherKept(c, r, s.tokens, root + TOKEN_PREFIX);
    }
  }

  lemma StepConcurs(cfg: Config, root: string, s: State, c: Counters, e: Event)
    requires Configured(cfg) && Inv(cfg, s) && InRedis(c, s, root) && Enabled(cfg, s, e)
    ensures RedisNext(c, RequestOf(cfg, root, s, e)).0 == Answer(cfg, s, e)
  {
    var r := RequestOf(cfg, root, s, e);
    match e
    case TakeIp(_) => OpKeepsMirror(c, s.ips, cfg.maxPerIp, r.prefix, r.op);
    case TakeGlobal(_) => OpKeepsMirror(c, s.global, cfg.maxConns, r.prefix, r.op);
    case TakeToken(_, _) => OpKeepsMirror(c, s.tokens, cfg.maxPerToken, r.prefix, r.op);
    case _ =>
  }

  lemma OnlyLimitersKept(cfg: Config, root: string, s: State, c: Counters, e: Event)
    requires Enabled(cfg, s, e) && OnlyLimiters(c, root)
    ensures OnlyLimiters(RedisNext(c, RequestOf(cfg, root, s, e)).1, root)
  {
  }

  // From a state Redis holds, every run keeps Redis holding the machine's maps
  // and getting from it the answers the machine goes by.
  lemma {:induction false} RunInRedis(cfg: Config, root: string, s: State, c: Counters, events: seq<Event>)
    requires Configured(cfg) && Inv(cfg, s) && InRedis(c, s, root) && OnlyLimiters(c, root) && Legal(cfg, s, events)
    ensures RedisConcurs(cfg, root, s, c, events)
    ensures var c' := RunRedis(cfg, root, s, c, events);
      InRedis(c', Run(cfg, s, events), root) && OnlyLimiters(c', root)
    decreases events
  {
    if events != [] {
      var e := events[0];
      StepConcurs(cfg, root, s, c, e);
      IpKept(cfg, root, s, c, e);
      GlobalKept(cfg, root, s, c, e);
      TokenKept(cfg, root, s, c, e);
      OnlyLimitersKept(cfg, root, s, c, e);
      StepKeepsInv(cfg, s, e);
      RunInRedis(cfg, root, Next(cfg, s, e), RedisNext(c, RequestOf(cfg, root, s, e)).1, events[1..]);
    }
  }

  // Every gateway run can be played on one empty Redis with three prefixes and
  // gets the same answers; when every connection has ended Redis is empty again.
  lemma RedisLeftEmpty(cfg: Config, root: string, events: seq<Event>)
    requires Configured(cfg) && Legal(cfg, INIT, events)
    ensures RedisConcurs(cfg, root, INIT, map[], events)
    ensures var s := Run(cfg, INIT, events);
      InRedis(RunRedis(cfg, root, INIT, map[], events), s, root) &&
      ((forall c :: c in s.conns ==> s.conns[c].stage.Closed?) ==> RunRedis(cfg, root, INIT, map[], events) == map[])
  {
    var s, c := Run(cfg, INIT, events), RunRedis(cfg, root, INIT, map[], events);
    InitInv(cfg);
    RunInRedis(cfg, root, INIT, map[], events);
    NoSlotLeaks(cfg, events);
    if forall c :: c in s.conns ==> s.conns[c].stage.Closed? {
      NothingUnderPrefixes(c, s, root);
    }
  }

  lemma NothingUnderPrefixes(c: Counters, s: State, root: string)
    requires InRedis(c, s, root) && OnlyLimiters(c, root)
    requires s.ips == map[] && s.global == map[] && s.tokens == map[]
    ensures c == map[]
  {
    assert forall k :: k !in c;
  }

  // ---- the accept loop always moves on ----

  // The accept loop of c's process is stuck on the full semaphore channel.
  predicate Blocked(cfg: Config, s: State, c: nat) {
    c in s.conns && s.conns[c].stage.Admitted? && Entered(s, s.conns[c].process) >= cfg.maxConns
  }

  // h holds a place in the process's semaphore, has given its global slot back
  // and has at most two deferred calls to go.
  predicate Releasing(s: State, process: nat, h: nat) {
    h in s.conns && s.conns[h].process == process && s.conns[h].stage.Unwinding? && 1 <= |s.conns[h].stage.defers| <= 2
  }

  // While the loop is blocked some holder of the semaphore is past its global
  // release: were every holder still counted globally, the blocked connection
  // would put the global counter over its limit.
  lemma BlockedMeansReleasing(cfg: Config, s: State, c: nat)
    requires Configured(cfg) && Inv(cfg, s) && Blocked(cfg, s, c)
    ensures exists h :: Releasing(s, s.conns[c].process, h)
  {
    var process := s.conns[c].process;
    var inside, global := Holders(s.conns, SemSlot(process)), Holders(s.conns, GlobalSlot);
    assert Counter(s, SemSlot(process)) == |inside| && Counter(s, GlobalSlot) == |global|;
    assert c in global && c !in inside;
    if inside <= global {
      CardinalityBelow(inside + {c}, global);
    } else {
      var h :| h in inside && h !in global;
      assert WellStacked(s.conns[h]);
      assert Releasing(s, process, h);
    }
  }

  lemma {:induction false} CardinalityBelow(a: set<nat>, b: set<nat>)
    requires a <= b
    ensures |a| <= |b|
  {
    assert b == a + (b - a);
  }

  // A goroutine's own place in the semaphore is there to be given back.
  lemma PopNeverWaits(cfg: Config, s: State, h: nat)
    requires Inv(cfg, s) && h in s.conns && s.conns[h].stage.Unwinding?
    ensures Enabled(cfg, s, RunDeferred(h))
  {
    var slot := SemSlot(s.conns[h].process);
    assert WellStacked(s.conns[h]);
    assert h in Holders(s.conns, slot);
    assert Counter(s, slot) == |Holders(s.conns, slot)|;
  }

  // Nothing another connection does delays a release in progress, and each of
  // its own steps brings it nearer to closed.
  lemma ReleaseNeverWaits(cfg: Config, s: State, process: nat, h: nat, e: Event)
    requires Inv(cfg, s) && Releasing(s, process, h)
    ensures Enabled(cfg, s, RunDeferred(h))
    ensures Enabled(cfg, s, e) && e.c != h ==> Next(cfg, s, e).conns[h] == s.conns[h]
    ensures var conn := Next(cfg, s, RunDeferred(h)).conns[h];
      if |s.conns[h].stage.defers| == 1 then conn.stage.Closed?
      else conn.stage.Unwinding? && |conn.stage.defers| == 1
  {
    PopNeverWaits(cfg, s, h);
    if Enabled(cfg, s, e) {
      StepTouchesOne(cfg, s, e);
    }
  }

  // While c waits, its process's semaphore only empties.
  lemma WaitingOnlyDrains(cfg: Config, s: State, e: Event, c: nat)
    requires Inv(cfg, s) && c in s.conns && s.conns[c].stage.Admitted?
    requires Enabled(cfg, s, e) && e != EnterSem(c)
    ensures var s' := Next(cfg, s, e); var slot := SemSlot(s.conns[c].process);
      c in s'.conns && s'.conns[c] == s.conns[c] && Holders(s'.conns, slot) <= Holders(s.conns, slot)
  {
    StepTouchesOne(cfg, s, e);
    var slot := SemSlot(s.conns[c].process);
    if Holds(Moved(cfg, s, e), slot) {
      assert e.c in s.conns && Holds(s.conns[e.c], slot);
    }
  }

  lemma {:induction false} RunOnlyDrains(cfg: Config, s: State, events: seq<Event>, c: nat)
    requires Configured(cfg) && Inv(cfg, s) && c in s.conns && s.conns[c].stage.Admitted?
    requires Legal(cfg, s, events) && EnterSem(c) !in events
    ensures var s' := Run(cfg, s, events); var slot := SemSlot(s.conns[c].process);
      c in s'.conns && s'.conns[c] == s.conns[c] && Holders(s'.conns, slot) <= Holders(s.conns, slot)
    decreases events
  {
    if events != [] {
      WaitingOnlyDrains(cfg, s, events[0], c);
      StepKeepsInv(cfg, s, events[0]);
      RunOnlyDrains(cfg, Next(cfg, s, events[0]), events[1..], c);
    }
  }

  // In every continuation of a blocked state in which the releasing goroutine
  // gets to finish, the send on the semaphore is enabled until it happens.
  lemma FinishedReleaseUnblocks(cfg: Config, s: State, events: seq<Event>, c: nat, h: nat)
    requires Configured(cfg) && Inv(cfg, s) && c in s.conns && s.conns[c].stage.Admitted?
    requires Releasing(s, s.conns[c].process, h)
    requires Legal(cfg, s, events) && EnterSem(c) !in events
    requires var s' := Run(cfg, s, events); h in s'.conns && s'.conns[h].stage.Closed?
    ensures Enabled(cfg, Run(cfg, s, events), EnterSem(c))
  {
    RunOnlyDrains(cfg, s, events, c);
    RunKeepsInv(cfg, s, events);
    var s', slot := Run(cfg, s, events), SemSlot(s.conns[c].process);
    var before, after := Holders(s.conns, slot), Holders(s'.conns, slot);
    assert WellStacked(s.conns[h]);
    assert h in before && h !in after;
    CardinalityBelow(after + {h}, before);
    assert Counter(s, slot) == |before| && Counter(s', slot) == |after|;
    assert Entered(s, s.conns[c].process) <= cfg.maxConns;
  }

  function Finish(h: nat, n: nat): seq<Event> {
    if n == 0 then [] else [RunDeferred(h)] + Finish(h, n - 1)
  }

  lemma {:induction false} FinishCloses(cfg: Config, s: State, process: nat, h: nat, c: nat)
    requires Configured(cfg) && Inv(cfg, s) && Releasing(s, process, h)
    ensures var events := Finish(h, |s.conns[h].stage.defers|);
      Legal(cfg, s, events) && EnterSem(c) !in events &&
      h in Run(cfg, s, events).conns && Run(cfg, s, events).conns[h].stage.Closed?
    decreases |s.conns[h].stage.defers|
  {
    ReleaseNeverWaits(cfg, s, process, h, RunDeferred(h));
    var s' := Next(cfg, s, RunDeferred(h));
    StepKeepsInv(cfg, s, RunDeferred(h));
    if |s.conns[h].stage.defers| == 2 {
      FinishCloses(cfg, s', process, h, c);
    }
    assert Finish(h, |s.conns[h].stage.defers|)[1..] == Finish(h, |s.conns[h].stage.defers| - 1);
  }

  // h is a releasing goroutine of c's process; its remaining steps can be taken
  // at once, and afterwards c's accept loop can go on.
  predicate UnblockedBy(cfg: Config, s: State, c: nat, h: nat)
    requires c in s.conns
  {
    Releasing(s, s.conns[c].process, h) &&
    var steps := Finish(h, |s.conns[h].stage.defers|);
    Legal(cfg, s, steps) && Enabled(cfg, Run(cfg, s, steps), EnterSem(c))
  }

  lemma BlockedCanUnblock(cfg: Config, s: State, c: nat)
    requires Configured(cfg) && Inv(cfg, s) && Blocked(cfg, s, c)
    ensures exists h :: UnblockedBy(cfg, s, c, h)
  {
    BlockedMeansReleasing(cfg, s, c);
    var h :| Releasing(s, s.conns[c].process, h);
    FinishCloses(cfg, s, s.conns[c].process, h, c);
    FinishedReleaseUnblocks(cfg, s, Finish(h, |s.conns[h].stage.defers|), c, h);
    assert UnblockedBy(cfg, s, c, h);
  }

  // Whenever an accept loop is blocked, some goroutine of its process is at
  // most two steps, both of them enabled, from letting it go on.
  lemma AcceptLoopProgress(cfg: Config, events: seq<Event>, c: nat)
    requires Configured(cfg) && Legal(cfg, INIT, events) && Blocked(cfg, Run(cfg, INIT, events), c)
    ensures exists h :: UnblockedBy(cfg, Run(cfg, INIT, events), c, h)
  {
    InitInv(cfg);
    RunKeepsInv(cfg, INIT, events);
    BlockedCanUnblock(cfg, Run(cfg, INIT, events), c);
  }

  // ---- the code of one process ----

  lemma {:induction false} RunSnoc(cfg: Config, s: State, events: seq<Event>, e: Event)
    requires Legal(cfg, s, events) && Enabled(cfg, Run(cfg, s, events), e)
    ensures Legal(cfg, s, events + [e])
    ensures Run(cfg, s, events + [e]) == Next(cfg, Run(cfg, s, events), e)
    decreases events
  {
    if events == [] {
      assert events + [e] == [e] && [e][1..] == [];
    } else {
      assert (events + [e])[0] == events[0] && (events + [e])[1..] == events[1..] + [e];
      RunSnoc(cfg, Next(cfg, s, events[0]), events[1..], e);
    }
  }

  // A counter with one more slot taken; the empty key is never counted.
  function Taken(count: Counters, key: string): Counters {
    if key == "" then count else count[key := Value(count, key) + 1]
  }

  lemma TakenAndReleased(count: Counters, max: int, key: string)
    requires max >= 1 && Counting(count, max)
    ensures MemoryOp(Taken(count, key), max, Op.Release(key)).1 == count
  {
  }

  // The gateway's shared objects. Each method below is the sequential code of
  // one goroutine between the points where it waits, and is a run of the
  // machine: trace lists the steps.
  class Gateway {
    const cfg: Config
    const ipLimiter: IPConnLimiter
    const globalLimiter: IPConnLimiter
    const tokenLimiter: IPConnLimiter
    var conns: map<nat, Conn>
    var sems: map<nat, nat>

    constructor (cfg: Config)
      requires Configured(cfg)
      ensures this.cfg == cfg && Valid() && S() == INIT
      ensures fresh(ipLimiter) && fresh(globalLimiter) && fresh(tokenLimiter)
    {
      this.cfg := cfg;
      ipLimiter := new IPConnLimiter(cfg.maxPerIp);
      globalLimiter := new IPConnLimiter(cfg.maxConns);
      tokenLimiter := new IPConnLimiter(cfg.maxPerToken);
      conns := map[];
      sems := map[];
    }

    predicate Valid() {
      Configured(cfg) &&
      ipLimiter.max == cfg.maxPerIp && globalLimiter.max == cfg.maxConns && tokenLimiter.max == cfg.maxPerToken &&
      ipLimiter != globalLimiter && ipLimiter != tokenLimiter && globalLimiter != tokenLimiter
    }

    function S(): State
      reads this, ipLimiter, globalLimiter, tokenLimiter
    {
      State(conns, ipLimiter.count, globalLimiter.count, tokenLimiter.count, sems)
    }

    method SetStage(c: nat, stage: Stage)
      requires c in conns
      modifies this`conns
      ensures conns == old(conns)[c := old(conns)[c].(stage := stage)]
    {
      conns := conns[c := conns[c].(stage := stage)];
    }

    method TakeIpSlot(c: nat) returns (ok: bool)
      requires Valid() && Enabled(cfg, S(), TakeIp(c))
      modifies this`conns, ipLimiter
      ensures S() == Next(cfg, old(S()), TakeIp(c))
      ensures conns[c].stage == if ok then IpHeld else Closed
      ensures var ip := old(conns[c].ip); var count := old(ipLimiter.count);
        (ok <==> ip == "" || Value(count, ip) < cfg.maxPerIp) &&
        ipLimiter.count == if ok then Taken(count, ip) else count
    {
      ok := ipLimiter.Acquire(conns[c].ip);
      SetStage(c, if ok then IpHeld else Closed);
    }

    method TakeGlobalSlot(c: nat) returns (ok: bool)
      requires Valid() && Enabled(cfg, S(), TakeGlobal(c))
      modifies this`conns, globalLimiter
      ensures S() == Next(cfg, old(S()), TakeGlobal(c))
      ensures conns[c].stage == if ok then Admitted else Refused
      ensures var count := old(globalLimiter.count);
        (ok <==> Value(count, GLOBAL) < cfg.maxConns) &&
        globalLimiter.count == if ok then Taken(count, GLOBAL) else count
    {
      ok := globalLimiter.Acquire(GLOBAL);
      SetStage(c, if ok then Admitted else Refused);
    }

    method RollBackIpSlot(c: nat)
      requires Valid() && Enabled(cfg, S(), RollBackIp(c))
      modifies this`conns, ipLimiter
      ensures S() == Next(cfg, old(S()), RollBackIp(c))
      ensures ipLimiter.count == MemoryOp(old(ipLimiter.count), cfg.maxPerIp, Op.Release(old(conns[c].ip))).1
      ensures conns == old(conns)[c := old(conns)[c].(stage := Closed)]
    {
      ipLimiter.Release(conns[c].ip);
      SetStage(c, Closed);
    }

    method TakeTokenSlot(c: nat, token: string) returns (ok: bool)
      requires Valid() && Enabled(cfg, S(), TakeToken(c, token))
      modifies this`conns, tokenLimiter
      ensures S() == Next(cfg, old(S()), TakeToken(c, token))
      ensures var defers := old(conns[c].stage.defers);
        conns[c].stage == if ok then Running(defers + [FreeToken(token)]) else Unwinding(defers)
    {
      var defers := conns[c].stage.defers;
      ok := tokenLimiter.Acquire(token);
      SetStage(c, if ok then Running(defers + [FreeToken(token)]) else Unwinding(defers));
    }

    // The send on the semaphore, and the goroutine it starts.
    method Spawn(c: nat)
      requires Valid() && Enabled(cfg, S(), EnterSem(c))
      modifies this`conns, this`sems
      ensures S() == Next(cfg, old(S()), EnterSem(c))
    {
      var process := conns[c].process;
      sems := sems[process := Entered(S(), process) + 1];
      var defers := [LeaveSem];
      defers := defers + [FreeIp];
      defers := defers + [FreeGlobal];
      assert defers == [LeaveSem, FreeIp, FreeGlobal];
      SetStage(c, Running(defers));
    }

    // Run the last deferred call.
    method Pop(c: nat)
      requires Valid() && Enabled(cfg, S(), RunDeferred(c))
      modifies this`conns, this`sems, ipLimiter, globalLimiter, tokenLimiter
      ensures S() == Next(cfg, old(S()), RunDeferred(c))
      ensures var rest := old(conns[c].stage.defers)[..|old(conns[c].stage.defers)| - 1];
        c in conns && conns[c].stage == if rest == [] then Closed else Unwinding(rest)
    {
      var defers := conns[c].stage.defers;
      var rest := defers[..|defers| - 1];
      match defers[|defers| - 1] {
        case LeaveSem =>
          var process := conns[c].process;
          sems := sems[process := Entered(S(), process) - 1];
        case FreeIp => ipLimiter.Release(conns[c].ip);
        case FreeGlobal => globalLimiter.Release(GLOBAL);
        case FreeToken(token) => tokenLimiter.Release(token);
      }
      SetStage(c, if rest == [] then Closed else Unwinding(rest));
    }

    // The two limiters the accept loop asks, with the rollback of the first.
    method TakeSlots(c: nat) returns (waiting: bool, ghost trace: seq<Event>)
      requires Valid() && Enabled(cfg, S(), TakeIp(c))
      modifies this`conns, ipLimiter, globalLimiter
      ensures Legal(cfg, old(S()), trace) && S() == Run(cfg, old(S()), trace)
      ensures c in conns && conns[c] == old(conns[c]).(stage := if waiting then Admitted else Closed)
      ensures waiting <==>
        (old(conns[c].ip) == "" || Value(old(ipLimiter.count), old(conns[c].ip)) < cfg.maxPerIp) &&
        Value(old(globalLimiter.count), GLOBAL) < cfg.maxConns
      ensures waiting ==>
        ipLimiter.count == Taken(old(ipLimiter.count), old(conns[c].ip)) &&
        globalLimiter.count == Taken(old(globalLimiter.count), GLOBAL)
      ensures !waiting && Counting(old(ipLimiter.count), cfg.maxPerIp) ==>
        ipLimiter.count == old(ipLimiter.count) && globalLimiter.count == old(globalLimiter.count)
    {
      ghost var s0 := S();
      var ok := TakeIpSlot(c);
      trace := [TakeIp(c)];
      assert trace[1..] == [];
      if !ok {
        return false, trace;
      }
      ok := TakeGlobalSlot(c);
      RunSnoc(cfg, s0, trace, TakeGlobal(c));
      trace := trace + [TakeGlobal(c)];
      if !ok {
        if Counting(old(ipLimiter.count), cfg.maxPerIp) {
          TakenAndReleased(old(ipLimiter.count), cfg.maxPerIp, old(conns[c].ip));
        }
        RollBackIpSlot(c);
        RunSnoc(cfg, s0, trace, RollBackIp(c));
        return false, trace + [RollBackIp(c)];
      }
      return true, trace;
    }

    // One turn of the accept loop, up to the send on the semaphore.
    method AcceptOne(c: nat, process: nat, ip: string, ratePermits: bool)
      returns (waiting: bool, ghost trace: seq<Event>)
      requires Valid() && Enabled(cfg, S(), Accept(c, process, ip))
      modifies this`conns, ipLimiter, globalLimiter
      ensures Legal(cfg, old(S()), trace) && S() == Run(cfg, old(S()), trace)
      ensures c in conns && conns[c] == Conn(process, ip, if waiting then Admitted else Closed)
      ensures waiting <==>
        ratePermits && (ip == "" || Value(old(ipLimiter.count), ip) < cfg.maxPerIp) &&
        Value(old(globalLimiter.count), GLOBAL) < cfg.maxConns
      ensures waiting ==>
        ipLimiter.count == Taken(old(ipLimiter.count), ip) &&
        globalLimiter.count == Taken(old(globalLimiter.count), GLOBAL)
      ensures !waiting && Counting(old(ipLimiter.count), cfg.maxPerIp) ==>
        ipLimiter.count == old(ipLimiter.count) && globalLimiter.count == old(globalLimiter.count)
    {
      ghost var s0 := S();
      conns := conns[c := Conn(process, ip, Arrived)];
      if !ratePermits {
        SetStage(c, Closed);
        trace := [Accept(c, process, ip)];
        assert trace[1..] == [];
        RunSnoc(cfg, s0, trace, DropByRate(c));
        return false, trace + [DropByRate(c)];
      }
      waiting, trace := TakeSlots(c);
      ghost var taken := trace;
      trace := [Accept(c, process, ip)] + trace;
      assert trace[1..] == taken;
    }

    // The handler up to its return: authentication, the rate check and the
    // token's slot, then the session itself, which takes no slot.
    method Handle(c: nat, token: string, authenticated: bool, ratePermits: bool)
      returns (served: bool, ghost trace: seq<Event>)
      requires Valid() && c in conns && conns[c].stage.Running? && |conns[c].stage.defers| == 3
      requires authenticated ==> token != ""
      modifies this, tokenLimiter
      ensures Legal(cfg, old(S()), trace) && S() == Run(cfg, old(S()), trace)
      ensures c in conns && conns[c].stage.Unwinding?
      ensures conns[c].stage.defers == old(conns[c].stage.defers) + (if served then [FreeToken(token)] else [])
      ensures served <==> authenticated && ratePermits && Value(old(tokenLimiter.count), token) < cfg.maxPerToken
      ensures tokenLimiter.count == if served then Taken(old(tokenLimiter.count), token) else old(tokenLimiter.count)
    {
      ghost var s0 := S();
      if !authenticated || !ratePermits {
        SetStage(c, Unwinding(conns[c].stage.defers));
        trace := [Return(c)];
        assert trace[1..] == [];
        return false, trace;
      }
      var ok := TakeTokenSlot(c, token);
      trace := [TakeToken(c, token)];
      assert trace[1..] == [];
      if !ok {
        return false, trace;
      }
      SetStage(c, Unwinding(conns[c].stage.defers));
      RunSnoc(cfg, s0, trace, Return(c));
      return true, trace + [Return(c)];
    }

    // The deferred calls, last one first.
    method Unwind(c: nat) returns (ghost trace: seq<Event>)
      requires Valid() && CanUnwind(S(), c)
      modifies this, ipLimiter, globalLimiter, tokenLimiter
      ensures Legal(cfg, old(S()), trace) && S() == Run(cfg, old(S()), trace)
      ensures trace == Finish(c, |old(conns[c].stage.defers)|)
      ensures c in conns && conns[c].stage.Closed?
    {
      ghost var s0 := S();
      ghost var n := |conns[c].stage.defers|;
      trace := [];
      while !conns[c].stage.Closed?
        invariant c in conns && Legal(cfg, s0, trace) && S() == Run(cfg, s0, trace)
        invariant CanUnwind(S(), c) || conns[c].stage.Closed?
        invariant |trace| + Left(conns[c].stage) == n && trace == Finish(c, |trace|)
        decreases n - |trace|
      {
        PopUnwinds(cfg, S(), c);
        Pop(c);
        RunSnoc(cfg, s0, trace, RunDeferred(c));
        FinishSnoc(c, |trace|);
        trace := trace + [RunDeferred(c)];
      }
    }
  }

  // The goroutine is past its handler, its deferred calls are those it
  // registered, and it has its place in the semaphore.
  predicate CanUnwind(s: State, c: nat) {
    c in s.conns && s.conns[c].stage.Unwinding? && WellStacked(s.conns[c]) && Entered(s, s.conns[c].process) > 0
  }

  // How many deferred calls are left to run.
  function Left(stage: Stage): nat {
    if stage.Unwinding? then |stage.defers| else 0
  }

  lemma PopUnwinds(cfg: Config, s: State, c: nat)
    requires CanUnwind(s, c)
    ensures Enabled(cfg, s, RunDeferred(c))
    ensures var s' := Next(cfg, s, RunDeferred(c));
      (CanUnwind(s', c) || (c in s'.conns && s'.conns[c].stage.Closed?)) &&
      Left(s'.conns[c].stage) == Left(s.conns[c].stage) - 1
  {
  }

  lemma {:induction false} FinishSnoc(h: nat, n: nat)
    ensures |Finish(h, n)| == n
    ensures Finish(h, n + 1) == Finish(h, n) + [RunDeferred(h)]
    decreases n
  {
    if n > 0 {
      FinishSnoc(h, n - 1);
      assert Finish(h, n) == [RunDeferred(h)] + Finish(h, n - 1);
    }
  }
}
