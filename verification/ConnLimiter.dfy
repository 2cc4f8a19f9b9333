// The connection limiter kept in Redis and its in-memory twin, which answer
// alike.
module ConnLimiter {
  import opened Wrappers

  type Counters = map<string, int>

  function Value(c: Counters, key: string): int {
    if key in c then c[key] else 0
  }

  // INCR, and DECR again when the counter went over max.
  function AcquireScript(c: Counters, key: string, max: int): (bool, Counters) {
    var current := Value(c, key) + 1;
    if current > max then (false, c[key := current - 1]) else (true, c[key := current])
  }

  // DECR, and DEL when nothing is left.
  function ReleaseScript(c: Counters, key: string): Counters {
    var current := Value(c, key) - 1;
    if current <= 0 then c - {key} else c[key := current]
  }

  // Every counter present holds between one and max.
  predicate Counting(c: Counters, max: int) {
    forall key :: key in c ==> 1 <= c[key] <= max
  }

  // The three limiters of the gateway share one Redis and no key.
  lemma LimiterKeysDisjoint(root: string, ip: string, token: string, global: string)
    ensures FullKey(root + ":tcp:conn:ip", ip) != FullKey(root + ":tcp:conn:token", token)
    ensures FullKey(root + ":tcp:conn:ip", ip) != FullKey(root + ":tcp:conn:global", global)
    ensures FullKey(root + ":tcp:conn:token", token) != FullKey(root + ":tcp:conn:global", global)
  {
    var n := |root| + 10;
    assert FullKey(root + ":tcp:conn:ip", ip)[n] == ":tcp:conn:ip"[10] == 'i';
    assert FullKey(root + ":tcp:conn:token", token)[n] == ":tcp:conn:token"[10] == 't';
    assert FullKey(root + ":tcp:conn:global", global)[n] == ":tcp:conn:global"[10] == 'g';
  }

  // ---- one limiter, as a function of its counters ----

  datatype Op = Acquire(key: string) | Release(key: string)

  // A release answers nothing; it is recorded as true.
  function RedisOp(c: Counters, max: int, prefix: string, op: Op): (bool, Counters) {
    if op.key == "" || max <= 0 then (true, c)
    else match op
      case Acquire(key) => AcquireScript(c, FullKey(prefix, key), max)
      case Release(key) => (true, ReleaseScript(c, FullKey(prefix, key)))
  }

  function MemoryOp(count: Counters, max: int, op: Op): (bool, Counters) {
    if op.key == "" || max <= 0 then (true, count)
    else match op
      case Acquire(ip) =>
        if Value(count, ip) >= max then (false, count) else (true, count[ip := Value(count, ip) + 1])
      case Release(ip) =>
        (true, if Value(count, ip) > 1 then count[ip := count[ip] - 1] else count - {ip})
  }

  function RedisAnswers(c: Counters, max: int, prefix: string, ops: seq<Op>): seq<bool>
    decreases ops
  {
    if ops == [] then [] else
      var (ok, c') := RedisOp(c, max, prefix, ops[0]);
      [ok] + RedisAnswers(c', max, prefix, ops[1..])
  }

  function MemoryAnswers(count: Counters, max: int, ops: seq<Op>): seq<bool>
    decreases ops
  {
    if ops == [] then [] else
      var (ok, count') := MemoryOp(count, max, ops[0]);
      [ok] + MemoryAnswers(count', max, ops[1..])
  }

  // ---- the two limiters are bisimilar ----

  // Redis holds, under this limiter's prefix, just what the map holds.
  ghost predicate Mirrors(c: Counters, count: Counters, prefix: string) {
    forall key: string {:trigger FullKey(prefix, key)} ::
      (key in count <==> FullKey(prefix, key) in c) &&
      (key in count ==> count[key] == c[FullKey(prefix, key)])
  }

  lemma OpKeepsMirror(c: Counters, count: Counters, max: int, prefix: string, op: Op)
    requires Counting(count, max) && Mirrors(c, count, prefix)
    ensures var (ok, c') := RedisOp(c, max, prefix, op);
      var (ok', count') := MemoryOp(count, max, op);
      ok == ok' && Counting(count', max) && Mirrors(c', count', prefix) &&
      forall k :: k != FullKey(prefix, op.key) ==> Value(c', k) == Value(c, k)
  {
    var (_, c') := RedisOp(c, max, prefix, op);
    var (_, count') := MemoryOp(count, max, op);
    assert Value(c, FullKey(prefix, op.key)) == Value(count, op.key);
    forall key: string
      ensures key in count' <==> FullKey(prefix, key) in c'
      ensures key in count' ==> count'[key] == c'[FullKey(prefix, key)]
    {
      FullKeyInjective(prefix, key, op.key);
      assert key in count <==> FullKey(prefix, key) in c;
    }
  }

  // From mirroring states the two limiters give the same answers to every
  // sequence of acquires and releases, matched or not, on every key.
  lemma {:induction false} LimitersBisimilar(c: Counters, count: Counters, max: int, prefix: string, ops: seq<Op>)
    requires Counting(count, max) && Mirrors(c, count, prefix)
    ensures RedisAnswers(c, max, prefix, ops) == MemoryAnswers(count, max, ops)
    decreases ops
  {
    if ops != [] {
      OpKeepsMirror(c, count, max, prefix, ops[0]);
      var (_, c') := RedisOp(c, max, prefix, ops[0]);
      var (_, count') := MemoryOp(count, max, ops[0]);
      LimitersBisimilar(c', count', max, prefix, ops[1..]);
    }
  }

  // An operation of one limiter leaves what another limiter sees alone.
  lemma OpLeavesOthers(c: Counters, max: int, prefix: string, op: Op, count: Counters, other: string)
    requires Mirrors(c, count, other)
    requires forall key: string {:trigger FullKey(other, key)} :: FullKey(other, key) != FullKey(prefix, op.key)
    ensures Mirrors(RedisOp(c, max, prefix, op).1, count, other)
  {
  }

  // ---- the limiters ----

  // The part of Redis the connection limiters use.
  class Redis {
    var counters: Counters

    constructor ()
      ensures counters == map[]
    {
      counters := map[];
    }

    method Incr(key: string) returns (current: int)
      modifies this
      ensures current == old(Value(counters, key)) + 1 && counters == old(counters)[key := current]
    {
      current := Value(counters, key) + 1;
      counters := counters[key := current];
    }

    method Decr(key: string) returns (current: int)
      modifies this
      ensures current == old(Value(counters, key)) - 1 && counters == old(counters)[key := current]
    {
      current := Value(counters, key) - 1;
      counters := counters[key := current];
    }

    method Del(key: string)
      modifies this
      ensures counters == old(counters) - {key}
    {
      counters := counters - {key};
    }

    method RunAcquire(key: string, max: int) returns (res: int)
      modifies this
      ensures var (ok, c) := AcquireScript(old(counters), key, max);
        res == (if ok then 1 else 0) && counters == c
    {
      var current := Incr(key);
      if current > max {
        var _ := Decr(key);
        return 0;
      }
      return 1;
    }

    method RunRelease(key: string) returns (current: int)
      modifies this
      ensures counters == ReleaseScript(old(counters), key)
    {
      current := Decr(key);
      if current <= 0 {
        Del(key);
      }
    }
  }

  class RedisConnLimiter {
    const client: Redis
    const max: int
    const prefix: string
    const ttlSeconds: int
    const failClosed: bool

    constructor (client: Redis, max: int, prefix: string, ttlSeconds: int, failClosed: bool)
      ensures this.client == client && this.max == max && this.prefix == prefix && this.failClosed == failClosed
      ensures this.ttlSeconds == if ttlSeconds > 0 then ttlSeconds else 900
    {
      this.client := client;
      this.max := max;
      this.prefix := prefix;
      this.ttlSeconds := if ttlSeconds <= 0 then 900 else ttlSeconds;
      this.failClosed := failClosed;
    }

    method Acquire(key: string, reply: Reply) returns (ok: bool)
      modifies client
      ensures var (granted, c) := RedisOp(old(client.counters), max, prefix, Op.Acquire(key));
        client.counters == (if reply == LostBeforeRun then old(client.counters) else c) &&
        ok == (if key == "" || max <= 0 || reply == Answered then granted else !failClosed)
      ensures reply == Answered ==>
        (ok <==> key == "" || max <= 0 || Value(old(client.counters), FullKey(prefix, key)) < max)
    {
      if key == "" || max <= 0 {
        return true;
      }
      if reply == LostBeforeRun {
        return !failClosed;
      }
      var res := client.RunAcquire(FullKey(prefix, key), max);
      if reply == LostAfterRun {
        return !failClosed;
      }
      return res == 1;
    }

    method Release(key: string, reply: Reply)
      modifies client
      ensures client.counters == if reply == LostBeforeRun then old(client.counters)
                                 else RedisOp(old(client.counters), max, prefix, Op.Release(key)).1
    {
      if key == "" || max <= 0 {
        return;
      }
      if reply != LostBeforeRun {
        var _ := client.RunRelease(FullKey(prefix, key));
      }
    }
  }

  class IPConnLimiter {
    const max: int
    var count: Counters

    constructor (max: int)
      ensures this.max == max && count == map[]
    {
      this.max := max;
      count := map[];
    }

    method Acquire(ip: string) returns (ok: bool)
      modifies this
      ensures (ok, count) == MemoryOp(old(count), max, Op.Acquire(ip))
      ensures ok <==> ip == "" || max <= 0 || Value(old(count), ip) < max
      ensures ip != "" && max > 0 && ok ==> Value(count, ip) == Value(old(count), ip) + 1
    {
      if ip == "" || max <= 0 {
        return true;
      }
      if Value(count, ip) >= max {
        return false;
      }
      count := count[ip := Value(count, ip) + 1];
      return true;
    }

    method Release(ip: string)
      modifies this
      ensures count == MemoryOp(old(count), max, Op.Release(ip)).1
      ensures ip != "" && max > 0 ==>
        Value(count, ip) == if Value(old(count), ip) > 0 then Value(old(count), ip) - 1 else 0
    {
      if ip == "" || max <= 0 {
        return;
      }
      if Value(count, ip) > 1 {
        count := count[ip := count[ip] - 1];
        return;
      }
      count := count - {ip};
    }
  }
}
