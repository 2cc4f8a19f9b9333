// The Redis token bucket behind every rate limiter of the challenge gateway:
// the Lua script as a function of the stored hash and the clock, the limiter
// object that runs it, and what the script guarantees over whole runs.
module TokenBucket {
  import opened Wrappers

  // rate is in tokens per second, burst in tokens, ttl in seconds.
  datatype Config = Config(rate: real, burst: int, ttl: nat)

  // The hash stored under one key: tokens left and the clock, in
  // milliseconds, of the call that wrote it.
  datatype Bucket = Bucket(tokens: real, ts: int)

  predicate Active(cfg: Config) {
    cfg.rate > 0.0 && cfg.burst > 0
  }

  predicate Within(cfg: Config, b: Option<Bucket>) {
    b.Some? ==> 0.0 <= b.value.tokens <= cfg.burst as real
  }

  function Max0(x: int): nat {
    if x < 0 then 0 else x
  }

  function MinReal(x: real, y: real): real {
    if x <= y then x else y
  }

  // Tokens earned in ms milliseconds.
  function Gain(cfg: Config, ms: int): real {
    ms as real / 1000.0 * cfg.rate
  }

  // What a call finds in the bucket; a missing hash counts as a full one.
  function Refill(cfg: Config, b: Option<Bucket>, now: int): real {
    match b
    case None => cfg.burst as real
    case Some(s) => MinReal(cfg.burst as real, s.tokens + Gain(cfg, Max0(now - s.ts)))
  }

  // One run of the script.
  function Step(cfg: Config, b: Option<Bucket>, now: int): (bool, Bucket) {
    var level := Refill(cfg, b, now);
    if level >= 1.0 then (true, Bucket(level - 1.0, now)) else (false, Bucket(level, now))
  }

  // The answers to a run of calls on one key that never expires.
  function Outcomes(cfg: Config, b: Option<Bucket>, times: seq<int>): (r: seq<bool>)
    ensures |r| == |times|
    decreases times
  {
    if times == [] then [] else
      var (ok, next) := Step(cfg, b, times[0]);
      [ok] + Outcomes(cfg, Some(next), times[1..])
  }

  function After(cfg: Config, b: Option<Bucket>, times: seq<int>): Option<Bucket>
    decreases times
  {
    if times == [] then b else After(cfg, Some(Step(cfg, b, times[0]).1), times[1..])
  }

  function Count(s: seq<bool>): nat {
    if s == [] then 0 else (if s[0] then 1 else 0) + Count(s[1..])
  }

  // The sum of the clock's forward steps over a run of calls.
  function Forward(times: seq<int>): nat {
    if |times| < 2 then 0 else Max0(times[1] - times[0]) + Forward(times[1..])
  }

  predicate Nondecreasing(times: seq<int>) {
    forall i, j :: 0 <= i <= j < |times| ==> times[i] <= times[j]
  }

  // ---- arithmetic and sequence helpers ----

  lemma GainAdds(cfg: Config, x: int, y: int)
    ensures Gain(cfg, x + y) == Gain(cfg, x) + Gain(cfg, y)
    ensures Gain(cfg, 0) == 0.0
  {
  }

  lemma GainMonotone(cfg: Config, x: int, y: int)
    requires cfg.rate > 0.0 && x <= y
    ensures Gain(cfg, x) <= Gain(cfg, y)
    ensures x >= 0 ==> Gain(cfg, x) >= 0.0
  {
    GainAdds(cfg, x, y - x);
    assert (y - x) as real / 1000.0 >= 0.0;
  }

  lemma {:induction false} CountConcat(s: seq<bool>, t: seq<bool>)
    ensures Count(s + t) == Count(s) + Count(t)
  {
    if s == [] {
      assert s + t == t;
    } else {
      assert (s + t)[1..] == s[1..] + t;
      CountConcat(s[1..], t);
    }
  }

  lemma CountSnoc(s: seq<bool>, i: nat, j: nat)
    requires i <= j < |s|
    ensures Count(s[i..j + 1]) == Count(s[i..j]) + (if s[j] then 1 else 0)
  {
    assert s[i..j + 1] == s[i..j] + [s[j]];
    CountConcat(s[i..j], [s[j]]);
  }

  lemma {:induction false} ForwardSnoc(times: seq<int>, t: int)
    requires times != []
    ensures Forward(times + [t]) == Forward(times) + Max0(t - times[|times| - 1])
  {
    if |times| > 1 {
      assert (times + [t])[1..] == times[1..] + [t];
      ForwardSnoc(times[1..], t);
    } else {
      assert times + [t] == [times[0], t];
      assert (times + [t])[1..] == [t];
    }
  }

  lemma {:induction false} ForwardIsElapsed(times: seq<int>)
    requires times != [] && Nondecreasing(times)
    ensures Forward(times) == times[|times| - 1] - times[0]
  {
    if |times| > 1 {
      ForwardIsElapsed(times[1..]);
    }
  }

  lemma {:induction false} OutcomesSplit(cfg: Config, b: Option<Bucket>, xs: seq<int>, ys: seq<int>)
    ensures Outcomes(cfg, b, xs + ys) == Outcomes(cfg, b, xs) + Outcomes(cfg, After(cfg, b, xs), ys)
    decreases xs
  {
    if xs == [] {
      assert xs + ys == ys;
    } else {
      assert (xs + ys)[1..] == xs[1..] + ys;
      OutcomesSplit(cfg, Some(Step(cfg, b, xs[0]).1), xs[1..], ys);
    }
  }

  // ---- bounds ----

  lemma {:induction false} StoredTokensWithin(cfg: Config, b: Option<Bucket>, times: seq<int>)
    requires Active(cfg) && Within(cfg, b)
    ensures Within(cfg, After(cfg, b, times))
    decreases times
  {
    if times != [] {
      GainMonotone(cfg, 0, Max0(times[0] - (if b.Some? then b.value.ts else 0)));
      StoredTokensWithin(cfg, Some(Step(cfg, b, times[0]).1), times[1..]);
    }
  }

  // ---- windows ----

  // A choice of admitted calls that keeps the advertised promise: no window
  // holds more than the burst plus the rate times the clock's movement.
  ghost predicate KeepsPromise(cfg: Config, times: seq<int>, choice: seq<bool>) {
    |choice| == |times| &&
    forall i, j :: 0 <= i <= j <= |times| ==>
      Count(choice[i..j]) as real <= cfg.burst as real + Gain(cfg, Forward(times[i..j]))
  }

  // What a call leaves in the bucket when it is admitted or not.
  function Left(cfg: Config, b: Option<Bucket>, now: int, admitted: bool): real {
    Refill(cfg, b, now) - (if admitted then 1.0 else 0.0)
  }

  // A bucket in state b has a token for every call the choice admits.
  predicate Affordable(cfg: Config, b: Option<Bucket>, times: seq<int>, choice: seq<bool>)
    requires |choice| == |times|
    decreases times
  {
    times == [] ||
    var left := Left(cfg, b, times[0], choice[0]);
    left >= 0.0 && Affordable(cfg, Some(Bucket(left, times[0])), times[1..], choice[1..])
  }

  lemma LevelWithin(cfg: Config, b: Option<Bucket>, now: int)
    requires Active(cfg) && Within(cfg, b)
    ensures 0.0 <= Refill(cfg, b, now) <= cfg.burst as real
  {
    GainMonotone(cfg, 0, Max0(now - (if b.Some? then b.value.ts else 0)));
  }

  lemma {:induction false} ScriptIsAffordable(cfg: Config, b: Option<Bucket>, times: seq<int>)
    requires Active(cfg) && Within(cfg, b)
    ensures Affordable(cfg, b, times, Outcomes(cfg, b, times))
    decreases times
  {
    if times != [] {
      var (ok, next) := Step(cfg, b, times[0]);
      LevelWithin(cfg, b, times[0]);
      assert Outcomes(cfg, b, times)[1..] == Outcomes(cfg, Some(next), times[1..]);
      assert next == Bucket(Left(cfg, b, times[0], ok), times[0]);
      ScriptIsAffordable(cfg, Some(next), times[1..]);
    }
  }

  // Tokens are only ever spent on admissions: a run admits at most its first
  // level plus what the clock pays in.
  lemma {:induction false} SpentBound(cfg: Config, b: Option<Bucket>, times: seq<int>, choice: seq<bool>, j: nat)
    requires Active(cfg) && Within(cfg, b) && |choice| == |times| && Affordable(cfg, b, times, choice)
    requires 0 < j <= |times|
    ensures Count(choice[..j]) as real <= Refill(cfg, b, times[0]) + Gain(cfg, Forward(times[..j]))
    decreases times
  {
    LevelWithin(cfg, b, times[0]);
    var spent := if choice[0] then 1 else 0;
    assert choice[..j] == [choice[0]] + choice[1..][..j - 1];
    assert Count(choice[..j]) == spent + Count(choice[1..][..j - 1]);
    if j == 1 {
      GainAdds(cfg, 0, 0);
    } else {
      var next := Bucket(Left(cfg, b, times[0], choice[0]), times[0]);
      SpentBound(cfg, Some(next), times[1..], choice[1..], j - 1);
      assert times[..j][1..] == times[1..][..j - 1];
      GainAdds(cfg, Max0(times[1] - times[0]), Forward(times[1..][..j - 1]));
    }
  }

  // Whatever a bucket can pay for, from any state and under any clock, keeps
  // the promise in every window.
  lemma {:induction false} AffordableWindow(
    cfg: Config, b: Option<Bucket>, times: seq<int>, choice: seq<bool>, i: nat, j: nat)
    requires Active(cfg) && Within(cfg, b) && |choice| == |times| && Affordable(cfg, b, times, choice)
    requires i <= j <= |times|
    ensures Count(choice[i..j]) as real <= cfg.burst as real + Gain(cfg, Forward(times[i..j]))
    decreases times
  {
    GainMonotone(cfg, 0, Forward(times[i..j]));
    if i < j {
      LevelWithin(cfg, b, times[0]);
      if i == 0 {
        SpentBound(cfg, b, times, choice, j);
      } else {
        var next := Bucket(Left(cfg, b, times[0], choice[0]), times[0]);
        AffordableWindow(cfg, Some(next), times[1..], choice[1..], i - 1, j - 1);
        assert choice[1..][i - 1..j - 1] == choice[i..j] && times[1..][i - 1..j - 1] == times[i..j];
      }
    }
  }

  // Every contiguous stretch of calls on one key admits at most the burst plus
  // the rate times the forward movement of the clock, whatever the clock does.
  lemma WindowBound(cfg: Config, b: Option<Bucket>, times: seq<int>, i: nat, j: nat)
    requires Active(cfg) && Within(cfg, b) && i <= j <= |times|
    ensures Count(Outcomes(cfg, b, times)[i..j]) as real
         <= cfg.burst as real + Gain(cfg, Forward(times[i..j]))
  {
    ScriptIsAffordable(cfg, b, times);
    AffordableWindow(cfg, b, times, Outcomes(cfg, b, times), i, j);
  }

  lemma WindowBoundElapsed(cfg: Config, b: Option<Bucket>, times: seq<int>, i: nat, j: nat)
    requires Active(cfg) && Within(cfg, b) && i < j <= |times| && Nondecreasing(times)
    ensures Count(Outcomes(cfg, b, times)[i..j]) as real
         <= cfg.burst as real + Gain(cfg, times[j - 1] - times[i])
  {
    WindowBound(cfg, b, times, i, j);
    ForwardIsElapsed(times[i..j]);
  }

  // ---- greedy admission is optimal ----

  // lead is how many more calls the script has admitted so far. What it lacks
  // in tokens it has in admitted calls.
  lemma {:induction false} GreedyKeepsLead(cfg: Config, g: Option<Bucket>, a: Option<Bucket>,
                                           times: seq<int>, choice: seq<bool>, lead: nat)
    requires Active(cfg) && |choice| == |times|
    requires Affordable(cfg, a, times, choice)
    requires g.Some? <==> a.Some?
    requires g.Some? ==> g.value.ts == a.value.ts && g.value.tokens + lead as real >= a.value.tokens
    ensures lead + Count(Outcomes(cfg, g, times)) >= Count(choice)
    decreases times
  {
    if times != [] {
      var (ok, next) := Step(cfg, g, times[0]);
      var next' := Bucket(Left(cfg, a, times[0], choice[0]), times[0]);
      assert Refill(cfg, g, times[0]) + lead as real >= Refill(cfg, a, times[0]);
      var lead': int := lead + (if ok then 1 else 0) - (if choice[0] then 1 else 0);
      assert lead' >= 0;
      GreedyKeepsLead(cfg, Some(next), Some(next'), times[1..], choice[1..], lead');
      var out := Outcomes(cfg, g, times);
      assert out[0] == ok && out[1..] == Outcomes(cfg, Some(next), times[1..]);
    }
  }

  // The tokens a bucket holds after paying for the window that began at call i,
  // when it was last full.
  function WindowLevel(cfg: Config, times: seq<int>, choice: seq<bool>, i: nat, k: nat): real
    requires i <= k <= |times| == |choice|
  {
    cfg.burst as real + Gain(cfg, Forward(times[i..k])) - Count(choice[i..k]) as real
  }

  lemma WindowLevelGrows(cfg: Config, times: seq<int>, choice: seq<bool>, i: nat, k: nat)
    requires i < k < |times| == |choice|
    ensures WindowLevel(cfg, times, choice, i, k + 1)
         == WindowLevel(cfg, times, choice, i, k) + Gain(cfg, Max0(times[k] - times[k - 1]))
            - (if choice[k] then 1.0 else 0.0)
  {
    assert times[i..k + 1] == times[i..k] + [times[k]];
    ForwardSnoc(times[i..k], times[k]);
    GainAdds(cfg, Forward(times[i..k]), Max0(times[k] - times[k - 1]));
    CountSnoc(choice, i, k);
  }

  lemma WindowLevelStarts(cfg: Config, times: seq<int>, choice: seq<bool>, k: nat)
    requires k < |times| == |choice|
    ensures WindowLevel(cfg, times, choice, k, k + 1) == cfg.burst as real - (if choice[k] then 1.0 else 0.0)
  {
    assert times[k..k + 1] == [times[k]] && choice[k..k + 1] == [choice[k]];
    GainAdds(cfg, 0, 0);
    CountSnoc(choice, k, k);
  }

  lemma PromiseLeavesLevel(cfg: Config, times: seq<int>, choice: seq<bool>, i: nat, k: nat)
    requires KeepsPromise(cfg, times, choice) && i <= k <= |times|
    ensures WindowLevel(cfg, times, choice, i, k) >= 0.0
  {
  }

  // What a bucket that pays for call k has left: the best window that ends
  // there, either the running one or one that starts at k.
  lemma PaidLevel(cfg: Config, times: seq<int>, choice: seq<bool>, k: nat, i: nat, b: Bucket) returns (i': nat)
    requires KeepsPromise(cfg, times, choice)
    requires i < k < |times| && b == Bucket(WindowLevel(cfg, times, choice, i, k), times[k - 1])
    ensures i' <= k
    ensures Left(cfg, Some(b), times[k], choice[k]) == WindowLevel(cfg, times, choice, i', k + 1)
  {
    WindowLevelGrows(cfg, times, choice, i, k);
    WindowLevelStarts(cfg, times, choice, k);
    i' := if Refill(cfg, Some(b), times[k]) == cfg.burst as real then k else i;
  }

  // A bucket that has paid for a window up to call k can pay for call k too.
  lemma PromisePays(cfg: Config, times: seq<int>, choice: seq<bool>, k: nat, i: nat, b: Bucket)
    returns (i': nat, next: Bucket)
    requires KeepsPromise(cfg, times, choice)
    requires i < k < |times| && b == Bucket(WindowLevel(cfg, times, choice, i, k), times[k - 1])
    ensures i' <= k && next == Bucket(WindowLevel(cfg, times, choice, i', k + 1), times[k])
    ensures next.tokens >= 0.0 && next == Bucket(Left(cfg, Some(b), times[k], choice[k]), times[k])
  {
    i' := PaidLevel(cfg, times, choice, k, i, b);
    PromiseLeavesLevel(cfg, times, choice, i', k + 1);
    next := Bucket(WindowLevel(cfg, times, choice, i', k + 1), times[k]);
  }

  // A promise-keeping choice can be paid for.
  lemma {:induction false} PromiseIsAffordable(cfg: Config, times: seq<int>, choice: seq<bool>,
                                               k: nat, i: nat, b: Bucket)
    requires KeepsPromise(cfg, times, choice)
    requires i < k <= |times| && b == Bucket(WindowLevel(cfg, times, choice, i, k), times[k - 1])
    ensures Affordable(cfg, Some(b), times[k..], choice[k..])
    decreases |times| - k
  {
    if k < |times| {
      var i', next := PromisePays(cfg, times, choice, k, i, b);
      PromiseIsAffordable(cfg, times, choice, k + 1, i', next);
      AffordableFrom(cfg, times, choice, k, b, next);
    }
  }

  lemma AffordableFrom(cfg: Config, times: seq<int>, choice: seq<bool>, k: nat, b: Bucket, next: Bucket)
    requires k < |times| == |choice| && next.tokens >= 0.0
    requires next == Bucket(Left(cfg, Some(b), times[k], choice[k]), times[k])
    requires Affordable(cfg, Some(next), times[k + 1..], choice[k + 1..])
    ensures Affordable(cfg, Some(b), times[k..], choice[k..])
  {
    RestOf(times, k);
    RestOf(choice, k);
  }

  lemma RestOf<T>(s: seq<T>, k: nat)
    requires k < |s|
    ensures s[k..][0] == s[k] && s[k..][1..] == s[k + 1..]
  {
  }

  // The script's own answers keep the promise, and no promise-keeping choice
  // admits more calls in any prefix.
  lemma GreedyIsOptimal(cfg: Config, times: seq<int>, choice: seq<bool>, k: nat)
    requires Active(cfg) && k <= |times|
    ensures KeepsPromise(cfg, times, Outcomes(cfg, None, times))
    ensures KeepsPromise(cfg, times, choice) ==>
      Count(choice[..k]) <= Count(Outcomes(cfg, None, times)[..k])
  {
    forall i, j | 0 <= i <= j <= |times|
      ensures Count(Outcomes(cfg, None, times)[i..j]) as real <= cfg.burst as real + Gain(cfg, Forward(times[i..j]))
    {
      WindowBound(cfg, None, times, i, j);
    }
    if KeepsPromise(cfg, times, choice) {
      PrefixKeepsPromise(cfg, times, choice, k);
      PromiseKeptIsAffordable(cfg, times[..k], choice[..k]);
      GreedyKeepsLead(cfg, None, None, times[..k], choice[..k], 0);
      assert times == times[..k] + times[k..];
      OutcomesSplit(cfg, None, times[..k], times[k..]);
      assert Outcomes(cfg, None, times)[..k] == Outcomes(cfg, None, times[..k]);
    }
  }

  lemma PrefixKeepsPromise(cfg: Config, times: seq<int>, choice: seq<bool>, k: nat)
    requires k <= |times| && KeepsPromise(cfg, times, choice)
    ensures KeepsPromise(cfg, times[..k], choice[..k])
  {
    forall i, j | 0 <= i <= j <= k
      ensures Count(choice[..k][i..j]) as real <= cfg.burst as real + Gain(cfg, Forward(times[..k][i..j]))
    {
      assert choice[..k][i..j] == choice[i..j] && times[..k][i..j] == times[i..j];
    }
  }

  lemma AffordableKeepsPromise(cfg: Config, times: seq<int>, choice: seq<bool>)
    requires Active(cfg) && |choice| == |times| && Affordable(cfg, None, times, choice)
    ensures KeepsPromise(cfg, times, choice)
  {
    forall i, j | 0 <= i <= j <= |times|
      ensures Count(choice[i..j]) as real <= cfg.burst as real + Gain(cfg, Forward(times[i..j]))
    {
      AffordableWindow(cfg, None, times, choice, i, j);
    }
  }

  lemma PromiseKeptIsAffordable(cfg: Config, times: seq<int>, choice: seq<bool>)
    requires KeepsPromise(cfg, times, choice)
    ensures Affordable(cfg, None, times, choice)
  {
    if times != [] {
      var b := Bucket(WindowLevel(cfg, times, choice, 0, 1), times[0]);
      PromiseLeavesLevel(cfg, times, choice, 0, 1);
      WindowLevelStarts(cfg, times, choice, 0);
      PromiseIsAffordable(cfg, times, choice, 1, 0, b);
      assert b.tokens == Left(cfg, None, times[0], choice[0]);
    }
  }

  // Keeping the promise in every window is the same as being affordable for a
  // bucket that starts full.
  lemma PromiseIffAffordable(cfg: Config, times: seq<int>, choice: seq<bool>)
    requires Active(cfg) && |choice| == |times|
    ensures KeepsPromise(cfg, times, choice) <==> Affordable(cfg, None, times, choice)
  {
    if KeepsPromise(cfg, times, choice) {
      PromiseKeptIsAffordable(cfg, times, choice);
    } else if Affordable(cfg, None, times, choice) {
      AffordableKeepsPromise(cfg, times, choice);
    }
  }

  // ---- rejected calls are invisible ----

  function Keep<T>(xs: seq<T>, keep: seq<bool>): (r: seq<T>)
    requires |xs| == |keep|
    ensures |r| == Count(keep)
  {
    if xs == [] then [] else (if keep[0] then [xs[0]] else []) + Keep(xs[1..], keep[1..])
  }

  // From now on no call at or after b.ts can tell b from the older a.
  predicate RefillsTo(cfg: Config, a: Bucket, b: Bucket) {
    a.ts <= b.ts && b.tokens == MinReal(cfg.burst as real, a.tokens + Gain(cfg, b.ts - a.ts))
  }

  lemma RefillsCompose(cfg: Config, a: Bucket, b: Bucket, now: int)
    requires Active(cfg) && RefillsTo(cfg, a, b) && b.ts <= now
    ensures Refill(cfg, Some(a), now) == Refill(cfg, Some(b), now)
  {
    GainAdds(cfg, b.ts - a.ts, now - b.ts);
    GainMonotone(cfg, 0, now - b.ts);
  }

  lemma {:induction false} RejectedStayInvisible(cfg: Config, b: Bucket, b': Bucket, times: seq<int>, keep: seq<bool>)
    requires Active(cfg) && RefillsTo(cfg, b', b)
    requires Nondecreasing(times) && (times != [] ==> b.ts <= times[0])
    requires |keep| == |times|
    requires forall i :: 0 <= i < |keep| && !keep[i] ==> !Outcomes(cfg, Some(b), times)[i]
    ensures Outcomes(cfg, Some(b'), Keep(times, keep)) == Keep(Outcomes(cfg, Some(b), times), keep)
    decreases times
  {
    if times != [] {
      var out := Outcomes(cfg, Some(b), times);
      var (ok, next) := Step(cfg, Some(b), times[0]);
      assert out[0] == ok && out[1..] == Outcomes(cfg, Some(next), times[1..]);
      assert forall i :: 0 <= i < |times| - 1 ==> keep[1..][i] == keep[i + 1] && out[1..][i] == out[i + 1];
      RefillsCompose(cfg, b', b, times[0]);
      if keep[0] {
        GainAdds(cfg, 0, 0);
        LevelCapped(cfg, b, times[0]);
        RejectedStayInvisible(cfg, next, next, times[1..], keep[1..]);
        var kept := Keep(times, keep);
        assert kept[0] == times[0] && kept[1..] == Keep(times[1..], keep[1..]);
      } else {
        assert RefillsTo(cfg, b', next);
        RejectedStayInvisible(cfg, next, b', times[1..], keep[1..]);
        assert Keep(times, keep) == Keep(times[1..], keep[1..]);
        assert Keep(out, keep) == Keep(out[1..], keep[1..]);
      }
    }
  }

  lemma LevelCapped(cfg: Config, b: Bucket, now: int)
    ensures Refill(cfg, Some(b), now) <= cfg.burst as real
  {
  }

  // Deleting any set of rejected calls from a run with a nondecreasing clock
  // leaves the answers to all other calls as they were.
  lemma RejectedCallsAreInvisible(cfg: Config, b: Option<Bucket>, times: seq<int>, keep: seq<bool>)
    requires Active(cfg) && Within(cfg, b)
    requires Nondecreasing(times) && (b.Some? && times != [] ==> b.value.ts <= times[0])
    requires |keep| == |times|
    requires forall i :: 0 <= i < |keep| && !keep[i] ==> !Outcomes(cfg, b, times)[i]
    ensures Outcomes(cfg, b, Keep(times, keep)) == Keep(Outcomes(cfg, b, times), keep)
  {
    if b.Some? {
      GainAdds(cfg, 0, 0);
      RejectedStayInvisible(cfg, b.value, b.value, times, keep);
    } else if times != [] {
      // The first call finds a full bucket, so it is admitted and kept.
      GainAdds(cfg, 0, 0);
      var full := Bucket(cfg.burst as real, times[0]);
      FullLooksMissing(cfg, times);
      RejectedStayInvisible(cfg, full, full, times, keep);
      assert keep[0];
      FullLooksMissing(cfg, Keep(times, keep));
    }
  }

  // A missing hash and a full bucket answer alike.
  lemma FullLooksMissing(cfg: Config, times: seq<int>)
    requires times != []
    ensures Outcomes(cfg, None, times) == Outcomes(cfg, Some(Bucket(cfg.burst as real, times[0])), times)
  {
    GainAdds(cfg, 0, 0);
    assert Step(cfg, None, times[0]) == Step(cfg, Some(Bucket(cfg.burst as real, times[0])), times[0]);
  }

  // One reading that goes back a second is enough.
  lemma RejectedCallsShowAfterStepBack()
    ensures var cfg := Config(1.0, 1, 600);
      Outcomes(cfg, None, [1000, 0, 1000]) == [true, false, true] &&
      Outcomes(cfg, None, [1000, 1000]) == [true, false]
  {
    var cfg := Config(1.0, 1, 600);
    var b0 := Bucket(0.0, 1000);
    var b1 := Bucket(0.0, 0);
    assert Step(cfg, None, 1000) == (true, b0);
    assert Step(cfg, Some(b0), 0) == (false, b1);
    assert Step(cfg, Some(b1), 1000).0;
    assert !Step(cfg, Some(b0), 1000).0;
    assert [1000, 0, 1000][1..] == [0, 1000] && [0, 1000][1..] == [1000] && [1000, 1000][1..] == [1000];
    assert Outcomes(cfg, Some(b1), [1000]) == [true];
    assert Outcomes(cfg, Some(b0), [0, 1000]) == [false, true];
    assert Outcomes(cfg, Some(b0), [1000]) == [false];
  }

  // The least time in which a bucket earns its next whole token.
  lemma {:induction false} FirstWhole(cfg: Config, tokens: real, enough: nat) returns (n: nat)
    requires Active(cfg) && tokens < 1.0 <= tokens + Gain(cfg, enough)
    ensures 0 < n <= enough && tokens + Gain(cfg, n - 1) < 1.0 <= tokens + Gain(cfg, n)
    decreases enough
  {
    GainAdds(cfg, 0, 0);
    if tokens + Gain(cfg, enough - 1) < 1.0 {
      n := enough;
    } else {
      n := FirstWhole(cfg, tokens, enough - 1);
    }
  }

  lemma EnoughTime(cfg: Config) returns (ms: nat)
    requires Active(cfg)
    ensures Gain(cfg, ms) >= 1.0
  {
    var ratio := 1000.0 / cfg.rate;
    ms := ratio.Floor + 1;
    assert ms as real >= ratio;
    assert ms as real * cfg.rate >= ratio * cfg.rate;
  }

  // A reading at which a bucket whose clock was set back admits and the bucket
  // as it was does not.
  lemma StepBackPaysTwice(cfg: Config, b: Bucket, now: int) returns (t: int)
    requires Active(cfg) && Within(cfg, Some(b)) && b.tokens < 1.0 && now < b.ts
    ensures b.ts <= t
    ensures Refill(cfg, Some(Bucket(b.tokens, now)), t) >= 1.0 > Refill(cfg, Some(b), t)
  {
    var ms := EnoughTime(cfg);
    var n := FirstWhole(cfg, b.tokens, ms);
    t := if now + n >= b.ts then now + n else b.ts;
    GainMonotone(cfg, n, t - now);
    GainMonotone(cfg, t - b.ts, if now + n >= b.ts then n - 1 else 0);
    GainAdds(cfg, 0, 0);
  }

  // Two buckets answer alike from now on.
  ghost predicate AnswersAlike(cfg: Config, a: Bucket, b: Bucket, now: int) {
    forall times: seq<int> :: Nondecreasing(times) && (times != [] ==> a.ts <= times[0] && now <= times[0]) ==>
      Outcomes(cfg, Some(a), times) == Outcomes(cfg, Some(b), times)
  }

  // A rejected call never shows in a later answer exactly when it does not step
  // the clock back: at an earlier reading it moves the stored clock back and
  // lets time be paid for twice.
  lemma RejectedCallIsInvisibleIff(cfg: Config, b: Bucket, now: int)
    requires Active(cfg) && Within(cfg, Some(b)) && !Step(cfg, Some(b), now).0
    ensures AnswersAlike(cfg, b, Step(cfg, Some(b), now).1, now) <==> b.ts <= now
  {
    var next := Step(cfg, Some(b), now).1;
    GainAdds(cfg, 0, 0);
    if b.ts <= now {
      forall times: seq<int> | Nondecreasing(times) && (times != [] ==> b.ts <= times[0] && now <= times[0])
        ensures Outcomes(cfg, Some(b), times) == Outcomes(cfg, Some(next), times)
      {
        if times != [] {
          RefillsCompose(cfg, b, next, times[0]);
        }
      }
    } else {
      assert next == Bucket(b.tokens, now);
      var t := StepBackPaysTwice(cfg, b, now);
      assert Outcomes(cfg, Some(b), [t])[0] != Outcomes(cfg, Some(next), [t])[0];
    }
  }

  // A client that leaves 1000 / rate milliseconds between calls is never
  // rejected.
  lemma {:induction false} SpacedCallsAreAdmitted(cfg: Config, b: Option<Bucket>, times: seq<int>)
    requires Active(cfg) && Within(cfg, b)
    requires forall i :: 0 < i < |times| ==> (times[i] - times[i - 1]) as real * cfg.rate >= 1000.0
    requires b.Some? && times != [] ==> Gain(cfg, times[0] - b.value.ts) >= 1.0
    ensures forall i :: 0 <= i < |times| ==> Outcomes(cfg, b, times)[i]
    decreases times
  {
    if times != [] {
      if b.Some? {
        GainPositive(cfg, times[0] - b.value.ts);
      }
      LevelWithin(cfg, b, times[0]);
      var next := Step(cfg, b, times[0]).1;
      forall i | 0 < i < |times| - 1
        ensures (times[1..][i] - times[1..][i - 1]) as real * cfg.rate >= 1000.0
      {
        assert times[1..][i] == times[i + 1] && times[1..][i - 1] == times[i];
      }
      if |times| > 1 {
        assert (times[1] - times[0]) as real * cfg.rate >= 1000.0;
      }
      SpacedCallsAreAdmitted(cfg, Some(next), times[1..]);
    }
  }

  lemma GainPositive(cfg: Config, ms: int)
    requires Active(cfg) && Gain(cfg, ms) > 0.0
    ensures ms > 0
  {
    if ms <= 0 {
      GainMonotone(cfg, ms, 0);
      GainAdds(cfg, 0, 0);
    }
  }

  // ---- expiry of the key ----

  // A call, and whether the key has expired since the previous one.
  datatype Call = Call(now: int, expired: bool)

  function Times(calls: seq<Call>): (r: seq<int>)
    ensures |r| == |calls|
  {
    if calls == [] then [] else [calls[0].now] + Times(calls[1..])
  }

  function OutcomesWithExpiry(cfg: Config, b: Option<Bucket>, calls: seq<Call>): (r: seq<bool>)
    ensures |r| == |calls|
    decreases calls
  {
    if calls == [] then [] else
      var (ok, next) := CallStep(cfg, b, calls[0]);
      [ok] + OutcomesWithExpiry(cfg, Some(next), calls[1..])
  }

  function CallStep(cfg: Config, b: Option<Bucket>, call: Call): (bool, Bucket) {
    Step(cfg, if call.expired then None else b, call.now)
  }

  // Redis drops a key no sooner than ttl seconds after the script last wrote it.
  predicate LegalExpiry(cfg: Config, b: Option<Bucket>, calls: seq<Call>)
    decreases calls
  {
    calls != [] ==>
      (calls[0].expired && b.Some? ==> calls[0].now - b.value.ts >= cfg.ttl * 1000) &&
      LegalExpiry(cfg, Some(CallStep(cfg, b, calls[0]).1), calls[1..])
  }

  lemma {:induction false} EarnedFullIsMissing(cfg: Config, b: Option<Bucket>, calls: seq<Call>)
    requires Active(cfg) && Within(cfg, b) && cfg.rate * cfg.ttl as real >= cfg.burst as real
    requires LegalExpiry(cfg, b, calls)
    ensures OutcomesWithExpiry(cfg, b, calls) == Outcomes(cfg, b, Times(calls))
    decreases calls
  {
    if calls != [] {
      var now := calls[0].now;
      if calls[0].expired && b.Some? {
        GainMonotone(cfg, cfg.ttl * 1000, now - b.value.ts);
        FullTtlRefills(cfg);
      }
      LevelWithin(cfg, b, now);
      EarnedFullIsMissing(cfg, Some(Step(cfg, b, now).1), calls[1..]);
      assert Times(calls)[0] == now && Times(calls)[1..] == Times(calls[1..]);
    }
  }

  lemma FullTtlRefills(cfg: Config)
    ensures Gain(cfg, cfg.ttl * 1000) == cfg.rate * cfg.ttl as real
  {
    assert (cfg.ttl * 1000) as real / 1000.0 == cfg.ttl as real;
  }

  // n calls at the same reading.
  function Volley(now: int, n: nat): (r: seq<int>)
    ensures |r| == n && forall i :: 0 <= i < n ==> r[i] == now
  {
    seq(n, _ => now)
  }

  lemma {:induction false} VolleyDrains(cfg: Config, tokens: real, now: int, n: nat)
    requires n as real <= tokens <= cfg.burst as real
    ensures forall i :: 0 <= i < n ==> Outcomes(cfg, Some(Bucket(tokens, now)), Volley(now, n))[i]
    ensures After(cfg, Some(Bucket(tokens, now)), Volley(now, n)) == Some(Bucket(tokens - n as real, now))
    decreases n
  {
    if n > 0 {
      GainAdds(cfg, 0, 0);
      assert Volley(now, n)[1..] == Volley(now, n - 1);
      VolleyDrains(cfg, tokens - 1.0, now, n - 1);
    }
  }

  // Calls at the given times with no expiry.
  function Plain(times: seq<int>): (r: seq<Call>)
    ensures |r| == |times|
  {
    if times == [] then [] else [Call(times[0], false)] + Plain(times[1..])
  }

  lemma {:induction false} PlainTimes(xs: seq<int>, rest: seq<Call>)
    ensures Times(Plain(xs) + rest) == xs + Times(rest)
  {
    if xs == [] {
      assert Plain(xs) + rest == rest;
    } else {
      PlainTimes(xs[1..], rest);
      FirstOf(Call(xs[0], false), Plain(xs[1..]), rest);
      FirstOf(xs[0], xs[1..], Times(rest));
      assert xs == [xs[0]] + xs[1..];
    }
  }

  lemma {:induction false} PlainPrefix(cfg: Config, b: Option<Bucket>, xs: seq<int>, rest: seq<Call>)
    ensures OutcomesWithExpiry(cfg, b, Plain(xs) + rest)
         == Outcomes(cfg, b, xs) + OutcomesWithExpiry(cfg, After(cfg, b, xs), rest)
    ensures LegalExpiry(cfg, b, Plain(xs) + rest) == LegalExpiry(cfg, After(cfg, b, xs), rest)
    decreases xs
  {
    var calls := Plain(xs) + rest;
    if xs == [] {
      assert calls == rest;
    } else {
      var (ok, next) := Step(cfg, b, xs[0]);
      assert calls[0] == Call(xs[0], false);
      assert calls[1..] == Plain(xs[1..]) + rest;
      PlainPrefix(cfg, Some(next), xs[1..], rest);
      assert OutcomesWithExpiry(cfg, b, calls) == [ok] + OutcomesWithExpiry(cfg, Some(next), calls[1..]);
    }
  }

  // Drain the bucket at time 0, let the key expire, and call burst times more.
  function DrainAndReturn(cfg: Config): seq<Call>
    requires Active(cfg)
  {
    Plain(Volley(0, cfg.burst)) + ([Call(cfg.ttl * 1000, true)] + Plain(Volley(cfg.ttl * 1000, cfg.burst - 1)))
  }

  lemma FreshVolley(cfg: Config, now: int)
    requires Active(cfg)
    ensures forall i :: 0 <= i < cfg.burst ==> Outcomes(cfg, None, Volley(now, cfg.burst))[i]
    ensures After(cfg, None, Volley(now, cfg.burst)) == Some(Bucket(0.0, now))
  {
    FullLooksMissing(cfg, Volley(now, cfg.burst));
    VolleyDrains(cfg, cfg.burst as real, now, cfg.burst);
    GainAdds(cfg, 0, 0);
    assert Step(cfg, None, now) == Step(cfg, Some(Bucket(cfg.burst as real, now)), now);
  }

  lemma {:induction false} AllTrueCount(s: seq<bool>)
    requires forall i :: 0 <= i < |s| ==> s[i]
    ensures Count(s) == |s|
  {
    if s != [] {
      AllTrueCount(s[1..]);
    }
  }

  // A volley after the key expired is admitted whole; on the drained bucket it
  // finds too few tokens.
  lemma VolleysDiffer(cfg: Config, rest: seq<Call>)
    requires Active(cfg) && cfg.rate * cfg.ttl as real < cfg.burst as real
    requires rest == [Call(cfg.ttl * 1000, true)] + Plain(Volley(cfg.ttl * 1000, cfg.burst - 1))
    ensures Times(rest) == Volley(cfg.ttl * 1000, cfg.burst)
    ensures OutcomesWithExpiry(cfg, Some(Bucket(0.0, 0)), rest) != Outcomes(cfg, Some(Bucket(0.0, 0)), Times(rest))
  {
    var n, t := cfg.burst, cfg.ttl * 1000;
    var drained := Some(Bucket(0.0, 0));
    var volley := Volley(t, n);
    assert volley[1..] == Volley(t, n - 1) && rest[1..] == Plain(Volley(t, n - 1)) + [];
    PlainPrefix(cfg, Some(Step(cfg, None, t).1), Volley(t, n - 1), []);
    PlainTimes(Volley(t, n - 1), []);
    assert OutcomesWithExpiry(cfg, drained, rest) == Outcomes(cfg, None, volley);
    FreshVolley(cfg, t);
    AllTrueCount(Outcomes(cfg, None, volley));
    DrainedVolley(cfg);
  }

  lemma DrainedVolley(cfg: Config)
    requires Active(cfg) && cfg.rate * cfg.ttl as real < cfg.burst as real
    ensures Count(Outcomes(cfg, Some(Bucket(0.0, 0)), Volley(cfg.ttl * 1000, cfg.burst))) < cfg.burst
  {
    var n, drained, volley := cfg.burst, Some(Bucket(0.0, 0)), Volley(cfg.ttl * 1000, cfg.burst);
    var out := Outcomes(cfg, drained, volley);
    FullTtlRefills(cfg);
    ScriptIsAffordable(cfg, drained, volley);
    SpentBound(cfg, drained, volley, out, n);
    ForwardIsElapsed(volley);
    GainAdds(cfg, 0, 0);
    assert volley[..n] == volley && out[..n] == out;
  }

  lemma ShortTtlShows(cfg: Config)
    requires Active(cfg) && cfg.rate * cfg.ttl as real < cfg.burst as real
    ensures LegalExpiry(cfg, None, DrainAndReturn(cfg))
    ensures OutcomesWithExpiry(cfg, None, DrainAndReturn(cfg)) != Outcomes(cfg, None, Times(DrainAndReturn(cfg)))
  {
    var first, t := Volley(0, cfg.burst), cfg.ttl * 1000;
    var again := Plain(Volley(t, cfg.burst - 1));
    var rest := [Call(t, true)] + again;
    FreshVolley(cfg, 0);
    VolleysDiffer(cfg, rest);
    PlainPrefix(cfg, None, first, rest);
    PlainTimes(first, rest);
    OutcomesSplit(cfg, None, first, Times(rest));
    assert rest[1..] == again + [];
    PlainPrefix(cfg, Some(Step(cfg, None, t).1), Volley(t, cfg.burst - 1), []);
    SamePrefixDiffers(Outcomes(cfg, None, first),
                      OutcomesWithExpiry(cfg, Some(Bucket(0.0, 0)), rest),
                      Outcomes(cfg, Some(Bucket(0.0, 0)), Times(rest)));
  }

  lemma SamePrefixDiffers(p: seq<bool>, x: seq<bool>, y: seq<bool>)
    requires x != y
    ensures p + x != p + y
  {
    assert (p + x)[|p|..] == x && (p + y)[|p|..] == y;
  }

  // Expiry of the key never shows in any answer exactly when an empty bucket
  // is full again by the time its key may expire.
  lemma ExpiryIsInvisibleIff(cfg: Config)
    requires Active(cfg)
    ensures (forall calls :: LegalExpiry(cfg, None, calls) ==>
               OutcomesWithExpiry(cfg, None, calls) == Outcomes(cfg, None, Times(calls)))
       <==> cfg.rate * cfg.ttl as real >= cfg.burst as real
  {
    if cfg.rate * cfg.ttl as real >= cfg.burst as real {
      forall calls | LegalExpiry(cfg, None, calls)
        ensures OutcomesWithExpiry(cfg, None, calls) == Outcomes(cfg, None, Times(calls))
      {
        EarnedFullIsMissing(cfg, None, calls);
      }
    } else {
      ShortTtlShows(cfg);
    }
  }

  // The calls at the given times to a Redis that drops the key on time.
  function OnTime(cfg: Config, b: Option<Bucket>, times: seq<int>): (calls: seq<Call>)
    ensures |calls| == |times|
    decreases times
  {
    if times == [] then []
    else
      var call := Call(times[0], b.Some? && times[0] - b.value.ts >= cfg.ttl * 1000);
      [call] + OnTime(cfg, Some(CallStep(cfg, b, call).1), times[1..])
  }

  lemma {:induction false} OnTimeIsLegal(cfg: Config, b: Option<Bucket>, times: seq<int>)
    ensures LegalExpiry(cfg, b, OnTime(cfg, b, times)) && Times(OnTime(cfg, b, times)) == times
    decreases times
  {
    if times != [] {
      var calls := OnTime(cfg, b, times);
      OnTimeIsLegal(cfg, Some(CallStep(cfg, b, calls[0]).1), times[1..]);
    }
  }

  // A Redis that drops the key on time answers as one that never does, when the
  // lifetime refills the bucket.
  lemma OnTimeExpiryIsInvisible(cfg: Config, b: Option<Bucket>, times: seq<int>)
    requires Active(cfg) && Within(cfg, b) && cfg.rate * cfg.ttl as real >= cfg.burst as real
    ensures OutcomesWithExpiry(cfg, b, OnTime(cfg, b, times)) == Outcomes(cfg, b, times)
  {
    OnTimeIsLegal(cfg, b, times);
    EarnedFullIsMissing(cfg, b, OnTime(cfg, b, times));
  }

  // ---- one limiter over all its keys ----

  // A stored hash, and the reading at which Redis is to drop it.
  datatype Entry = Entry(bucket: Bucket, deadline: int)

  type Store = map<string, Entry>

  // A call of the limiter: for which key, and when.
  datatype Ask = Ask(key: string, now: int)

  function Found(store: Store, key: string): Option<Bucket> {
    if key in store then Some(store[key].bucket) else None
  }

  predicate Overdue(store: Store, key: string, now: int) {
    key in store && store[key].deadline <= now
  }

  // The script run on one key, whose deadline it moves.
  function ScriptOn(store: Store, key: string, cfg: Config, now: int): (bool, Store) {
    var (ok, next) := CallStep(cfg, Found(store, key), Call(now, Overdue(store, key, now)));
    (ok, store[key := Entry(next, now + cfg.ttl * 1000)])
  }

  function AllowOn(store: Store, cfg: Config, prefix: string, ask: Ask): (bool, Store) {
    if ask.key == "" || cfg.rate <= 0.0 || cfg.burst <= 0 then (true, store)
    else ScriptOn(store, FullKey(prefix, ask.key), cfg, ask.now)
  }

  function Answers(store: Store, cfg: Config, prefix: string, asks: seq<Ask>): (r: seq<bool>)
    ensures |r| == |asks|
    decreases asks
  {
    if asks == [] then []
    else
      var (ok, store') := AllowOn(store, cfg, prefix, asks[0]);
      [ok] + Answers(store', cfg, prefix, asks[1..])
  }

  // The readings of one key's calls, and the answers to them.
  function TimesOf(key: string, asks: seq<Ask>): seq<int> {
    if asks == [] then [] else (if asks[0].key == key then [asks[0].now] else []) + TimesOf(key, asks[1..])
  }

  function AnswersTo(key: string, asks: seq<Ask>, answers: seq<bool>): seq<bool>
    requires |asks| == |answers|
  {
    if asks == [] then []
    else (if asks[0].key == key then [answers[0]] else []) + AnswersTo(key, asks[1..], answers[1..])
  }

  // A key's deadline is the lifetime after the call that wrote it.
  predicate Timed(store: Store, key: string, cfg: Config) {
    key in store ==> store[key].deadline == store[key].bucket.ts + cfg.ttl * 1000
  }

  lemma AskKeepsOthers(store: Store, cfg: Config, prefix: string, ask: Ask, key: string)
    requires ask.key != key
    ensures var store', k := AllowOn(store, cfg, prefix, ask).1, FullKey(prefix, key);
      (k in store' <==> k in store) && (k in store ==> store'[k] == store[k])
  {
    FullKeyInjective(prefix, ask.key, key);
  }

  // The answers to one key are those of a bucket of its own, whatever is asked
  // for other keys in between.
  lemma {:induction false} KeyAnsweredAlone(store: Store, cfg: Config, prefix: string, asks: seq<Ask>, key: string)
    requires Active(cfg) && key != "" && Timed(store, FullKey(prefix, key), cfg)
    ensures var b, times := Found(store, FullKey(prefix, key)), TimesOf(key, asks);
      AnswersTo(key, asks, Answers(store, cfg, prefix, asks)) == OutcomesWithExpiry(cfg, b, OnTime(cfg, b, times))
    decreases asks
  {
    if asks != [] {
      var k := FullKey(prefix, key);
      var (ok, store') := AllowOn(store, cfg, prefix, asks[0]);
      if asks[0].key == key {
        KeyAnsweredAlone(store', cfg, prefix, asks[1..], key);
        var times := TimesOf(key, asks);
        assert times[0] == asks[0].now && times[1..] == TimesOf(key, asks[1..]);
        FirstCall(cfg, Found(store, k), times);
      } else {
        AskKeepsOthers(store, cfg, prefix, asks[0], key);
        KeyAnsweredAlone(store', cfg, prefix, asks[1..], key);
        var answers := Answers(store, cfg, prefix, asks);
        assert answers[1..] == Answers(store', cfg, prefix, asks[1..]);
        assert AnswersTo(key, asks, answers) == AnswersTo(key, asks[1..], answers[1..]);
        assert TimesOf(key, asks) == TimesOf(key, asks[1..]);
      }
    }
  }

  lemma FirstCall(cfg: Config, b: Option<Bucket>, times: seq<int>)
    requires times != []
    ensures var call := Call(times[0], b.Some? && times[0] - b.value.ts >= cfg.ttl * 1000);
      var (ok, next) := CallStep(cfg, b, call);
      OutcomesWithExpiry(cfg, b, OnTime(cfg, b, times))
        == [ok] + OutcomesWithExpiry(cfg, Some(next), OnTime(cfg, Some(next), times[1..]))
  {
    var calls := OnTime(cfg, b, times);
    assert calls[1..] == OnTime(cfg, Some(CallStep(cfg, b, calls[0]).1), times[1..]);
  }

  // Starting from an empty Redis, every key is answered as if it were alone and
  // its hash never expired, when the lifetime refills the bucket.
  lemma KeysAreIndependent(cfg: Config, prefix: string, asks: seq<Ask>, key: string)
    requires Active(cfg) && key != "" && cfg.rate * cfg.ttl as real >= cfg.burst as real
    ensures AnswersTo(key, asks, Answers(map[], cfg, prefix, asks)) == Outcomes(cfg, None, TimesOf(key, asks))
  {
    KeyAnsweredAlone(map[], cfg, prefix, asks, key);
    OnTimeExpiryIsInvisible(cfg, None, TimesOf(key, asks));
  }

  // A call without a key, or to a limiter that is switched off, is admitted.
  lemma {:induction false} UnlimitedAlwaysAdmits(store: Store, cfg: Config, prefix: string, asks: seq<Ask>, i: nat)
    requires i < |asks| && (asks[i].key == "" || cfg.rate <= 0.0 || cfg.burst <= 0)
    ensures Answers(store, cfg, prefix, asks)[i]
    decreases asks
  {
    var store' := AllowOn(store, cfg, prefix, asks[0]).1;
    if i > 0 {
      UnlimitedAlwaysAdmits(store', cfg, prefix, asks[1..], i - 1);
    }
  }

  // The gateway's three rate limiters share one Redis. Their keys are apart but
  // for one case: the HTTP limiter asked for a key that begins with "ip:".
  lemma RateKeysMeetIff(root: string, http: string, ip: string, tcp: string)
    ensures FullKey(root + ":http:rl", http) == FullKey(root + ":http:rl:ip", ip) <==> http == "ip:" + ip
    ensures FullKey(root + ":http:rl", http) != FullKey(root + ":tcp:rl", tcp)
    ensures FullKey(root + ":http:rl:ip", ip) != FullKey(root + ":tcp:rl", tcp)
  {
    var n := |root| + 1;
    var a, b := FullKey(root + ":http:rl", http), FullKey(root + ":http:rl:ip", ip);
    assert a[n] == ":http:rl"[1] == 'h' && b[n] == ":http:rl:ip"[1] == 'h';
    assert FullKey(root + ":tcp:rl", tcp)[n] == ":tcp:rl"[1] == 't';
    assert ":http:rl:ip" == ":http:rl" + ":" + "ip";
    assert b == FullKey(root + ":http:rl", "ip:" + ip);
    FullKeyInjective(root + ":http:rl", http, "ip:" + ip);
  }

  // ---- the limiter ----

  // The part of Redis the rate limiters use.
  class Redis {
    var entries: Store

    constructor ()
      ensures entries == map[]
    {
      entries := map[];
    }

    // Redis drops a key whose lifetime is over when it is asked for it.
    method Expire(key: string, now: int)
      modifies this
      ensures !Overdue(entries, key, now)
      ensures Found(entries, key) == if old(Overdue(entries, key, now)) then None else old(Found(entries, key))
      ensures forall other :: other != key ==> (other in entries <==> other in old(entries))
      ensures forall other :: other != key && other in entries ==> entries[other] == old(entries)[other]
    {
      if key in entries && entries[key].deadline <= now {
        entries := entries - {key};
      }
    }

    // The script. TIME answers in seconds and microseconds.
    method RunScript(key: string, cfg: Config, seconds: int, micros: nat) returns (allowed: int)
      modifies this
      ensures allowed == 0 || allowed == 1
      ensures (allowed == 1, entries) == ScriptOn(old(entries), key, cfg, seconds * 1000 + micros / 1000)
    {
      var nowMs := seconds * 1000 + micros / 1000;
      Expire(key, nowMs);
      ghost var found := Found(entries, key);
      var tokens, ts := cfg.burst as real, nowMs;
      if key in entries {
        tokens, ts := entries[key].bucket.tokens, entries[key].bucket.ts;
      }
      var delta := Max0(nowMs - ts) as real / 1000.0;
      tokens := MinReal(cfg.burst as real, tokens + delta * cfg.rate);
      assert tokens == Refill(cfg, found, nowMs);
      allowed := 0;
      if tokens >= 1.0 {
        tokens := tokens - 1.0;
        allowed := 1;
      }
      entries := entries[key := Entry(Bucket(tokens, nowMs), nowMs + cfg.ttl * 1000)];
      assert (allowed == 1, entries[key].bucket) == Step(cfg, found, nowMs);
      SameButFor(old(entries), entries, key);
    }
  }

  lemma SameButFor(a: Store, b: Store, key: string)
    requires key in b && forall other :: other != key ==> (other in a <==> other in b)
    requires forall other :: other != key && other in a ==> a[other] == b[other]
    ensures b == a[key := b[key]]
  {
  }

  class RateLimiter {
    const client: Redis
    const cfg: Config
    const prefix: string
    const failClosed: bool

    constructor (client: Redis, rate: real, burst: int, prefix: string, failClosed: bool)
      ensures this.client == client && this.prefix == prefix && this.failClosed == failClosed
      ensures cfg == Config(rate, burst, 600)
    {
      this.client := client;
      this.cfg := Config(rate, burst, 600);
      this.prefix := prefix;
      this.failClosed := failClosed;
    }

    // One Ask of the limiter, as KeyAnsweredAlone takes it.
    method Allow(key: string, seconds: int, micros: nat, reply: Reply) returns (ok: bool)
      modifies client
      ensures key == "" || cfg.rate <= 0.0 || cfg.burst <= 0 ==> ok && client.entries == old(client.entries)
      ensures reply == LostBeforeRun ==> client.entries == old(client.entries)
      ensures key != "" && cfg.rate > 0.0 && cfg.burst > 0 && reply != Answered ==> ok == !failClosed
      ensures
        var (admitted, entries) := AllowOn(old(client.entries), cfg, prefix, Ask(key, seconds * 1000 + micros / 1000));
        (reply != LostBeforeRun ==> client.entries == entries) && (reply == Answered ==> ok == admitted)
    {
      if key == "" || cfg.rate <= 0.0 || cfg.burst <= 0 {
        return true;
      }
      if reply == LostBeforeRun {
        return !failClosed;
      }
      var redisKey := FullKey(prefix, key);
      var res := client.RunScript(redisKey, cfg, seconds, micros);
      if reply == LostAfterRun {
        return !failClosed;
      }
      return res == 1;
    }
  }
}
