// How far a Redis connection counter may drift from the number of connections
// open under it when its key expires and calls to Redis are lost.
module ConnDrift {
  import opened Wrappers
  import opened ConnLimiter

  datatype Event = Open(reply: Reply) | Close(reply: Reply) | Expire

  // One key's counter, the connections open under it, and what went wrong so
  // far: expiries, connections let in without an answer, slots taken for a
  // connection that was turned away, and releases that never ran.
  datatype Drift = Drift(counter: int, open: nat, expiries: nat, failOpens: nat, strays: nat, unreleased: nat)

  const KEY := "k"

  function Stored(counter: int): Counters {
    if counter == 0 then map[] else map[KEY := counter]
  }

  function Next(max: int, failClosed: bool, s: Drift, e: Event): Drift
    requires e.Close? ==> s.open > 0
  {
    match e
    case Expire => s.(counter := 0, expiries := s.expiries + 1)
    case Open(Answered) =>
      var (ok, c) := AcquireScript(Stored(s.counter), KEY, max);
      s.(counter := Value(c, KEY), open := if ok then s.open + 1 else s.open)
    case Open(LostBeforeRun) =>
      if failClosed then s else s.(open := s.open + 1, failOpens := s.failOpens + 1)
    case Open(LostAfterRun) =>
      var (ok, c) := AcquireScript(Stored(s.counter), KEY, max);
      if failClosed then s.(counter := Value(c, KEY), strays := if ok then s.strays + 1 else s.strays)
      else s.(counter := Value(c, KEY), open := s.open + 1, failOpens := s.failOpens + 1)
    case Close(LostBeforeRun) => s.(open := s.open - 1, unreleased := s.unreleased + 1)
    case Close(_) => s.(counter := Value(ReleaseScript(Stored(s.counter), KEY), KEY), open := s.open - 1)
  }

  // Only open connections are released.
  predicate Matched(max: int, failClosed: bool, s: Drift, events: seq<Event>)
    decreases events
  {
    events != [] ==>
      (events[0].Close? ==> s.open > 0) && Matched(max, failClosed, Next(max, failClosed, s, events[0]), events[1..])
  }

  function Run(max: int, failClosed: bool, s: Drift, events: seq<Event>): Drift
    requires Matched(max, failClosed, s, events)
    decreases events
  {
    if events == [] then s else Run(max, failClosed, Next(max, failClosed, s, events[0]), events[1..])
  }

  const START := Drift(0, 0, 0, 0, 0, 0)

  predicate Bounded(max: int, s: Drift) {
    0 <= s.counter <= max &&
    s.counter <= s.open + s.strays + s.unreleased &&
    s.open <= s.counter + max * s.expiries + s.failOpens
  }

  lemma {:induction false} DriftStaysBounded(max: int, failClosed: bool, s: Drift, events: seq<Event>)
    requires max > 0 && Bounded(max, s) && Matched(max, failClosed, s, events)
    ensures Bounded(max, Run(max, failClosed, s, events))
    decreases events
  {
    if events != [] {
      var s' := Next(max, failClosed, s, events[0]);
      assert max * (s.expiries + 1) == max * s.expiries + max;
      assert Bounded(max, s');
      DriftStaysBounded(max, failClosed, s', events[1..]);
    }
  }

  // In every matched run the counter never passes max and overstates the open
  // connections only by slots whose release or refusal was lost, so a refusal
  // proves that many are open; and the open connections stay under max for
  // each lifetime of the key plus one per unanswered admission.
  lemma DriftBound(max: int, failClosed: bool, events: seq<Event>)
    requires max > 0 && Matched(max, failClosed, START, events)
    ensures var s := Run(max, failClosed, START, events);
      0 <= s.counter <= max &&
      s.counter <= s.open + s.strays + s.unreleased &&
      s.open <= max * (s.expiries + 1) + s.failOpens &&
      (!AcquireScript(Stored(s.counter), KEY, max).0 ==> s.open + s.strays + s.unreleased >= max)
  {
    DriftStaysBounded(max, failClosed, START, events);
    var s := Run(max, failClosed, START, events);
    assert max * (s.expiries + 1) == max * s.expiries + max;
  }

  // ---- the bound is reached ----

  function Opens(n: nat): seq<Event> {
    if n == 0 then [] else [Open(Answered)] + Opens(n - 1)
  }

  // Fill the limiter, then let the key expire and fill it again, n times.
  function Refills(max: nat, n: nat): seq<Event> {
    if n == 0 then Opens(max) else Refills(max, n - 1) + ([Expire] + Opens(max))
  }

  lemma {:induction false} RunSplit(max: int, failClosed: bool, s: Drift, xs: seq<Event>, ys: seq<Event>)
    requires Matched(max, failClosed, s, xs)
    requires Matched(max, failClosed, Run(max, failClosed, s, xs), ys)
    ensures Matched(max, failClosed, s, xs + ys)
    ensures Run(max, failClosed, s, xs + ys) == Run(max, failClosed, Run(max, failClosed, s, xs), ys)
    decreases xs
  {
    if xs == [] {
      assert xs + ys == ys;
    } else {
      assert (xs + ys)[0] == xs[0] && (xs + ys)[1..] == xs[1..] + ys;
      RunSplit(max, failClosed, Next(max, failClosed, s, xs[0]), xs[1..], ys);
    }
  }

  lemma {:induction false} OpensFill(max: nat, failClosed: bool, s: Drift, n: nat)
    requires 0 <= s.counter && s.counter + n <= max
    ensures Matched(max, failClosed, s, Opens(n))
    ensures Run(max, failClosed, s, Opens(n)) == s.(counter := s.counter + n, open := s.open + n)
    decreases n
  {
    if n > 0 {
      OpensFill(max, failClosed, Next(max, failClosed, s, Open(Answered)), n - 1);
    }
  }

  // Without any lost call, n expiries can leave max * (n + 1) connections open.
  lemma {:induction false} DriftBoundIsTight(max: nat, failClosed: bool, n: nat)
    requires max > 0
    ensures Matched(max, failClosed, START, Refills(max, n))
    ensures Run(max, failClosed, START, Refills(max, n)) == Drift(max, max * (n + 1), n, 0, 0, 0)
    decreases n
  {
    if n == 0 {
      OpensFill(max, failClosed, START, max);
    } else {
      DriftBoundIsTight(max, failClosed, n - 1);
      var s := Drift(max, max * n, n - 1, 0, 0, 0);
      var more := [Expire] + Opens(max);
      assert more[0] == Expire && more[1..] == Opens(max);
      OpensFill(max, failClosed, Next(max, failClosed, s, Expire), max);
      RunSplit(max, failClosed, START, Refills(max, n - 1), more);
      assert max * (n + 1) == max * n + max;
    }
  }

  // ---- which events make which bound fail ----

  predicate Over(kinds: set<Event>, events: seq<Event>) {
    forall i :: 0 <= i < |events| ==> events[i] in kinds
  }

  // A run of events of these kinds only, from nothing.
  predicate RunsOver(max: int, failClosed: bool, kinds: set<Event>, events: seq<Event>) {
    Over(kinds, events) && Matched(max, failClosed, START, events)
  }

  predicate CounterHonest(max: int, failClosed: bool, events: seq<Event>)
    requires Matched(max, failClosed, START, events)
  {
    var s := Run(max, failClosed, START, events);
    s.counter <= s.open
  }

  predicate LimitHeld(max: int, failClosed: bool, events: seq<Event>)
    requires Matched(max, failClosed, START, events)
  {
    Run(max, failClosed, START, events).open <= max
  }

  // A counted slot can be left behind: taken for a connection that was turned
  // away, or not given back by one that was counted.
  predicate LeavesSlots(failClosed: bool, kinds: set<Event>) {
    (failClosed && Open(LostAfterRun) in kinds) ||
    (Close(LostBeforeRun) in kinds && (Open(Answered) in kinds || Open(LostAfterRun) in kinds))
  }

  // A connection can be let in uncounted, or be forgotten.
  predicate LosesCount(failClosed: bool, kinds: set<Event>) {
    (!failClosed && (Open(LostBeforeRun) in kinds || Open(LostAfterRun) in kinds)) ||
    (Expire in kinds && Open(Answered) in kinds)
  }

  lemma {:induction false} HonestKept(max: int, failClosed: bool, kinds: set<Event>, s: Drift, events: seq<Event>)
    requires max > 0 && !LeavesSlots(failClosed, kinds) && Over(kinds, events) && Matched(max, failClosed, s, events)
    requires 0 <= s.counter <= max && s.counter <= s.open
    requires Close(LostBeforeRun) in kinds ==> s.counter == 0
    ensures var s' := Run(max, failClosed, s, events); s'.counter <= s'.open
    decreases events
  {
    if events != [] {
      assert events[0] in kinds;
      HonestKept(max, failClosed, kinds, Next(max, failClosed, s, events[0]), events[1..]);
    }
  }

  lemma {:induction false} LimitKept(max: int, failClosed: bool, kinds: set<Event>, s: Drift, events: seq<Event>)
    requires max > 0 && !LosesCount(failClosed, kinds) && Over(kinds, events) && Matched(max, failClosed, s, events)
    requires 0 <= s.counter <= max
    requires if Open(Answered) in kinds then s.open <= s.counter else s.open == 0
    ensures Run(max, failClosed, s, events).open <= max
    decreases events
  {
    if events != [] {
      assert events[0] in kinds;
      LimitKept(max, failClosed, kinds, Next(max, failClosed, s, events[0]), events[1..]);
    }
  }

  // Open n connections and lose every release.
  function Unreleased(open: Event, n: nat): seq<Event> {
    if n == 0 then [] else [open, Close(LostBeforeRun)] + Unreleased(open, n - 1)
  }

  function Repeat(e: Event, n: nat): seq<Event> {
    if n == 0 then [] else [e] + Repeat(e, n - 1)
  }

  // With every release lost, the counter is full and nothing is open.
  lemma {:induction false} LostReleasesFill(max: nat, failClosed: bool, s: Drift, n: nat)
    requires max > 0 && 0 <= s.counter && s.counter + n <= max
    ensures var events := Unreleased(Open(Answered), n);
      Matched(max, failClosed, s, events) &&
      Run(max, failClosed, s, events) == s.(counter := s.counter + n, unreleased := s.unreleased + n)
    decreases n
  {
    if n > 0 {
      var s1 := Next(max, failClosed, s, Open(Answered));
      var s2 := Next(max, failClosed, s1, Close(LostBeforeRun));
      var rest := Unreleased(Open(Answered), n - 1);
      LostReleasesFill(max, failClosed, s2, n - 1);
      assert ([Open(Answered), Close(LostBeforeRun)] + rest)[1..] == [Close(LostBeforeRun)] + rest;
      assert ([Close(LostBeforeRun)] + rest)[1..] == rest;
    }
  }

  // So it is when every admission's answer is lost and that means refusal.
  lemma {:induction false} LostAnswersFill(max: nat, s: Drift, n: nat)
    requires max > 0 && 0 <= s.counter && s.counter + n <= max
    ensures var events := Repeat(Open(LostAfterRun), n);
      Matched(max, true, s, events) &&
      Run(max, true, s, events) == s.(counter := s.counter + n, strays := s.strays + n)
    decreases n
  {
    if n > 0 {
      LostAnswersFill(max, Next(max, true, s, Open(LostAfterRun)), n - 1);
      assert ([Open(LostAfterRun)] + Repeat(Open(LostAfterRun), n - 1))[1..] == Repeat(Open(LostAfterRun), n - 1);
    }
  }

  lemma {:induction false} RepeatIsOver(kinds: set<Event>, e: Event, n: nat)
    requires e in kinds
    ensures Over(kinds, Repeat(e, n))
    decreases n
  {
    if n > 0 {
      RepeatIsOver(kinds, e, n - 1);
    }
  }

  // One slot left behind is enough.
  lemma SlotLeft(max: nat, failClosed: bool, kinds: set<Event>) returns (events: seq<Event>)
    requires max > 0 && LeavesSlots(failClosed, kinds)
    ensures RunsOver(max, failClosed, kinds, events) && !CounterHonest(max, failClosed, events)
  {
    if failClosed && Open(LostAfterRun) in kinds {
      events := [Open(LostAfterRun)];
      var s := Next(max, failClosed, START, Open(LostAfterRun));
      assert events[1..] == [] && s.counter == 1 && s.open == 0;
      assert Run(max, failClosed, s, events[1..]) == s;
    } else {
      var open := if Open(Answered) in kinds then Open(Answered) else Open(LostAfterRun);
      events := [open, Close(LostBeforeRun)];
      assert events[1..] == [Close(LostBeforeRun)] && events[1..][1..] == [];
      var s := Next(max, failClosed, START, open);
      assert s.counter == 1 && s.open == 1;
      var s' := Next(max, failClosed, s, Close(LostBeforeRun));
      assert Run(max, failClosed, s, [Close(LostBeforeRun)]) == Run(max, failClosed, s', []) == s';
    }
  }

  // In every run over the given kinds of events the counter is at most the
  // number of open connections, exactly when these cannot leave a slot behind.
  lemma CounterHonestIff(max: nat, failClosed: bool, kinds: set<Event>)
    requires max > 0
    ensures (forall events :: RunsOver(max, failClosed, kinds, events) ==> CounterHonest(max, failClosed, events))
      <==> !LeavesSlots(failClosed, kinds)
  {
    if LeavesSlots(failClosed, kinds) {
      var events := SlotLeft(max, failClosed, kinds);
    } else {
      forall events | RunsOver(max, failClosed, kinds, events)
        ensures CounterHonest(max, failClosed, events)
      {
        HonestKept(max, failClosed, kinds, START, events);
      }
    }
  }

  lemma {:induction false} UncountedPile(max: nat, s: Drift, open: Event, n: nat)
    requires max > 0 && 0 <= s.counter <= max && open in {Open(LostBeforeRun), Open(LostAfterRun)}
    ensures Matched(max, false, s, Repeat(open, n))
    ensures Run(max, false, s, Repeat(open, n)).open == s.open + n
    decreases n
  {
    if n > 0 {
      UncountedPile(max, Next(max, false, s, open), open, n - 1);
      assert ([open] + Repeat(open, n - 1))[1..] == Repeat(open, n - 1);
    }
  }

  lemma {:induction false} RefillsAreOver(max: nat, kinds: set<Event>, n: nat)
    requires Open(Answered) in kinds && (n > 0 ==> Expire in kinds)
    ensures Over(kinds, Refills(max, n))
    decreases n
  {
    OpensAreOver(kinds, max);
    if n > 0 {
      RefillsAreOver(max, kinds, n - 1);
    }
  }

  lemma {:induction false} OpensAreOver(kinds: set<Event>, n: nat)
    requires Open(Answered) in kinds
    ensures Over(kinds, Opens(n))
    decreases n
  {
    if n > 0 {
      OpensAreOver(kinds, n - 1);
    }
  }

  lemma LimitPassed(max: nat, failClosed: bool, kinds: set<Event>) returns (events: seq<Event>)
    requires max > 0 && LosesCount(failClosed, kinds)
    ensures RunsOver(max, failClosed, kinds, events) && !LimitHeld(max, failClosed, events)
  {
    if Expire in kinds && Open(Answered) in kinds {
      events := Refills(max, 1);
      RefillsAreOver(max, kinds, 1);
      DriftBoundIsTight(max, failClosed, 1);
      assert max * (1 + 1) > max;
    } else {
      var open := if Open(LostBeforeRun) in kinds then Open(LostBeforeRun) else Open(LostAfterRun);
      events := Repeat(open, max + 1);
      RepeatIsOver(kinds, open, max + 1);
      UncountedPile(max, START, open, max + 1);
    }
  }

  // In every run over the given kinds of events no more than max connections
  // are open, exactly when no connection is let in uncounted or forgotten.
  lemma LimitHeldIff(max: nat, failClosed: bool, kinds: set<Event>)
    requires max > 0
    ensures (forall events :: RunsOver(max, failClosed, kinds, events) ==> LimitHeld(max, failClosed, events))
      <==> !LosesCount(failClosed, kinds)
  {
    if LosesCount(failClosed, kinds) {
      var events := LimitPassed(max, failClosed, kinds);
    } else {
      forall events | RunsOver(max, failClosed, kinds, events)
        ensures LimitHeld(max, failClosed, events)
      {
        LimitKept(max, failClosed, kinds, START, events);
      }
    }
  }
}
