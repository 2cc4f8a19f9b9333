// The contestant portal's challenge timers: a map from challenges to browser
// timeouts beside a list of timers kept in storage, in one tab whose storage
// works. Callbacks run one at a time, in any order the browser likes; a stop
// request ends in a cleanup that may come arbitrarily late.
module TimerService {
  // expireTime and all clock readings are in milliseconds.
  datatype Timer = Timer(challengeId: int, challengeName: string, expireTime: int, requireDeploy: bool)

  // live: the timeouts the browser has yet to fire, with the timer each one
  // will stop. stopping: challenges whose stop request has not returned.
  // now: the latest clock reading.
  datatype State = State(
    timers: map<int, nat>, stored: seq<Timer>,
    live: map<nat, Timer>, nextId: nat, stopping: multiset<int>, now: int)

  function IndexOf(stored: seq<Timer>, id: int): (i: int)
    ensures -1 <= i < |stored|
    ensures i >= 0 ==> stored[i].challengeId == id && forall j :: 0 <= j < i ==> stored[j].challengeId != id
    ensures i < 0 ==> forall j :: 0 <= j < |stored| ==> stored[j].challengeId != id
  {
    if stored == [] then -1
    else if stored[0].challengeId == id then 0
    else
      var i := IndexOf(stored[1..], id);
      assert forall j :: 0 < j < |stored| ==> stored[j] == stored[1..][j - 1];
      if i < 0 then -1 else i + 1
  }

  function Store(stored: seq<Timer>, t: Timer): seq<Timer> {
    var i := IndexOf(stored, t.challengeId);
    if i >= 0 then stored[i := t] else stored + [t]
  }

  function Without(stored: seq<Timer>, id: int): seq<Timer> {
    if stored == [] then []
    else
      var last := stored[|stored| - 1];
      var kept := Without(stored[..|stored| - 1], id);
      if last.challengeId != id then kept + [last] else kept
  }

  function After(stored: seq<Timer>, now: int): seq<Timer> {
    if stored == [] then []
    else
      var last := stored[|stored| - 1];
      var kept := After(stored[..|stored| - 1], now);
      if last.expireTime > now then kept + [last] else kept
  }

  // The stop requests a check at the given time makes.
  function Due(stored: seq<Timer>, now: int): multiset<int> {
    if stored == [] then multiset{}
    else
      var last := stored[|stored| - 1];
      var due := Due(stored[..|stored| - 1], now);
      if last.expireTime <= now then due + multiset{last.challengeId} else due
  }

  function Cleared(s: State, id: int): map<nat, Timer> {
    if id in s.timers then s.live - {s.timers[id]} else s.live
  }

  function Schedule(s: State, t: Timer, now: int): State {
    if t.expireTime - now <= 0 then s.(stopping := s.stopping + multiset{t.challengeId}, now := now)
    else s.(live := Cleared(s, t.challengeId)[s.nextId := t],
            timers := s.timers[t.challengeId := s.nextId], nextId := s.nextId + 1, now := now)
  }

  function Stop(s: State, id: int): State {
    s.(live := Cleared(s, id), timers := s.timers - {id}, stored := Without(s.stored, id))
  }

  // Two readings: one for the expiry, a later one for the delay.
  datatype Event =
    | Start(challengeId: int, challengeName: string, timeRemaining: int, requireDeploy: bool, now1: int, now2: int)
    | UserStop(challengeId: int)
    | Fire(timeout: nat, now: int)
    | Check(now: int)
    | FinishStop(challengeId: int)

  // The timer a start stores.
  function Started(e: Event): Timer
    requires e.Start?
  {
    Timer(e.challengeId, e.challengeName, e.now1 + e.timeRemaining * 1000, e.requireDeploy)
  }

  // The clock does not step back, and a timeout does not fire early.
  predicate Enabled(s: State, e: Event) {
    match e
    case Start(_, _, _, _, now1, now2) => s.now <= now1 <= now2
    case UserStop(_) => true
    case Fire(timeout, now) => timeout in s.live && s.now <= now && s.live[timeout].expireTime <= now
    case Check(now) => s.now <= now
    case FinishStop(id) => id in s.stopping
  }

  function Next(s: State, e: Event): State
    requires Enabled(s, e)
  {
    match e
    case Start(_, _, _, _, _, now2) => Schedule(s.(stored := Store(s.stored, Started(e))), Started(e), now2)
    case UserStop(id) => Stop(s, id)
    case Fire(timeout, now) =>
      s.(live := s.live - {timeout}, stopping := s.stopping + multiset{s.live[timeout].challengeId}, now := now)
    case Check(now) => s.(stopping := s.stopping + Due(s.stored, now), now := now)
    case FinishStop(id) => Stop(s.(stopping := s.stopping - multiset{id}), id)
  }

  predicate Legal(s: State, events: seq<Event>)
    decreases events
  {
    events != [] ==> Enabled(s, events[0]) && Legal(Next(s, events[0]), events[1..])
  }

  function Run(s: State, events: seq<Event>): State
    requires Legal(s, events)
    decreases events
  {
    if events == [] then s else Run(Next(s, events[0]), events[1..])
  }

  // ---- start-up ----

  // Schedule the timers one after the other, each with its own clock reading.
  function ScheduleAll(s: State, ts: seq<Timer>, readings: seq<int>): State
    requires |ts| == |readings|
    decreases ts
  {
    if ts == [] then s else ScheduleAll(Schedule(s, ts[0], readings[0]), ts[1..], readings[1..])
  }

  predicate Rising(from: int, readings: seq<int>)
    decreases readings
  {
    readings != [] ==> from <= readings[0] && Rising(readings[0], readings[1..])
  }

  function Initialize(stored: seq<Timer>, now: int, readings: seq<int>): State
    requires |readings| == |After(stored, now)|
  {
    var active := After(stored, now);
    ScheduleAll(State(map[], active, map[], 0, multiset{}, now), active, readings)
  }

  // ---- invariant ----

  predicate UniqueIds(stored: seq<Timer>) {
    forall i, j :: 0 <= i < j < |stored| ==> stored[i].challengeId != stored[j].challengeId
  }

  // A live timeout is the one its challenge has in the map, so no challenge has
  // two; and no two challenges share one.
  predicate Tracked(s: State) {
    (forall id :: id in s.timers ==> s.timers[id] < s.nextId) &&
    (forall id, id' :: id in s.timers && id' in s.timers && s.timers[id] == s.timers[id'] ==> id == id') &&
    (forall k :: k in s.live ==>
      k < s.nextId && s.live[k].challengeId in s.timers && s.timers[s.live[k].challengeId] == k)
  }

  // t is due, or a live timeout of its challenge will fire when it is.
  predicate Watched(s: State, t: Timer) {
    t.expireTime <= s.now ||
    (t.challengeId in s.timers && s.timers[t.challengeId] in s.live && s.live[s.timers[t.challengeId]] == t)
  }

  predicate Inv(s: State) {
    UniqueIds(s.stored) && Tracked(s) && forall i :: 0 <= i < |s.stored| ==> Watched(s, s.stored[i])
  }

  lemma {:induction false} WithoutMembers(stored: seq<Timer>, id: int)
    requires UniqueIds(stored)
    ensures UniqueIds(Without(stored, id))
    ensures forall t: Timer :: t in Without(stored, id) <==> t in stored && t.challengeId != id
    decreases stored
  {
    if stored != [] {
      var n := |stored| - 1;
      WithoutMembers(stored[..n], id);
      var init := Without(stored[..n], id);
      assert forall t: Timer :: t in stored <==> t in stored[..n] || t == stored[n];
      forall i | 0 <= i < |init|
        ensures init[i].challengeId != stored[n].challengeId
      {
        assert init[i] in init;
      }
    }
  }

  lemma {:induction false} AfterMembers(stored: seq<Timer>, now: int)
    requires UniqueIds(stored)
    ensures UniqueIds(After(stored, now))
    ensures forall t: Timer :: t in After(stored, now) <==> t in stored && t.expireTime > now
    decreases stored
  {
    if stored != [] {
      var n := |stored| - 1;
      AfterMembers(stored[..n], now);
      var init := After(stored[..n], now);
      assert forall t: Timer :: t in stored <==> t in stored[..n] || t == stored[n];
      forall i | 0 <= i < |init|
        ensures init[i].challengeId != stored[n].challengeId
      {
        assert init[i] in init;
      }
    }
  }

  lemma ScheduleKeepsTracked(s: State, t: Timer, now: int)
    requires Tracked(s)
    ensures Tracked(Schedule(s, t, now))
  {
  }

  lemma ScheduleDisturbsNoOther(s: State, t: Timer, now: int, u: Timer)
    requires Tracked(s) && s.now <= now && u.challengeId != t.challengeId && Watched(s, u)
    ensures Watched(Schedule(s, t, now), u)
  {
  }

  // Scheduling watches its timer and disturbs no other challenge.
  lemma ScheduleWatches(s: State, t: Timer, now: int)
    requires Tracked(s) && s.now <= now
    ensures var s' := Schedule(s, t, now);
      Tracked(s') && Watched(s', t) && s'.stored == s.stored && s'.now == now &&
      forall u: Timer :: u.challengeId != t.challengeId && Watched(s, u) ==> Watched(s', u)
  {
    ScheduleKeepsTracked(s, t, now);
    forall u: Timer | u.challengeId != t.challengeId && Watched(s, u)
      ensures Watched(Schedule(s, t, now), u)
    {
      ScheduleDisturbsNoOther(s, t, now, u);
    }
  }

  lemma StoreKeepsUnique(stored: seq<Timer>, t: Timer)
    requires UniqueIds(stored)
    ensures UniqueIds(Store(stored, t))
    ensures forall i :: 0 <= i < |Store(stored, t)| && Store(stored, t)[i] != t ==>
      i < |stored| && Store(stored, t)[i] == stored[i] && stored[i].challengeId != t.challengeId
  {
  }

  lemma StartKeepsInv(s: State, e: Event)
    requires Inv(s) && e.Start? && Enabled(s, e)
    ensures Inv(Next(s, e))
  {
    var t := Started(e);
    var s1 := s.(stored := Store(s.stored, t));
    var s' := Next(s, e);
    StoreKeepsUnique(s.stored, t);
    assert Tracked(s1);
    ScheduleWatches(s1, t, e.now2);
    assert s' == Schedule(s1, t, e.now2);
    forall i | 0 <= i < |s1.stored|
      ensures Watched(s', s1.stored[i])
    {
      if s1.stored[i] != t {
        assert Watched(s, s.stored[i]);
        assert Watched(s1, s1.stored[i]);
      }
    }
  }

  // A start stores the challenge's timer, to run out so many seconds after the
  // first reading.
  lemma StartStores(s: State, e: Event)
    requires Inv(s) && e.Start? && Enabled(s, e)
    ensures var t := Timer(e.challengeId, e.challengeName, e.now1 + 1000 * e.timeRemaining, e.requireDeploy);
      Started(e) == t && t in Next(s, e).stored && Watched(Next(s, e), t)
    ensures var s' := Next(s, e); Inv(s') && Started(e) in s'.stored && s'.now == e.now2
    ensures Started(e).expireTime > e.now2 ==> Next(s, e).stopping == s.stopping
  {
    StartKeepsInv(s, e);
    var stored' := Store(s.stored, Started(e));
    var i := IndexOf(s.stored, e.challengeId);
    var k := if i >= 0 then i else |s.stored|;
    assert stored'[k] == Started(e) && Watched(Next(s, e), Next(s, e).stored[k]);
  }

  lemma StopKeepsInv(s: State, id: int)
    requires Inv(s)
    ensures Inv(Stop(s, id))
  {
    WithoutMembers(s.stored, id);
    var s' := Stop(s, id);
    forall i | 0 <= i < |s'.stored|
      ensures Watched(s', s'.stored[i])
    {
      assert s'.stored[i] in s'.stored;
      var j :| 0 <= j < |s.stored| && s.stored[j] == s'.stored[i];
      assert Watched(s, s.stored[j]);
    }
  }

  lemma StepKeepsInv(s: State, e: Event)
    requires Inv(s) && Enabled(s, e)
    ensures Inv(Next(s, e))
  {
    match e
    case Start(_, _, _, _, _, _) => StartKeepsInv(s, e);
    case UserStop(id) => StopKeepsInv(s, id);
    case FinishStop(id) =>
      assert Inv(s.(stopping := s.stopping - multiset{id}));
      StopKeepsInv(s.(stopping := s.stopping - multiset{id}), id);
    case Check(now) =>
    case Fire(timeout, now) =>
      var s' := Next(s, e);
      forall i | 0 <= i < |s.stored|
        ensures Watched(s', s.stored[i])
      {
        assert Watched(s, s.stored[i]);
      }
  }

  lemma {:induction false} RunKeepsInv(s: State, events: seq<Event>)
    requires Inv(s) && Legal(s, events)
    ensures Inv(Run(s, events))
    decreases events
  {
    if events != [] {
      StepKeepsInv(s, events[0]);
      RunKeepsInv(Next(s, events[0]), events[1..]);
    }
  }

  // Each scheduled timer is watched from its turn on.
  lemma {:induction false} ScheduleAllWatches(s: State, ts: seq<Timer>, readings: seq<int>)
    requires |ts| == |readings| && Tracked(s) && UniqueIds(ts) && Rising(s.now, readings)
    ensures var s' := ScheduleAll(s, ts, readings);
      Tracked(s') && s'.stored == s.stored &&
      (forall i :: 0 <= i < |ts| ==> Watched(s', ts[i])) &&
      (forall u: Timer ::
        Watched(s, u) && (forall i :: 0 <= i < |ts| ==> ts[i].challengeId != u.challengeId) ==> Watched(s', u))
    decreases ts
  {
    if ts != [] {
      ScheduleWatches(s, ts[0], readings[0]);
      assert forall i :: 0 < i < |ts| ==> ts[i] == ts[1..][i - 1];
      ScheduleAllWatches(Schedule(s, ts[0], readings[0]), ts[1..], readings[1..]);
    }
  }

  lemma StartUpInv(stored: seq<Timer>, now: int, readings: seq<int>)
    requires UniqueIds(stored) && |readings| == |After(stored, now)| && Rising(now, readings)
    ensures Inv(Initialize(stored, now, readings))
  {
    AfterMembers(stored, now);
    var active := After(stored, now);
    ScheduleAllWatches(State(map[], active, map[], 0, multiset{}, now), active, readings);
  }

  // Whatever the storage held at start-up and in every interleaving since: one
  // stored timer per challenge, at most one live timeout per challenge and that
  // one in the map, and every stored timer due or watched.
  lemma MapAndListAgree(stored: seq<Timer>, now: int, readings: seq<int>, events: seq<Event>)
    requires UniqueIds(stored) && |readings| == |After(stored, now)| && Rising(now, readings)
    requires Legal(Initialize(stored, now, readings), events)
    ensures var s := Run(Initialize(stored, now, readings), events);
      UniqueIds(s.stored) &&
      (forall k :: k in s.live ==> s.live[k].challengeId in s.timers && s.timers[s.live[k].challengeId] == k) &&
      (forall k, k' :: k in s.live && k' in s.live && s.live[k].challengeId == s.live[k'].challengeId ==> k == k') &&
      (forall t: Timer :: t in s.stored ==> Watched(s, t))
  {
    StartUpInv(stored, now, readings);
    RunKeepsInv(Initialize(stored, now, readings), events);
  }

  // After a stop nothing of the challenge is left.
  lemma StopForgets(s: State, id: int)
    requires Inv(s)
    ensures var s' := Stop(s, id);
      id !in s'.timers && (forall k :: k in s'.live ==> s'.live[k].challengeId != id) &&
      (forall t: Timer :: t in s'.stored <==> t in s.stored && t.challengeId != id)
  {
    WithoutMembers(s.stored, id);
  }

  // ---- what happens to one stored timer ----

  predicate Stops(e: Event, id: int) {
    (e.UserStop? || e.FinishStop?) && e.challengeId == id
  }

  predicate StopsIn(events: seq<Event>, id: int) {
    exists i :: 0 <= i < |events| && Stops(events[i], id)
  }

  predicate StartsIn(events: seq<Event>, id: int) {
    exists i :: 0 <= i < |events| && events[i].Start? && events[i].challengeId == id
  }

  lemma StepKeepsOthers(s: State, e: Event, t: Timer)
    requires Inv(s) && Enabled(s, e)
    requires !(e.Start? && e.challengeId == t.challengeId)
    ensures t in Next(s, e).stored <==> t in s.stored && !Stops(e, t.challengeId)
  {
    match e
    case Start(_, _, _, _, _, _) =>
      var stored' := Next(s, e).stored;
      if t in s.stored {
        var i :| 0 <= i < |s.stored| && s.stored[i] == t;
        assert stored'[i] == t;
      }
      if t in stored' {
        var i :| 0 <= i < |stored'| && stored'[i] == t;
        assert i < |s.stored| && s.stored[i] == t;
      }
    case UserStop(id) => WithoutMembers(s.stored, id);
    case FinishStop(id) => WithoutMembers(s.stored, id);
    case Check(_) =>
    case Fire(_, _) =>
  }

  // A timer that is not started again stays stored exactly until a stop of its
  // challenge, the cleanup of an older request included: restarting while that
  // request is under way does not protect the new timer.
  lemma {:induction false} StoredUntilStopped(s: State, events: seq<Event>, t: Timer)
    requires Inv(s) && Legal(s, events) && !StartsIn(events, t.challengeId)
    ensures t in Run(s, events).stored <==> t in s.stored && !StopsIn(events, t.challengeId)
    decreases events
  {
    if events != [] {
      var rest := events[1..];
      assert forall i :: 0 <= i < |rest| ==> rest[i] == events[i + 1];
      StepKeepsOthers(s, events[0], t);
      StepKeepsInv(s, events[0]);
      StoredUntilStopped(Next(s, events[0]), rest, t);
      assert StopsIn(events, t.challengeId) <==> Stops(events[0], t.challengeId) || StopsIn(rest, t.challengeId);
    }
  }

  // ---- restarting a challenge ----

  predicate UserStopsIn(events: seq<Event>, id: int) {
    exists i :: 0 <= i < |events| && events[i] == UserStop(id)
  }

  // After these events t is not due, and nobody has started or stopped its
  // challenge meanwhile.
  predicate LeavesAlone(s: State, events: seq<Event>, t: Timer) {
    Legal(s, events) && !StartsIn(events, t.challengeId) && !UserStopsIn(events, t.challengeId) &&
    Run(s, events).now < t.expireTime
  }

  // t is stored and not due, and no request to stop its challenge is under way.
  predicate Safe(s: State, t: Timer) {
    Inv(s) && t in s.stored && t.challengeId !in s.stopping && s.now < t.expireTime
  }

  lemma ClockRises(s: State, e: Event)
    requires Enabled(s, e)
    ensures s.now <= Next(s, e).now
  {
  }

  lemma {:induction false} ClockRisesInRun(s: State, events: seq<Event>)
    requires Legal(s, events)
    ensures s.now <= Run(s, events).now
    decreases events
  {
    if events != [] {
      ClockRises(s, events[0]);
      ClockRisesInRun(Next(s, events[0]), events[1..]);
    }
  }

  // Only the timer itself running out asks for a stop.
  lemma NoRequestBeforeDue(s: State, e: Event, t: Timer)
    requires Safe(s, t) && Enabled(s, e) && Next(s, e).now < t.expireTime
    requires !(e.Start? && e.challengeId == t.challengeId)
    ensures t.challengeId !in Next(s, e).stopping
  {
    var i :| 0 <= i < |s.stored| && s.stored[i] == t;
    match e
    case Check(now) =>
      DueMembers(s.stored, now);
    case Fire(timeout, now) =>
      assert Watched(s, s.stored[i]);
    case Start(_, _, _, _, _, _) =>
    case UserStop(_) =>
    case FinishStop(_) =>
  }

  lemma {:induction false} SafeTimerSurvives(s: State, events: seq<Event>, t: Timer)
    requires Safe(s, t) && LeavesAlone(s, events, t)
    ensures t in Run(s, events).stored
    decreases events
  {
    if events != [] {
      var e, rest := events[0], events[1..];
      var s' := Next(s, e);
      assert forall i :: 0 <= i < |rest| ==> rest[i] == events[i + 1];
      ClockRisesInRun(s', rest);
      NoRequestBeforeDue(s, e, t);
      StepKeepsOthers(s, e, t);
      StepKeepsInv(s, e);
      SafeTimerSurvives(s', rest, t);
    }
  }

  // A started timer is kept for as long as it is not due and nobody starts or
  // stops its challenge again, exactly when no request to stop the challenge was
  // under way at the start (or it was due at once): the cleanup of an older
  // request forgets the new timer.
  lemma RestartSurvivesIff(s: State, e: Event)
    requires Inv(s) && e.Start? && Enabled(s, e)
    ensures (forall events :: LeavesAlone(Next(s, e), events, Started(e)) ==>
        Started(e) in Run(Next(s, e), events).stored)
      <==> e.challengeId !in s.stopping || Started(e).expireTime <= e.now2
  {
    var s', t := Next(s, e), Started(e);
    StartStores(s, e);
    if t.expireTime <= e.now2 {
      forall events
        ensures !LeavesAlone(s', events, t)
      {
        if Legal(s', events) {
          ClockRisesInRun(s', events);
        }
      }
    } else if e.challengeId !in s.stopping {
      forall events | LeavesAlone(s', events, t)
        ensures t in Run(s', events).stored
      {
        SafeTimerSurvives(s', events, t);
      }
    } else {
      CleanupForgets(s', t);
    }
  }

  // The run that forgets it is the single step of that cleanup.
  lemma CleanupForgets(s: State, t: Timer)
    requires Inv(s) && t in s.stored && t.challengeId in s.stopping && s.now < t.expireTime
    ensures LeavesAlone(s, [FinishStop(t.challengeId)], t)
    ensures t !in Run(s, [FinishStop(t.challengeId)]).stored
  {
    var e := FinishStop(t.challengeId);
    var s' := Next(s, e);
    assert [e][1..] == [] && Legal(s', []);
    assert Run(s, [e]) == Run(s', []) == s';
    StepKeepsOthers(s, e, t);
  }

  lemma {:induction false} DueMembers(stored: seq<Timer>, now: int)
    ensures forall id: int :: id in Due(stored, now) <==>
      exists i :: 0 <= i < |stored| && stored[i].challengeId == id && stored[i].expireTime <= now
    decreases stored
  {
    if stored != [] {
      DueMembers(stored[..|stored| - 1], now);
    }
  }

  // A new stop request is for a challenge whose timer has run out: one in the
  // list, or the one the timeout was set for.
  lemma OnlyDueAreStopped(s: State, e: Event, id: int)
    requires Inv(s) && Enabled(s, e) && id in Next(s, e).stopping - s.stopping
    ensures exists t: Timer ::
      (t in Next(s, e).stored || t in s.live.Values) && t.challengeId == id && t.expireTime <= Next(s, e).now
  {
    match e
    case Start(_, _, _, _, _, _) => StartStores(s, e);
    case Check(now) =>
      DueMembers(s.stored, now);
      var i :| 0 <= i < |s.stored| && s.stored[i].challengeId == id && s.stored[i].expireTime <= now;
      assert s.stored[i] in s.stored;
    case Fire(timeout, now) =>
      assert s.live[timeout] in s.live.Values;
  }

  // ---- requests to stop ----

  // A timeout that fires asks for one stop, that of its timer's challenge, and
  // is gone; map and list stay.
  lemma FireRequestsStop(s: State, e: Event)
    requires e.Fire? && Enabled(s, e)
    ensures var s' := Next(s, e);
      s'.stopping == s.stopping + multiset{s.live[e.timeout].challengeId} && e.timeout !in s'.live &&
      s'.timers == s.timers && s'.stored == s.stored && s'.now == e.now
  {
  }

  // So does scheduling a timer that is already due; its timeout, if any, stays.
  lemma DueIsStoppedAtOnce(s: State, t: Timer, now: int)
    requires t.expireTime <= now
    ensures Schedule(s, t, now) == s.(stopping := s.stopping + multiset{t.challengeId}, now := now)
  {
  }

  function Cleanups(events: seq<Event>, id: int): nat {
    if events == [] then 0 else (if events[0] == FinishStop(id) then 1 else 0) + Cleanups(events[1..], id)
  }

  // Start-up keeps exactly the timers that have not run out.
  lemma {:induction false} StartUpKeeps(stored: seq<Timer>, now: int, readings: seq<int>, t: Timer)
    requires UniqueIds(stored) && |readings| == |After(stored, now)|
    ensures t in Initialize(stored, now, readings).stored <==> t in stored && t.expireTime > now
  {
    AfterMembers(stored, now);
    var active := After(stored, now);
    ScheduleAllStores(State(map[], active, map[], 0, multiset{}, now), active, readings);
  }

  lemma {:induction false} ScheduleAllStores(s: State, ts: seq<Timer>, readings: seq<int>)
    requires |ts| == |readings|
    ensures ScheduleAll(s, ts, readings).stored == s.stored
    decreases ts
  {
    if ts != [] {
      ScheduleAllStores(Schedule(s, ts[0], readings[0]), ts[1..], readings[1..]);
    }
  }

  predicate OverdueIn(stored: seq<Timer>, now: int, id: int) {
    exists i :: 0 <= i < |stored| && stored[i].challengeId == id && stored[i].expireTime <= now
  }

  lemma {:induction false} DueOnce(stored: seq<Timer>, now: int, id: int)
    requires UniqueIds(stored)
    ensures Due(stored, now)[id] == if OverdueIn(stored, now, id) then 1 else 0
    decreases stored
  {
    if stored != [] {
      var n := |stored| - 1;
      DueOnce(stored[..n], now, id);
      if OverdueIn(stored[..n], now, id) {
        var i :| 0 <= i < n && stored[..n][i].challengeId == id && stored[..n][i].expireTime <= now;
        assert stored[i].challengeId == id && stored[n].challengeId != id;
      }
      assert OverdueIn(stored, now, id) <==>
        OverdueIn(stored[..n], now, id) || (stored[n].challengeId == id && stored[n].expireTime <= now);
    }
  }

  // A check asks for one stop of every challenge with an overdue entry and for
  // no other.
  lemma CheckRequestsOnce(s: State, now: int, id: int)
    requires Inv(s) && Enabled(s, Check(now))
    ensures Next(s, Check(now)).stopping[id] == s.stopping[id] + if OverdueIn(s.stored, now, id) then 1 else 0
  {
    DueOnce(s.stored, now, id);
  }

  // The stops of a challenge that one event asks for.
  function Asked(s: State, e: Event, id: int): nat
    requires Enabled(s, e)
  {
    match e
    case Fire(timeout, _) => if s.live[timeout].challengeId == id then 1 else 0
    case Check(now) => if OverdueIn(s.stored, now, id) then 1 else 0
    case Start(_, _, _, _, _, now2) => if Started(e).challengeId == id && Started(e).expireTime <= now2 then 1 else 0
    case _ => 0
  }

  function AskedIn(s: State, events: seq<Event>, id: int): nat
    requires Legal(s, events)
    decreases events
  {
    if events == [] then 0 else Asked(s, events[0], id) + AskedIn(Next(s, events[0]), events[1..], id)
  }

  lemma StepBalances(s: State, e: Event, id: int)
    requires Inv(s) && Enabled(s, e)
    ensures Next(s, e).stopping[id] + (if e == FinishStop(id) then 1 else 0) == s.stopping[id] + Asked(s, e, id)
  {
    if e.Check? {
      CheckRequestsOnce(s, e.now, id);
    }
  }

  // In every run the requests under way are those there were and those asked
  // for since, less one for each cleanup.
  lemma {:induction false} RequestsBalance(s: State, events: seq<Event>, id: int)
    requires Inv(s) && Legal(s, events)
    ensures Run(s, events).stopping[id] + Cleanups(events, id) == s.stopping[id] + AskedIn(s, events, id)
    decreases events
  {
    if events != [] {
      StepBalances(s, events[0], id);
      StepKeepsInv(s, events[0]);
      RequestsBalance(Next(s, events[0]), events[1..], id);
    }
  }

  // From the firing of a timeout on, its challenge has a request under way until
  // a request of the challenge is cleaned up.
  lemma FiredUntilCleanup(s: State, e: Event, events: seq<Event>)
    requires Inv(s) && e.Fire? && Enabled(s, e) && Legal(Next(s, e), events)
    requires Cleanups(events, s.live[e.timeout].challengeId) == 0
    ensures s.live[e.timeout].challengeId in Run(Next(s, e), events).stopping
  {
    StepKeepsInv(s, e);
    RequestsBalance(Next(s, e), events, s.live[e.timeout].challengeId);
  }

  // A check leaves no overdue timer without a request to stop it.
  lemma CheckFindsOverdue(s: State, now: int, t: Timer)
    requires Enabled(s, Check(now)) && t in s.stored && t.expireTime <= now
    ensures t.challengeId in Next(s, Check(now)).stopping
  {
    DueMembers(s.stored, now);
  }

  lemma DueSnoc(stored: seq<Timer>, i: nat, now: int)
    requires i < |stored|
    ensures Due(stored[..i + 1], now) ==
      Due(stored[..i], now) + if stored[i].expireTime <= now then multiset{stored[i].challengeId} else multiset{}
  {
    assert stored[..i + 1][..i] == stored[..i];
  }

  lemma ScheduleReadsClock(s: State, earlier: int, t: Timer, now: int)
    ensures Schedule(s.(now := earlier), t, now) == Schedule(s, t, now)
  {
  }

  lemma SomeMember(ids: set<int>)
    ensures ids == {} || exists id :: id in ids
  {
    if forall id :: id !in ids {
      assert ids == {};
    }
  }

  // ---- the service: every method is one Next, so RunKeepsInv covers its runs ----

  class ChallengeTimerService {
    var timers: map<int, nat>
    var stored: seq<Timer>
    var live: map<nat, Timer>
    var nextId: nat
    var stopping: multiset<int>
    var now: int

    ghost function S(): State
      reads this
    {
      State(timers, stored, live, nextId, stopping, now)
    }

    constructor (kept: seq<Timer>, startedAt: int, readings: seq<int>)
      requires |readings| == |After(kept, startedAt)|
      ensures S() == Initialize(kept, startedAt, readings)
      ensures UniqueIds(kept) && Rising(startedAt, readings) ==> Inv(S())
    {
      timers, live, nextId, stopping := map[], map[], 0, multiset{};
      stored, now := kept, startedAt;
      new;
      var active := After(stored, now);
      stored := active;
      ghost var first := S();
      for i := 0 to |active|
        invariant i == 0 ==> S() == first
        invariant ScheduleAll(S(), active[i..], readings[i..]) == ScheduleAll(first, active, readings)
      {
        assert active[i..][1..] == active[i + 1..] && readings[i..][1..] == readings[i + 1..];
        ScheduleAutoStop(active[i], readings[i]);
      }
      if UniqueIds(kept) && Rising(startedAt, readings) {
        StartUpInv(kept, startedAt, readings);
      }
    }

    method StartTimer(challengeId: int, challengeName: string, timeRemaining: int, requireDeploy: bool,
                      now1: int, now2: int)
      requires now <= now1 <= now2
      modifies this
      ensures S() == Next(old(S()), Start(challengeId, challengeName, timeRemaining, requireDeploy, now1, now2))
      ensures Timer(challengeId, challengeName, now1 + 1000 * timeRemaining, requireDeploy) in stored
    {
      now := now1;
      var timerData := Timer(challengeId, challengeName, now1 + timeRemaining * 1000, requireDeploy);
      var existingIndex := IndexOf(stored, challengeId);
      if existingIndex >= 0 {
        stored := stored[existingIndex := timerData];
      } else {
        stored := stored + [timerData];
      }
      ghost var listed := old(S()).(stored := Store(old(S()).stored, timerData));
      assert S() == listed.(now := now1);
      ScheduleReadsClock(listed, now1, timerData, now2);
      assert stored[if existingIndex >= 0 then existingIndex else |old(stored)|] == timerData;
      ScheduleAutoStop(timerData, now2);
    }

    method ScheduleAutoStop(timerData: Timer, reading: int)
      modifies this
      ensures S() == Schedule(old(S()), timerData, reading)
      ensures timerData.expireTime <= reading ==> stopping == old(stopping) + multiset{timerData.challengeId}
    {
      now := reading;
      var timeUntilExpire := timerData.expireTime - now;
      if timeUntilExpire <= 0 {
        AutoStopChallenge(timerData);
        return;
      }
      if timerData.challengeId in timers {
        ClearTimeout(timers[timerData.challengeId]);
      }
      live := live[nextId := timerData];
      timers := timers[timerData.challengeId := nextId];
      nextId := nextId + 1;
    }

    // Sends the stop request; its cleanup is StopRequestReturned.
    method AutoStopChallenge(timerData: Timer)
      modifies this`stopping
      ensures stopping == old(stopping) + multiset{timerData.challengeId}
    {
      stopping := stopping + multiset{timerData.challengeId};
    }

    method ClearTimeout(timeout: nat)
      modifies this`live
      ensures live == old(live) - {timeout}
    {
      live := live - {timeout};
    }

    method TimeoutFires(timeout: nat, reading: int)
      requires Enabled(S(), Fire(timeout, reading))
      modifies this
      ensures S() == Next(old(S()), Fire(timeout, reading))
      ensures stopping == old(stopping) + multiset{old(live)[timeout].challengeId} && timeout !in live
    {
      now := reading;
      var timerData := live[timeout];
      live := live - {timeout};
      AutoStopChallenge(timerData);
    }

    // The finally block of a stop request, whatever the request's outcome.
    method StopRequestReturned(challengeId: int)
      requires challengeId in stopping
      modifies this
      ensures S() == Next(old(S()), FinishStop(challengeId))
    {
      stopping := stopping - multiset{challengeId};
      StopTimer(challengeId);
    }

    method StopTimer(challengeId: int)
      modifies this
      ensures S() == Stop(old(S()), challengeId)
    {
      ghost var before := S();
      if challengeId in timers {
        ClearTimeout(timers[challengeId]);
        timers := timers - {challengeId};
      }
      assert timers == before.timers - {challengeId};
      stored := Without(stored, challengeId);
    }

    // One tick of the global check.
    method GlobalCheck(reading: int)
      requires now <= reading
      modifies this
      ensures S() == Next(old(S()), Check(reading))
    {
      now := reading;
      StopOverdue(stored);
    }

    method StopOverdue(activeTimers: seq<Timer>)
      modifies this`stopping
      ensures stopping == old(stopping) + Due(activeTimers, now)
    {
      for i := 0 to |activeTimers|
        invariant stopping == old(stopping) + Due(activeTimers[..i], now)
      {
        DueSnoc(activeTimers, i, now);
        if activeTimers[i].expireTime <= now {
          AutoStopChallenge(activeTimers[i]);
        }
      }
      assert activeTimers[..|activeTimers|] == activeTimers;
    }

    // No timeout survives, so later stop requests come only from requests
    // already under way returning.
    method Destroy()
      requires Tracked(S())
      modifies this
      ensures S() == old(S()).(timers := map[], live := map[])
    {
      var todo: set<int> := timers.Keys;
      while todo != {}
        invariant S() == old(S()).(live := live)
        invariant forall k :: k in live ==> k in old(live) && live[k].challengeId in todo
        invariant forall k :: k in live ==> live[k] == old(live)[k]
        decreases todo
      {
        SomeMember(todo);
        var id :| id in todo;
        if id in timers {
          ClearTimeout(timers[id]);
        }
        todo := todo - {id};
      }
      timers := map[];
    }
  }
}
