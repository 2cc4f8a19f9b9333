// Pod events: dispatched to one of N queues by the hash of the pod's UID,
// handled by one worker per queue, each handler a series of separate calls to
// Redis, Kubernetes and the database that interleave with all other workers.
module PodSharding {
  import opened Wrappers

  // ---- what a pod's events can touch ----

  datatype Status = Pending | Running | Deleting | Stopped | Failed

  datatype Cache = Cache(userId: int, podId: string, url: string, timeFinished: int, status: Status, ready: bool)

  // A deployment in Redis: its cache entry and the expiry score of its
  // reservation in the team's sorted set.
  datatype Deploy = Deploy(cache: Option<Cache>, score: Option<int>)

  datatype Notice = Notice(userId: int, status: Status, url: string)

  // A namespace: tracking rows not yet stopped, deletions requested, and the
  // status changes announced for it.
  datatype Space = Space(openRuns: nat, deletions: nat, notices: seq<Notice>)

  datatype Key = Key(contest: int, challenge: int, team: int)

  // Where a pod lives: the namespace, whether its name parses, and the cache key
  // the name gives if it does.
  datatype Site = Site(key: Key, ns: string, parses: bool)

  datatype World = World(deploys: map<Key, Deploy>, spaces: map<string, Space>)

  datatype Local = Local(deploy: Deploy, space: Space)

  function DeployAt(w: World, key: Key): Deploy {
    if key in w.deploys then w.deploys[key] else Deploy(None, None)
  }

  function SpaceAt(w: World, ns: string): Space {
    if ns in w.spaces then w.spaces[ns] else Space(0, 0, [])
  }

  function At(w: World, site: Site): Local {
    Local(DeployAt(w, site.key), SpaceAt(w, site.ns))
  }

  function Put(w: World, site: Site, l: Local): World {
    World(w.deploys[site.key := l.deploy], w.spaces[site.ns := l.space])
  }

  // ---- events ----

  datatype EventType = Added | Modified | Deleted | Bookmark | Error

  // A watch event with what the pod shows and what the outside answers while
  // it is handled: the clock, whether the namespace can be deleted, the
  // challenge's row with its time limit in minutes, and the new access token.
  datatype Event = Event(
    kind: EventType, uid: Option<string>, site: Site,
    terminating: bool, stuck: bool, ready: bool,
    now: int, canDelete: bool, challenge: Option<Option<int>>, token: string)

  datatype Action =
    | RemoveDeploy
    | UpdateDeploy(cache: Cache, ttl: int, now: int)
    | DeleteNamespace
    | Notify(notice: Notice)
    | StopTracking
    | StartTracking

  // One remote call. An update of a team's deployment is refused when its
  // reservation is gone; previews (team not positive) have none.
  function Do(a: Action, team: int, l: Local): Local {
    match a
    case RemoveDeploy => l.(deploy := Deploy(None, None))
    case UpdateDeploy(cache, ttl, now) =>
      if team <= 0 then l.(deploy := l.deploy.(cache := Some(cache)))
      else if l.deploy.score.None? then l
      else l.(deploy := Deploy(Some(cache), Some(now + ttl)))
    case DeleteNamespace => l.(space := l.space.(deletions := l.space.deletions + 1))
    case Notify(notice) => l.(space := l.space.(notices := l.space.notices + [notice]))
    case StopTracking => l.(space := l.space.(openRuns := if l.space.openRuns == 0 then 0 else l.space.openRuns - 1))
    case StartTracking => l.(space := l.space.(openRuns := l.space.openRuns + 1))
  }

  function DoAll(plan: seq<Action>, team: int, l: Local): Local {
    if plan == [] then l else DoAll(plan[1..], team, Do(plan[0], team, l))
  }

  lemma DoOne(a: Action, team: int, l: Local)
    ensures DoAll([a], team, l) == Do(a, team, l)
  {
    assert [a][1..] == [];
  }

  lemma DoTwo(a: Action, b: Action, team: int, l: Local)
    ensures DoAll([a, b], team, l) == Do(b, team, Do(a, team, l))
  {
    assert [a, b][1..] == [b];
    DoOne(b, team, Do(a, team, l));
  }

  lemma DoThree(a: Action, b: Action, c: Action, team: int, l: Local)
    ensures DoAll([a, b, c], team, l) == Do(c, team, Do(b, team, Do(a, team, l)))
  {
    assert [a, b, c][1..] == [b, c];
    DoTwo(b, c, team, Do(a, team, l));
  }

  lemma {:induction false} DoAllConcat(p: seq<Action>, q: seq<Action>, team: int, l: Local)
    ensures DoAll(p + q, team, l) == DoAll(q, team, DoAll(p, team, l))
    decreases p
  {
    if p == [] {
      assert p + q == q;
    } else {
      assert (p + q)[0] == p[0] && (p + q)[1..] == p[1..] + q;
      DoAllConcat(p[1..], q, team, Do(p[0], team, l));
    }
  }

  // ---- the handler ----

  function Cleanup(e: Event, status: Status): seq<Action> {
    if e.canDelete then [DeleteNamespace, RemoveDeploy, Notify(Notice(0, status, ""))] else []
  }

  function Restarted(e: Event, uid: string, cache: Cache): Cache {
    if cache.podId != uid then cache.(podId := uid, ready := false) else cache
  }

  function RestartPlan(e: Event, uid: string, cache: Cache): seq<Action> {
    var ttl := cache.timeFinished - e.now;
    if cache.podId != uid && ttl > 0 then [UpdateDeploy(Restarted(e, uid, cache), ttl, e.now)] else []
  }

  function RunningPlan(e: Event, cache: Cache): seq<Action> {
    if !e.ready || cache.status == Deleting || cache.ready then []
    else match e.challenge
      case None => [Notify(Notice(cache.userId, Running, ""))]
      case Some(limit) =>
        var fresh_ := cache.timeFinished <= e.now;
        var finished := if fresh_ then e.now + 60 * (if limit.Some? then limit.value else 30) else cache.timeFinished;
        var ttl := if finished - e.now <= 0 then 60 else finished - e.now;
        (if fresh_ && e.site.key.team != -1 && e.site.key.team != -2 then [StartTracking] else []) +
        [UpdateDeploy(cache.(status := Running, url := e.token, timeFinished := finished, ready := true), ttl, e.now),
         Notify(Notice(cache.userId, Running, e.token))]
  }

  function Uid(e: Event): string {
    if e.uid.Some? then e.uid.value else ""
  }

  // The calls the handler makes for an event, once it has read the cache.
  function Plan(e: Event, cache: Option<Cache>): seq<Action> {
    if e.kind == Bookmark || e.kind == Error || !e.site.parses then []
    else if e.kind == Deleted then
      [RemoveDeploy, Notify(Notice(if cache.Some? then cache.value.userId else 0, Stopped, "")), StopTracking]
    else if cache.None? then Cleanup(e, Stopped)
    else if e.terminating then []
    else
      RestartPlan(e, Uid(e), cache.value) +
      (if e.stuck then Cleanup(e, Failed) else RunningPlan(e, Restarted(e, Uid(e), cache.value)))
  }

  function HandleLocal(l: Local, e: Event): Local {
    DoAll(Plan(e, l.deploy.cache), e.site.key.team, l)
  }

  function Handle(w: World, e: Event): World {
    Put(w, e.site, HandleLocal(At(w, e.site), e))
  }

  // One worker handling all events in order.
  function HandleAll(w: World, events: seq<Event>): World {
    if events == [] then w
    else Handle(HandleAll(w, events[..|events| - 1]), events[|events| - 1])
  }

  lemma HandleAllSnoc(w: World, events: seq<Event>, e: Event)
    ensures HandleAll(w, events + [e]) == Handle(HandleAll(w, events), e)
  {
    assert (events + [e])[..|events|] == events;
  }

  // Two worlds that no lookup can tell apart.
  ghost predicate Same(a: World, b: World) {
    (forall key :: DeployAt(a, key) == DeployAt(b, key)) && (forall ns :: SpaceAt(a, ns) == SpaceAt(b, ns))
  }

  lemma SameHandled(a: World, b: World, e: Event)
    requires Same(a, b)
    ensures Same(Handle(a, e), Handle(b, e))
  {
    assert At(a, e.site) == At(b, e.site);
    forall key
      ensures DeployAt(Handle(a, e), key) == DeployAt(Handle(b, e), key)
    {
      assert DeployAt(a, key) == DeployAt(b, key);
    }
    forall ns
      ensures SpaceAt(Handle(a, e), ns) == SpaceAt(Handle(b, e), ns)
    {
      assert SpaceAt(a, ns) == SpaceAt(b, ns);
    }
  }

  // ---- the sharded machine ----

  datatype Worker = Idle | Busy(event: Event, plan: seq<Action>)

  // begun lists the events taken from the queues, dispatched those put in.
  datatype State = State(
    queues: seq<seq<Event>>, workers: seq<Worker>, world: World, dispatched: seq<Event>, begun: seq<Event>)

  datatype Step = Dispatch(event: Event) | Begin(w: nat) | Act(w: nat) | Finish(w: nat)

  datatype Config = Config(n: nat, shard: string -> nat)

  ghost predicate Sharded(cfg: Config) {
    forall uid :: cfg.shard(uid) < cfg.n
  }

  function Shard(cfg: Config, uid: string): nat {
    cfg.shard(uid)
  }

  // The shards the informer uses: the hash of the UID, as an unsigned number,
  // modulo the number of workers.
  function ByHash(n: nat, hash: string -> nat): (cfg: Config)
    requires n > 0
    ensures Sharded(cfg) && cfg.n == n && forall uid :: Shard(cfg, uid) == hash(uid) % n
  {
    Config(n, uid => hash(uid) % n)
  }

  ghost predicate Shaped(cfg: Config, s: State) {
    Sharded(cfg) && |s.queues| == |s.workers| == cfg.n
  }

  predicate Enabled(cfg: Config, s: State, step: Step)
    requires Shaped(cfg, s)
  {
    match step
    case Dispatch(_) => true
    case Begin(w) => w < cfg.n && s.workers[w].Idle? && s.queues[w] != []
    case Act(w) => w < cfg.n && s.workers[w].Busy? && s.workers[w].plan != []
    case Finish(w) => w < cfg.n && s.workers[w].Busy? && s.workers[w].plan == []
  }

  function Next(cfg: Config, s: State, step: Step): (s': State)
    requires Shaped(cfg, s) && Enabled(cfg, s, step)
    ensures Shaped(cfg, s')
  {
    match step
    case Dispatch(e) =>
      if e.uid.None? then s else
        var i := Shard(cfg, e.uid.value);
        s.(queues := s.queues[i := s.queues[i] + [e]], dispatched := s.dispatched + [e])
    case Begin(w) =>
      var e := s.queues[w][0];
      s.(queues := s.queues[w := s.queues[w][1..]],
         workers := s.workers[w := Busy(e, Plan(e, At(s.world, e.site).deploy.cache))],
         begun := s.begun + [e])
    case Act(w) =>
      var e, plan := s.workers[w].event, s.workers[w].plan;
      s.(world := Put(s.world, e.site, Do(plan[0], e.site.key.team, At(s.world, e.site))),
         workers := s.workers[w := Busy(e, plan[1..])])
    case Finish(w) => s.(workers := s.workers[w := Idle])
  }

  function Init(cfg: Config, w0: World): State {
    State(seq(cfg.n, _ => []), seq(cfg.n, _ => Idle), w0, [], [])
  }

  predicate Legal(cfg: Config, s: State, steps: seq<Step>)
    requires Shaped(cfg, s)
    decreases steps
  {
    steps != [] ==> Enabled(cfg, s, steps[0]) && Legal(cfg, Next(cfg, s, steps[0]), steps[1..])
  }

  function Run(cfg: Config, s: State, steps: seq<Step>): (s': State)
    requires Shaped(cfg, s) && Legal(cfg, s, steps)
    ensures Shaped(cfg, s')
    decreases steps
  {
    if steps == [] then s else Run(cfg, Next(cfg, s, steps[0]), steps[1..])
  }

  // ---- order ----

  predicate OfShard(cfg: Config, w: nat, e: Event) {
    e.uid.Some? && Shard(cfg, e.uid.value) == w
  }

  // The events of one shard, in order.
  function Mine(cfg: Config, w: nat, events: seq<Event>): seq<Event> {
    if events == [] then []
    else
      var last := events[|events| - 1];
      Mine(cfg, w, events[..|events| - 1]) + if OfShard(cfg, w, last) then [last] else []
  }

  // The events of one pod, in order.
  function Of(uid: string, events: seq<Event>): seq<Event> {
    if events == [] then []
    else
      var last := events[|events| - 1];
      Of(uid, events[..|events| - 1]) + if last.uid == Some(uid) then [last] else []
  }

  lemma MineSnoc(cfg: Config, w: nat, events: seq<Event>, e: Event)
    ensures Mine(cfg, w, events + [e]) == Mine(cfg, w, events) + if OfShard(cfg, w, e) then [e] else []
  {
    assert (events + [e])[..|events|] == events;
  }

  lemma {:induction false} OfConcat(uid: string, xs: seq<Event>, ys: seq<Event>)
    ensures Of(uid, xs + ys) == Of(uid, xs) + Of(uid, ys)
    decreases ys
  {
    if ys == [] {
      assert xs + ys == xs;
    } else {
      var n := |ys| - 1;
      assert (xs + ys)[..|xs + ys| - 1] == xs + ys[..n];
      OfConcat(uid, xs, ys[..n]);
    }
  }

  lemma OfSnoc(uid: string, events: seq<Event>, e: Event)
    ensures Of(uid, events + [e]) == Of(uid, events) + if e.uid == Some(uid) then [e] else []
  {
    assert (events + [e])[..|events|] == events;
  }

  // A pod's events are all on its shard.
  lemma {:induction false} OfMine(cfg: Config, uid: string, events: seq<Event>)
    ensures Of(uid, Mine(cfg, Shard(cfg, uid), events)) == Of(uid, events)
    decreases events
  {
    if events != [] {
      var n := |events| - 1;
      OfMine(cfg, uid, events[..n]);
      var mine := Mine(cfg, Shard(cfg, uid), events[..n]);
      if OfShard(cfg, Shard(cfg, uid), events[n]) {
        OfSnoc(uid, mine, events[n]);
      } else {
        assert mine + [] == mine && Of(uid, events[..n]) + [] == Of(uid, events[..n]);
      }
    }
  }

  // Every queue and every worker has events of its own shard only.
  predicate Sorted(cfg: Config, s: State)
    requires Shaped(cfg, s)
  {
    (forall w, i :: 0 <= w < cfg.n && 0 <= i < |s.queues[w]| ==> OfShard(cfg, w, s.queues[w][i])) &&
    (forall w :: 0 <= w < cfg.n && s.workers[w].Busy? ==> OfShard(cfg, w, s.workers[w].event))
  }

  predicate InOrder(cfg: Config, s: State, w: nat)
    requires Shaped(cfg, s) && w < cfg.n
  {
    Mine(cfg, w, s.begun) + s.queues[w] == Mine(cfg, w, s.dispatched)
  }

  lemma StepKeepsSorted(cfg: Config, s: State, step: Step)
    requires Shaped(cfg, s) && Sorted(cfg, s) && Enabled(cfg, s, step)
    ensures Sorted(cfg, Next(cfg, s, step))
  {
  }

  lemma DispatchKeepsOrder(cfg: Config, s: State, e: Event, w: nat)
    requires Shaped(cfg, s) && w < cfg.n && InOrder(cfg, s, w)
    ensures InOrder(cfg, Next(cfg, s, Dispatch(e)), w)
  {
    var mine, queue := Mine(cfg, w, s.begun), s.queues[w];
    MineSnoc(cfg, w, s.dispatched, e);
    Assoc(mine, queue, if OfShard(cfg, w, e) then [e] else []);
  }

  lemma BeginKeepsOrder(cfg: Config, s: State, v: nat, w: nat)
    requires Shaped(cfg, s) && Sorted(cfg, s) && w < cfg.n && Enabled(cfg, s, Begin(v)) && InOrder(cfg, s, w)
    ensures InOrder(cfg, Next(cfg, s, Begin(v)), w)
  {
    var e, mine, queue := s.queues[v][0], Mine(cfg, w, s.begun), s.queues[w];
    MineSnoc(cfg, w, s.begun, e);
    assert OfShard(cfg, v, e);
    if v == w {
      assert queue == [e] + queue[1..];
      Assoc(mine, [e], queue[1..]);
    }
  }

  lemma StepKeepsOrder(cfg: Config, s: State, step: Step, w: nat)
    requires Shaped(cfg, s) && Sorted(cfg, s) && w < cfg.n && Enabled(cfg, s, step) && InOrder(cfg, s, w)
    ensures InOrder(cfg, Next(cfg, s, step), w)
  {
    match step
    case Dispatch(e) => DispatchKeepsOrder(cfg, s, e, w);
    case Begin(v) => BeginKeepsOrder(cfg, s, v, w);
    case Act(_) =>
    case Finish(_) =>
  }

  lemma {:induction false} RunKeepsOrder(cfg: Config, s: State, steps: seq<Step>, w: nat)
    requires Shaped(cfg, s) && Sorted(cfg, s) && w < cfg.n && InOrder(cfg, s, w) && Legal(cfg, s, steps)
    ensures Sorted(cfg, Run(cfg, s, steps)) && InOrder(cfg, Run(cfg, s, steps), w)
    decreases steps
  {
    if steps != [] {
      StepKeepsSorted(cfg, s, steps[0]);
      StepKeepsOrder(cfg, s, steps[0], w);
      RunKeepsOrder(cfg, Next(cfg, s, steps[0]), steps[1..], w);
    }
  }

  // In every interleaving each pod's events leave its queue in the order they
  // were dispatched, none lost and none twice; this needs no assumption about
  // what pods share.
  lemma PodOrderKept(cfg: Config, w0: World, steps: seq<Step>, uid: string)
    requires Sharded(cfg) && Legal(cfg, Init(cfg, w0), steps)
    ensures var s := Run(cfg, Init(cfg, w0), steps);
      Of(uid, s.begun) + Of(uid, s.queues[Shard(cfg, uid)]) == Of(uid, s.dispatched)
  {
    var s, w := Run(cfg, Init(cfg, w0), steps), Shard(cfg, uid);
    RunKeepsOrder(cfg, Init(cfg, w0), steps, w);
    OfMine(cfg, uid, s.begun);
    OfMine(cfg, uid, s.dispatched);
    OfConcat(uid, Mine(cfg, w, s.begun), s.queues[w]);
  }

  // ---- what each kind of event leaves ----

  // A bookmark, an error and a namespace whose name does not parse.
  lemma IgnoredLeaves(l: Local, e: Event)
    requires e.kind == Bookmark || e.kind == Error || !e.site.parses
    ensures HandleLocal(l, e) == l
  {
  }

  // The end of a pod: deployment and reservation gone, one open run stopped,
  // announced to the user of the entry there was.
  lemma EndedLeaves(l: Local, e: Event)
    requires e.kind == Deleted && e.site.parses
    ensures var user := if l.deploy.cache.Some? then l.deploy.cache.value.userId else 0;
      var runs := if l.space.openRuns > 0 then l.space.openRuns - 1 else 0;
      HandleLocal(l, e)
        == Local(Deploy(None, None), Space(runs, l.space.deletions, l.space.notices + [Notice(user, Stopped, "")]))
  {
    var user := if l.deploy.cache.Some? then l.deploy.cache.value.userId else 0;
    DoThree(RemoveDeploy, Notify(Notice(user, Stopped, "")), StopTracking, e.site.key.team, l);
  }

  predicate Lives(e: Event) {
    (e.kind == Added || e.kind == Modified) && e.site.parses
  }

  // What deleting the namespace, if that works, leaves.
  function NamespaceGone(l: Local, e: Event, notice: Notice): Local {
    if e.canDelete then
      Local(Deploy(None, None), Space(l.space.openRuns, l.space.deletions + 1, l.space.notices + [notice]))
    else l
  }

  // A pod without a cache entry: its namespace is deleted.
  lemma GhostLeaves(l: Local, e: Event)
    requires Lives(e) && l.deploy.cache.None?
    ensures HandleLocal(l, e) == NamespaceGone(l, e, Notice(0, Stopped, ""))
  {
    DoThree(DeleteNamespace, RemoveDeploy, Notify(Notice(0, Stopped, "")), e.site.key.team, l);
  }

  lemma TerminatingLeaves(l: Local, e: Event)
    requires Lives(e) && l.deploy.cache.Some? && e.terminating
    ensures HandleLocal(l, e) == l
  {
  }

  // The entry can be written: a team's only while it has a reservation.
  predicate Accepts(e: Event, l: Local) {
    e.site.key.team <= 0 || l.deploy.score.Some?
  }

  // Writing an entry that runs out at the given time; a preview's reservation,
  // if any, is left alone.
  function Written(l: Local, e: Event, cache: Cache, until: int): Deploy {
    if !Accepts(e, l) then l.deploy
    else Deploy(Some(cache), if e.site.key.team <= 0 then l.deploy.score else Some(until))
  }

  // A restarted pod is noted, as not ready, while its time has not run out.
  function Restarting(l: Local, e: Event): Deploy
    requires l.deploy.cache.Some?
  {
    var cache := l.deploy.cache.value;
    if cache.podId == Uid(e) || cache.timeFinished <= e.now then l.deploy
    else Written(l, e, cache.(podId := Uid(e), ready := false), cache.timeFinished)
  }

  lemma RestartWrites(l: Local, e: Event)
    requires l.deploy.cache.Some?
    ensures DoAll(RestartPlan(e, Uid(e), l.deploy.cache.value), e.site.key.team, l) == l.(deploy := Restarting(l, e))
  {
    var plan := RestartPlan(e, Uid(e), l.deploy.cache.value);
    if plan != [] {
      DoOne(plan[0], e.site.key.team, l);
    }
  }

  // A pod that cannot start: its namespace is deleted and the failure announced;
  // if that does not work, at most its restart is noted.
  lemma StuckLeaves(l: Local, e: Event)
    requires Lives(e) && l.deploy.cache.Some? && !e.terminating && e.stuck
    ensures HandleLocal(l, e) == NamespaceGone(l.(deploy := Restarting(l, e)), e, Notice(0, Failed, ""))
  {
    var team, cache, restarted := e.site.key.team, l.deploy.cache.value, l.(deploy := Restarting(l, e));
    DoAllConcat(RestartPlan(e, Uid(e), cache), Cleanup(e, Failed), team, l);
    RestartWrites(l, e);
    DoThree(DeleteNamespace, RemoveDeploy, Notify(Notice(0, Failed, "")), team, restarted);
  }

  // A pod that is not up, or whose challenge is being taken down: at most its
  // restart is noted.
  lemma NotReadyLeaves(l: Local, e: Event)
    requires Lives(e) && l.deploy.cache.Some? && !e.terminating && !e.stuck
    requires !e.ready || l.deploy.cache.value.status == Deleting
    ensures HandleLocal(l, e) == l.(deploy := Restarting(l, e))
  {
    DoAllConcat(RestartPlan(e, Uid(e), l.deploy.cache.value), [], e.site.key.team, l);
    RestartWrites(l, e);
  }

  // The pod is up.
  predicate ShowsRunning(e: Event) {
    Lives(e) && !e.terminating && !e.stuck && e.ready
  }

  // The cache entry is ready for the pod the event is about.
  predicate SettledFor(e: Event, cache: Cache) {
    cache.ready && cache.podId == Uid(e)
  }

  lemma SettledLeaves(l: Local, e: Event)
    requires ShowsRunning(e) && l.deploy.cache.Some? && SettledFor(e, l.deploy.cache.value)
    ensures HandleLocal(l, e) == l
  {
    DoAllConcat([], [], e.site.key.team, l);
  }

  // The challenge has not begun, or its time is over.
  predicate Begins(e: Event, cache: Cache) {
    cache.timeFinished <= e.now
  }

  // When a challenge that comes up will end: a running time already set stays;
  // a new one has the challenge's minutes, or 30.
  function EndTime(e: Event, cache: Cache, limit: Option<int>): int {
    if !Begins(e, cache) then cache.timeFinished
    else e.now + 60 * if limit.Some? then limit.value else 30
  }

  // A pod that comes up, of a challenge that is found: a run that begins is
  // tracked, except for previews; the entry is ready, with the address and the
  // end time, and is kept until then, a minute at least; the user is told.
  lemma UpLeaves(l: Local, e: Event, limit: Option<int>)
    requires ShowsRunning(e) && l.deploy.cache.Some? && l.deploy.cache.value.status != Deleting
    requires !SettledFor(e, l.deploy.cache.value) && e.challenge == Some(limit)
    ensures var cache := l.deploy.cache.value;
      var finished := EndTime(e, cache, limit);
      var entry := Cache(cache.userId, Uid(e), e.token, finished, Running, true);
      var tracked := Begins(e, cache) && e.site.key.team != -1 && e.site.key.team != -2;
      HandleLocal(l, e) == Local(
        Written(l, e, entry, if finished <= e.now then e.now + 60 else finished),
        Space(l.space.openRuns + if tracked then 1 else 0, l.space.deletions,
              l.space.notices + [Notice(cache.userId, Running, e.token)]))
  {
    var cache, team := l.deploy.cache.value, e.site.key.team;
    var restarted := Restarted(e, Uid(e), cache);
    var l1 := l.(deploy := Restarting(l, e));
    DoAllConcat(RestartPlan(e, Uid(e), cache), RunningPlan(e, restarted), team, l);
    RestartWrites(l, e);
    var plan := RunningPlan(e, restarted);
    if |plan| == 2 {
      assert plan == [plan[0], plan[1]];
      DoTwo(plan[0], plan[1], team, l1);
    } else {
      assert plan == [plan[0], plan[1], plan[2]];
      DoThree(plan[0], plan[1], plan[2], team, l1);
    }
  }

  // Of a challenge that is not found: the user is told without an address.
  lemma UpUnknownLeaves(l: Local, e: Event)
    requires ShowsRunning(e) && l.deploy.cache.Some? && l.deploy.cache.value.status != Deleting
    requires !SettledFor(e, l.deploy.cache.value) && e.challenge.None?
    ensures HandleLocal(l, e) == Local(Restarting(l, e),
      l.space.(notices := l.space.notices + [Notice(l.deploy.cache.value.userId, Running, "")]))
  {
    var cache, team := l.deploy.cache.value, e.site.key.team;
    var restarted := Restarted(e, Uid(e), cache);
    DoAllConcat(RestartPlan(e, Uid(e), cache), RunningPlan(e, restarted), team, l);
    RestartWrites(l, e);
    DoOne(Notify(Notice(cache.userId, Running, "")), team, l.(deploy := Restarting(l, e)));
  }

  // ---- what handling leaves ----

  // A name that does not parse makes no calls.
  lemma UnparsedIsHandled(w: World, e: Event)
    requires !e.site.parses
    ensures Same(Handle(w, e), w)
  {
  }

  lemma HandledGone(l: Local, e: Event)
    requires l.deploy.cache.None?
    ensures HandleLocal(l, e).deploy == l.deploy || HandleLocal(l, e).deploy == Deploy(None, None)
  {
    var team := e.site.key.team;
    DoThree(RemoveDeploy, Notify(Notice(0, Stopped, "")), StopTracking, team, l);
    DoThree(DeleteNamespace, RemoveDeploy, Notify(Notice(0, Stopped, "")), team, l);
  }

  // Once a deployment's cache entry is gone no later events, of whatever pods,
  // bring it back; only a deployment that starts anew writes one.
  lemma {:induction false} GoneStaysGone(w: World, events: seq<Event>, key: Key)
    requires DeployAt(w, key).cache.None?
    ensures DeployAt(HandleAll(w, events), key) in {DeployAt(w, key), Deploy(None, None)}
    decreases events
  {
    if events != [] {
      var n := |events| - 1;
      GoneStaysGone(w, events[..n], key);
      if events[n].site.key == key {
        HandledGone(At(HandleAll(w, events[..n]), events[n].site), events[n]);
      }
    }
  }

  // After the end of a pod no later events bring back entry or reservation.
  lemma DeletedIsFinal(w: World, e: Event, events: seq<Event>)
    requires e.kind == Deleted && e.site.parses
    ensures DeployAt(HandleAll(Handle(w, e), events), e.site.key) == Deploy(None, None)
  {
    var l := At(w, e.site);
    EndedLeaves(l, e);
    GoneStaysGone(Handle(w, e), events, e.site.key);
  }

  // A team's deployment that is removed stays removed in every interleaving,
  // whatever other workers still have planned for it: the reservation is looked
  // up again before an entry is written.
  lemma {:induction false} RemovedStaysRemoved(cfg: Config, s: State, steps: seq<Step>, key: Key)
    requires Shaped(cfg, s) && Legal(cfg, s, steps)
    requires key.team > 0 && DeployAt(s.world, key) == Deploy(None, None)
    ensures DeployAt(Run(cfg, s, steps).world, key) == Deploy(None, None)
    decreases steps
  {
    if steps != [] {
      RemovedStaysRemoved(cfg, Next(cfg, s, steps[0]), steps[1..], key);
    }
  }

  // ---- the order of the calls ----

  // Announcements that a deployment has ended.
  predicate TellsEnd(a: Action) {
    a.Notify? && (a.notice.status == Stopped || a.notice.status == Failed)
  }

  // In a series of calls: an end is told only after the deployment was removed,
  // a removal that is not the pod's own end comes after the namespace's, and an
  // address is told, and a run tracked, only around the write of the entry.
  predicate Ordered(e: Event, plan: seq<Action>) {
    forall i :: 0 <= i < |plan| ==>
      (TellsEnd(plan[i]) ==> RemoveDeploy in plan[..i] && RemoveDeploy !in plan[i..]) &&
      (plan[i] == RemoveDeploy && e.kind != Deleted ==> DeleteNamespace in plan[..i]) &&
      (plan[i].Notify? && plan[i].notice.url != "" ==> exists j :: 0 <= j < i && plan[j].UpdateDeploy?) &&
      (plan[i] == StartTracking ==> exists j :: i < j < |plan| && plan[j].UpdateDeploy?)
  }

  lemma EndedInOrder(e: Event, user: int)
    requires e.kind == Deleted
    ensures Ordered(e, [RemoveDeploy, Notify(Notice(user, Stopped, "")), StopTracking])
  {
    var plan := [RemoveDeploy, Notify(Notice(user, Stopped, "")), StopTracking];
    assert plan[..1] == [RemoveDeploy] && plan[1..] == [Notify(Notice(user, Stopped, "")), StopTracking];
  }

  lemma CleanupInOrder(e: Event, status: Status)
    requires e.canDelete
    ensures Cleanup(e, status) == [DeleteNamespace, RemoveDeploy, Notify(Notice(0, status, ""))]
    ensures Ordered(e, Cleanup(e, status))
  {
    var plan := Cleanup(e, status);
    assert plan[..1] == [DeleteNamespace] && plan[..2] == [DeleteNamespace, RemoveDeploy];
    assert plan[2..] == [Notify(Notice(0, status, ""))];
  }

  lemma RunningInOrder(e: Event, cache: Cache)
    ensures Ordered(e, RunningPlan(e, cache))
  {
    var plan := RunningPlan(e, cache);
    if |plan| == 2 {
      assert plan[0].UpdateDeploy?;
    } else if |plan| == 3 {
      assert plan[1].UpdateDeploy?;
    }
  }

  // A write of the entry beforehand does no harm.
  lemma WriteFirst(e: Event, write: Action, plan: seq<Action>)
    requires write.UpdateDeploy? && Ordered(e, plan)
    ensures Ordered(e, [write] + plan)
  {
    var whole := [write] + plan;
    forall i | 0 <= i < |whole|
      ensures TellsEnd(whole[i]) ==> RemoveDeploy in whole[..i] && RemoveDeploy !in whole[i..]
      ensures whole[i] == RemoveDeploy && e.kind != Deleted ==> DeleteNamespace in whole[..i]
      ensures whole[i].Notify? && whole[i].notice.url != "" ==> exists j :: 0 <= j < i && whole[j].UpdateDeploy?
      ensures whole[i] == StartTracking ==> exists j :: i < j < |whole| && whole[j].UpdateDeploy?
    {
      if i > 0 {
        assert whole[i] == plan[i - 1] && whole[..i] == [write] + plan[..i - 1] && whole[i..] == plan[i - 1..];
        assert whole[0].UpdateDeploy?;
        if plan[i - 1] == StartTracking {
          var j :| i - 1 < j < |plan| && plan[j].UpdateDeploy?;
          assert whole[j + 1].UpdateDeploy?;
        }
      }
    }
  }

  lemma CallsInOrder(e: Event, cache: Option<Cache>)
    ensures Ordered(e, Plan(e, cache))
  {
    if e.kind == Deleted && e.site.parses {
      EndedInOrder(e, if cache.Some? then cache.value.userId else 0);
    } else if e.canDelete && Lives(e) && (cache.None? || e.stuck) {
      CleanupInOrder(e, if cache.None? then Stopped else Failed);
    } else if Lives(e) && cache.Some? && !e.stuck {
      RunningInOrder(e, Restarted(e, Uid(e), cache.value));
    }
    if cache.Some? {
      var restart, rest := RestartPlan(e, Uid(e), cache.value),
        if e.stuck then Cleanup(e, Failed) else RunningPlan(e, Restarted(e, Uid(e), cache.value));
      if restart == [] {
        assert restart + rest == rest;
      } else if Ordered(e, rest) {
        assert restart == [restart[0]];
        WriteFirst(e, restart[0], rest);
      }
    }
  }

  // Workers that have passed the removal they planned find it done.
  predicate EndsAreReal(cfg: Config, s: State)
    requires Shaped(cfg, s)
  {
    forall w :: 0 <= w < cfg.n && s.workers[w].Busy? ==> EndIsReal(s.world, s.workers[w].event, s.workers[w].plan)
  }

  // An end still to be told, with no removal before it any more, is true; and
  // no removal comes after it.
  predicate EndIsReal(world: World, e: Event, plan: seq<Action>) {
    e.site.key.team > 0 ==> forall i :: 0 <= i < |plan| && TellsEnd(plan[i]) ==>
      RemoveDeploy !in plan[i..] && (RemoveDeploy in plan || DeployAt(world, e.site.key) == Deploy(None, None))
  }

  lemma CallKeepsRemoved(world: World, e: Event, a: Action, key: Key)
    requires key.team > 0 && DeployAt(world, key) == Deploy(None, None)
    ensures DeployAt(Put(world, e.site, Do(a, e.site.key.team, At(world, e.site))), key) == Deploy(None, None)
  {
  }

  lemma PlanIsReal(world: World, e: Event)
    ensures EndIsReal(world, e, Plan(e, DeployAt(world, e.site.key).cache))
  {
    var plan := Plan(e, DeployAt(world, e.site.key).cache);
    CallsInOrder(e, DeployAt(world, e.site.key).cache);
    forall i | 0 <= i < |plan| && TellsEnd(plan[i])
      ensures RemoveDeploy !in plan[i..] && RemoveDeploy in plan
    {
      assert RemoveDeploy in plan[..i];
    }
  }

  lemma CallKeepsReal(world: World, e: Event, plan: seq<Action>)
    requires EndIsReal(world, e, plan) && plan != []
    ensures EndIsReal(Put(world, e.site, Do(plan[0], e.site.key.team, At(world, e.site))), e, plan[1..])
  {
    var world' := Put(world, e.site, Do(plan[0], e.site.key.team, At(world, e.site)));
    if e.site.key.team > 0 {
      forall i | 0 <= i < |plan[1..]| && TellsEnd(plan[1..][i])
        ensures RemoveDeploy !in plan[1..][i..]
        ensures RemoveDeploy in plan[1..] || DeployAt(world', e.site.key) == Deploy(None, None)
      {
        assert TellsEnd(plan[i + 1]) && plan[1..][i..] == plan[i + 1..];
        if RemoveDeploy in plan && plan[0] != RemoveDeploy {
          assert RemoveDeploy in plan[1..];
        }
      }
    }
  }

  lemma StepKeepsEnds(cfg: Config, s: State, step: Step)
    requires Shaped(cfg, s) && EndsAreReal(cfg, s) && Enabled(cfg, s, step)
    ensures EndsAreReal(cfg, Next(cfg, s, step))
  {
    var s' := Next(cfg, s, step);
    if step.Begin? {
      PlanIsReal(s.world, s.queues[step.w][0]);
    } else if step.Act? {
      var e, plan := s.workers[step.w].event, s.workers[step.w].plan;
      CallKeepsReal(s.world, e, plan);
      forall w | 0 <= w < cfg.n && s'.workers[w].Busy?
        ensures EndIsReal(s'.world, s'.workers[w].event, s'.workers[w].plan)
      {
        if w != step.w {
          var key := s.workers[w].event.site.key;
          assert EndIsReal(s.world, s.workers[w].event, s.workers[w].plan);
          if key.team > 0 && DeployAt(s.world, key) == Deploy(None, None) {
            CallKeepsRemoved(s.world, e, plan[0], key);
          }
        }
      }
    }
  }

  lemma {:induction false} RunKeepsEnds(cfg: Config, s: State, steps: seq<Step>)
    requires Shaped(cfg, s) && EndsAreReal(cfg, s) && Legal(cfg, s, steps)
    ensures EndsAreReal(cfg, Run(cfg, s, steps))
    decreases steps
  {
    if steps != [] {
      StepKeepsEnds(cfg, s, steps[0]);
      RunKeepsEnds(cfg, Next(cfg, s, steps[0]), steps[1..]);
    }
  }

  // In every interleaving, whatever pods share: when a worker tells that a
  // team's deployment has ended, neither its entry nor its reservation is there.
  lemma EndsToldAreReal(cfg: Config, w0: World, steps: seq<Step>, w: nat)
    requires Sharded(cfg) && Legal(cfg, Init(cfg, w0), steps) && w < cfg.n
    ensures var s := Run(cfg, Init(cfg, w0), steps);
      s.workers[w].Busy? && s.workers[w].plan != [] && TellsEnd(s.workers[w].plan[0]) &&
      s.workers[w].event.site.key.team > 0 ==>
        DeployAt(s.world, s.workers[w].event.site.key) == Deploy(None, None)
  {
    var s := Run(cfg, Init(cfg, w0), steps);
    RunKeepsEnds(cfg, Init(cfg, w0), steps);
    if s.workers[w].Busy? && s.workers[w].plan != [] {
      var plan := s.workers[w].plan;
      assert EndIsReal(s.world, s.workers[w].event, plan) && plan[0..] == plan;
    }
  }

  lemma RunningHandled(l: Local, e: Event)
    requires l.deploy.cache.Some? && l.deploy.cache.value.status != Deleting && ShowsRunning(e)
    ensures var l' := HandleLocal(l, e);
      l'.deploy.cache.Some? && l'.deploy.cache.value.status != Deleting &&
      (SettledFor(e, l'.deploy.cache.value) <==>
        SettledFor(e, l.deploy.cache.value) || (e.challenge.Some? && Accepts(e, l)))
  {
    if SettledFor(e, l.deploy.cache.value) {
      SettledLeaves(l, e);
    } else if e.challenge.Some? {
      UpLeaves(l, e, e.challenge.value);
    } else {
      UpUnknownLeaves(l, e);
    }
  }

  // Hearing again of a running pod, at whatever later time and whatever the
  // outside then answers, makes no calls exactly when its entry was settled
  // before, or could be settled the first time.
  lemma RedeliveryIsQuietIff(l: Local, e: Event, again: Event)
    requires l.deploy.cache.Some? && l.deploy.cache.value.status != Deleting
    requires ShowsRunning(e) && ShowsRunning(again) && again.uid == e.uid
    ensures Plan(again, HandleLocal(l, e).deploy.cache) == [] <==>
      SettledFor(e, l.deploy.cache.value) || (e.challenge.Some? && Accepts(e, l))
  {
    RunningHandled(l, e);
  }

  // ---- the shared world ----

  // Pods on different shards share neither cache key nor namespace.
  predicate Apart(cfg: Config, home: map<string, Site>) {
    forall u, v :: u in home && v in home && !NearBy(cfg, home, u, v) ==>
      home[u].key != home[v].key && home[u].ns != home[v].ns
  }

  // One worker sees both pods, or one of them is never touched.
  predicate NearBy(cfg: Config, home: map<string, Site>, u: string, v: string)
    requires u in home && v in home
  {
    Shard(cfg, u) == Shard(cfg, v) || !home[u].parses || !home[v].parses
  }

  predicate AtHome(home: map<string, Site>, e: Event) {
    e.uid.Some? ==> e.uid.value in home && e.site == home[e.uid.value]
  }

  predicate AllAtHome(home: map<string, Site>, events: seq<Event>) {
    forall i :: 0 <= i < |events| ==> events[i].uid.Some? && AtHome(home, events[i])
  }

  predicate StepsAtHome(home: map<string, Site>, steps: seq<Step>) {
    forall i :: 0 <= i < |steps| && steps[i].Dispatch? ==> AtHome(home, steps[i].event)
  }

  predicate Touched(home: map<string, Site>, uid: string) {
    uid in home && home[uid].parses
  }

  // Two worlds in which the pods of one shard look alike.
  predicate Agree(cfg: Config, home: map<string, Site>, w: nat, a: World, b: World) {
    forall uid :: uid in home && Touched(home, uid) && Shard(cfg, uid) == w ==> At(a, home[uid]) == At(b, home[uid])
  }

  // Nothing but the pods' homes has changed.
  ghost predicate OutsideAlone(w: World, home: map<string, Site>, w0: World) {
    (forall key ::
      (forall uid :: Touched(home, uid) ==> home[uid].key != key) ==> DeployAt(w, key) == DeployAt(w0, key)) &&
    (forall ns ::
      (forall uid :: Touched(home, uid) ==> home[uid].ns != ns) ==> SpaceAt(w, ns) == SpaceAt(w0, ns))
  }

  // The world once a worker has carried out what it planned.
  function Ahead(s: State, w: nat): World
    requires w < |s.workers|
  {
    match s.workers[w]
    case Idle => s.world
    case Busy(e, plan) => Put(s.world, e.site, DoAll(plan, e.site.key.team, At(s.world, e.site)))
  }

  predicate EventsAtHome(cfg: Config, s: State, home: map<string, Site>)
    requires Shaped(cfg, s)
  {
    (forall w :: 0 <= w < cfg.n && s.workers[w].Busy? ==>
      AtHome(home, s.workers[w].event) && (s.workers[w].event.site.parses || s.workers[w].plan == [])) &&
    (forall w, i :: 0 <= w < cfg.n && 0 <= i < |s.queues[w]| ==> AtHome(home, s.queues[w][i]))
  }

  // What each shard's pods look like once its worker is done is what handling
  // the shard's begun events one by one gives.
  ghost predicate Settles(cfg: Config, s: State, home: map<string, Site>, w0: World)
    requires Shaped(cfg, s)
  {
    forall w: nat :: w < cfg.n ==> Agree(cfg, home, w, Ahead(s, w), HandleAll(w0, Mine(cfg, w, s.begun)))
  }

  ghost predicate Refines(cfg: Config, s: State, home: map<string, Site>, w0: World)
    requires Shaped(cfg, s)
  {
    Sorted(cfg, s) && EventsAtHome(cfg, s, home) && Settles(cfg, s, home, w0) && OutsideAlone(s.world, home, w0)
  }

  lemma HandleAgrees(cfg: Config, home: map<string, Site>, w: nat, a: World, b: World, e: Event)
    requires Agree(cfg, home, w, a, b) && OfShard(cfg, w, e) && AtHome(home, e)
    ensures Agree(cfg, home, w, Handle(a, e), Handle(b, e))
  {
    if e.site.parses {
      assert Touched(home, e.uid.value);
      assert At(a, e.site) == At(b, e.site);
    } else {
      UnparsedIsHandled(a, e);
      UnparsedIsHandled(b, e);
    }
    forall uid | uid in home && Touched(home, uid) && Shard(cfg, uid) == w
      ensures At(Handle(a, e), home[uid]) == At(Handle(b, e), home[uid])
    {
      assert At(a, home[uid]) == At(b, home[uid]);
    }
  }

  // A call for a pod of one shard does not show on another.
  lemma PutElsewhere(cfg: Config, home: map<string, Site>, a: World, e: Event, l: Local, w: nat)
    requires Apart(cfg, home) && e.uid.Some? && AtHome(home, e) && e.site.parses && !OfShard(cfg, w, e)
    ensures Agree(cfg, home, w, Put(a, e.site, l), a)
  {
    forall uid | uid in home && Touched(home, uid) && Shard(cfg, uid) == w
      ensures At(Put(a, e.site, l), home[uid]) == At(a, home[uid])
    {
      assert !NearBy(cfg, home, uid, e.uid.value);
    }
  }

  lemma StepKeepsHomes(cfg: Config, s: State, home: map<string, Site>, step: Step)
    requires Shaped(cfg, s) && EventsAtHome(cfg, s, home) && Enabled(cfg, s, step)
    requires step.Dispatch? ==> AtHome(home, step.event)
    ensures EventsAtHome(cfg, Next(cfg, s, step), home)
  {
    if step.Begin? {
      assert AtHome(home, s.queues[step.w][0]);
    }
  }

  lemma ActKeepsOutside(cfg: Config, s: State, home: map<string, Site>, w0: World, w: nat)
    requires Shaped(cfg, s) && Refines(cfg, s, home, w0) && Enabled(cfg, s, Act(w))
    ensures OutsideAlone(Next(cfg, s, Act(w)).world, home, w0)
  {
    var e := s.workers[w].event;
    assert AtHome(home, e) && OfShard(cfg, w, e) && e.site.parses;
    assert Touched(home, e.uid.value);
  }

  lemma BeginSettles(cfg: Config, s: State, home: map<string, Site>, w0: World, w: nat, v: nat)
    requires Shaped(cfg, s) && Refines(cfg, s, home, w0) && Enabled(cfg, s, Begin(w)) && v < cfg.n
    ensures var s' := Next(cfg, s, Begin(w));
      Agree(cfg, home, v, Ahead(s', v), HandleAll(w0, Mine(cfg, v, s'.begun)))
  {
    var e := s.queues[w][0];
    assert OfShard(cfg, w, e) && AtHome(home, e);
    MineSnoc(cfg, v, s.begun, e);
    assert Agree(cfg, home, v, Ahead(s, v), HandleAll(w0, Mine(cfg, v, s.begun)));
    if v == w {
      HandleAllSnoc(w0, Mine(cfg, v, s.begun), e);
      HandleAgrees(cfg, home, w, s.world, HandleAll(w0, Mine(cfg, v, s.begun)), e);
    } else {
      assert Mine(cfg, v, s.begun) + [] == Mine(cfg, v, s.begun);
    }
  }

  lemma ActSettles(cfg: Config, s: State, home: map<string, Site>, w0: World, w: nat, v: nat)
    requires Shaped(cfg, s) && Apart(cfg, home) && Refines(cfg, s, home, w0)
    requires Enabled(cfg, s, Act(w)) && v < cfg.n
    ensures Agree(cfg, home, v, Ahead(Next(cfg, s, Act(w)), v), Ahead(s, v))
  {
    if v == w {
      ActIsAhead(cfg, s, w);
    } else {
      var e := s.workers[w].event;
      var l := Do(s.workers[w].plan[0], e.site.key.team, At(s.world, e.site));
      assert OfShard(cfg, w, e) && AtHome(home, e) && e.site.parses;
      PutElsewhere(cfg, home, s.world, e, l, v);
      AheadElsewhere(cfg, s, home, Put(s.world, e.site, l), v);
    }
  }

  // A call brings a worker nearer to where it was heading.
  lemma ActIsAhead(cfg: Config, s: State, w: nat)
    requires Shaped(cfg, s) && Enabled(cfg, s, Act(w))
    ensures Same(Ahead(Next(cfg, s, Act(w)), w), Ahead(s, w))
  {
    var e, plan := s.workers[w].event, s.workers[w].plan;
    var l := Do(plan[0], e.site.key.team, At(s.world, e.site));
    assert At(Put(s.world, e.site, l), e.site) == l;
  }

  // A worker's planned calls do the same in a world its shard finds alike.
  lemma AheadElsewhere(cfg: Config, s: State, home: map<string, Site>, world: World, v: nat)
    requires Shaped(cfg, s) && Sorted(cfg, s) && EventsAtHome(cfg, s, home) && v < cfg.n
    requires Agree(cfg, home, v, world, s.world)
    ensures Agree(cfg, home, v, Ahead(s.(world := world), v), Ahead(s, v))
  {
    if s.workers[v].Busy? {
      var e := s.workers[v].event;
      assert OfShard(cfg, v, e) && AtHome(home, e);
      if e.site.parses {
        assert Touched(home, e.uid.value);
        assert At(world, e.site) == At(s.world, e.site);
      }
      forall uid | uid in home && Touched(home, uid) && Shard(cfg, uid) == v
        ensures At(Ahead(s.(world := world), v), home[uid]) == At(Ahead(s, v), home[uid])
      {
        assert At(world, home[uid]) == At(s.world, home[uid]);
      }
    }
  }

  lemma {:induction false} AgreeTrans(cfg: Config, home: map<string, Site>, w: nat, a: World, b: World, c: World)
    requires Agree(cfg, home, w, a, b) && Agree(cfg, home, w, b, c)
    ensures Agree(cfg, home, w, a, c)
  {
    forall uid | uid in home && Touched(home, uid) && Shard(cfg, uid) == w
      ensures At(a, home[uid]) == At(c, home[uid])
    {
      assert At(a, home[uid]) == At(b, home[uid]);
    }
  }

  lemma FinishSettles(cfg: Config, s: State, home: map<string, Site>, w: nat, v: nat)
    requires Shaped(cfg, s) && Enabled(cfg, s, Finish(w)) && v < cfg.n
    ensures Agree(cfg, home, v, Ahead(Next(cfg, s, Finish(w)), v), Ahead(s, v))
  {
  }

  lemma StepRefines(cfg: Config, s: State, home: map<string, Site>, w0: World, step: Step)
    requires Shaped(cfg, s) && Apart(cfg, home) && Refines(cfg, s, home, w0)
    requires Enabled(cfg, s, step) && (step.Dispatch? ==> AtHome(home, step.event))
    ensures Refines(cfg, Next(cfg, s, step), home, w0)
  {
    var s' := Next(cfg, s, step);
    StepKeepsSorted(cfg, s, step);
    StepKeepsHomes(cfg, s, home, step);
    forall v: nat | v < cfg.n
      ensures Agree(cfg, home, v, Ahead(s', v), HandleAll(w0, Mine(cfg, v, s'.begun)))
    {
      assert Agree(cfg, home, v, Ahead(s, v), HandleAll(w0, Mine(cfg, v, s.begun)));
      match step
      case Dispatch(_) =>
      case Begin(w) => BeginSettles(cfg, s, home, w0, w, v);
      case Act(w) =>
        ActSettles(cfg, s, home, w0, w, v);
        AgreeTrans(cfg, home, v, Ahead(s', v), Ahead(s, v), HandleAll(w0, Mine(cfg, v, s.begun)));
      case Finish(w) =>
        FinishSettles(cfg, s, home, w, v);
        AgreeTrans(cfg, home, v, Ahead(s', v), Ahead(s, v), HandleAll(w0, Mine(cfg, v, s.begun)));
    }
    if step.Act? {
      ActKeepsOutside(cfg, s, home, w0, step.w);
    }
  }

  lemma {:induction false} RunRefines(cfg: Config, s: State, home: map<string, Site>, w0: World, steps: seq<Step>)
    requires Shaped(cfg, s) && Apart(cfg, home) && Refines(cfg, s, home, w0)
    requires Legal(cfg, s, steps) && StepsAtHome(home, steps)
    ensures Refines(cfg, Run(cfg, s, steps), home, w0)
    decreases steps
  {
    if steps != [] {
      assert steps[0].Dispatch? ==> AtHome(home, steps[0].event);
      StepRefines(cfg, s, home, w0, steps[0]);
      assert forall i :: 0 <= i < |steps| - 1 ==> steps[1..][i] == steps[i + 1];
      RunRefines(cfg, Next(cfg, s, steps[0]), home, w0, steps[1..]);
    }
  }

  // ---- one worker, for comparison ----

  // One worker for everything treats each shard as its own events alone would.
  lemma {:induction false} SequentialSettles(
    cfg: Config, w0: World, home: map<string, Site>, events: seq<Event>, w: nat)
    requires Apart(cfg, home) && AllAtHome(home, events)
    ensures Agree(cfg, home, w, HandleAll(w0, events), HandleAll(w0, Mine(cfg, w, events)))
    decreases events
  {
    if events != [] {
      var n := |events| - 1;
      var e, before := events[n], HandleAll(w0, events[..n]);
      var mine := Mine(cfg, w, events[..n]);
      SequentialSettles(cfg, w0, home, events[..n], w);
      if OfShard(cfg, w, e) {
        HandleAllSnoc(w0, mine, e);
        HandleAgrees(cfg, home, w, before, HandleAll(w0, mine), e);
      } else {
        assert mine + [] == mine;
        if e.site.parses {
          PutElsewhere(cfg, home, before, e, HandleLocal(At(before, e.site), e), w);
        } else {
          UnparsedIsHandled(before, e);
        }
        AgreeTrans(cfg, home, w, Handle(before, e), before, HandleAll(w0, mine));
      }
    }
  }

  lemma HandleKeepsOutside(w: World, home: map<string, Site>, w0: World, e: Event)
    requires e.uid.Some? && AtHome(home, e) && OutsideAlone(w, home, w0)
    ensures OutsideAlone(Handle(w, e), home, w0)
  {
    if e.site.parses {
      assert Touched(home, e.uid.value);
      var l := HandleLocal(At(w, e.site), e);
      assert Handle(w, e) == Put(w, e.site, l);
    } else {
      UnparsedIsHandled(w, e);
    }
  }

  lemma {:induction false} OutsideSequential(w0: World, home: map<string, Site>, events: seq<Event>)
    requires AllAtHome(home, events)
    ensures OutsideAlone(HandleAll(w0, events), home, w0)
    decreases events
  {
    if events != [] {
      var n := |events| - 1;
      OutsideSequential(w0, home, events[..n]);
      HandleKeepsOutside(HandleAll(w0, events[..n]), home, w0, events[n]);
    }
  }

  lemma SameEverywhere(a: World, b: World, home: map<string, Site>, w0: World)
    requires OutsideAlone(a, home, w0) && OutsideAlone(b, home, w0)
    requires forall uid :: Touched(home, uid) ==> At(a, home[uid]) == At(b, home[uid])
    ensures Same(a, b)
  {
    forall key
      ensures DeployAt(a, key) == DeployAt(b, key)
    {
      if uid :| Touched(home, uid) && home[uid].key == key {
        assert At(a, home[uid]) == At(b, home[uid]);
      }
    }
    forall ns
      ensures SpaceAt(a, ns) == SpaceAt(b, ns)
    {
      if uid :| Touched(home, uid) && home[uid].ns == ns {
        assert At(a, home[uid]) == At(b, home[uid]);
      }
    }
  }

  predicate Drained(s: State) {
    (forall i :: 0 <= i < |s.queues| ==> s.queues[i] == []) && (forall i :: 0 <= i < |s.workers| ==> s.workers[i].Idle?)
  }

  lemma {:induction false} DispatchedAtHome(cfg: Config, s: State, home: map<string, Site>, steps: seq<Step>)
    requires Shaped(cfg, s) && Legal(cfg, s, steps) && StepsAtHome(home, steps) && AllAtHome(home, s.dispatched)
    ensures AllAtHome(home, Run(cfg, s, steps).dispatched)
    decreases steps
  {
    if steps != [] {
      assert steps[0].Dispatch? ==> AtHome(home, steps[0].event);
      assert forall i :: 0 <= i < |steps| - 1 ==> steps[1..][i] == steps[i + 1];
      DispatchedAtHome(cfg, Next(cfg, s, steps[0]), home, steps[1..]);
    }
  }

  // A run whose events come from the pods' homes and are all handled.
  ghost predicate Completes(cfg: Config, home: map<string, Site>, w0: World, steps: seq<Step>)
    requires Sharded(cfg)
  {
    StepsAtHome(home, steps) && Legal(cfg, Init(cfg, w0), steps) && Drained(Run(cfg, Init(cfg, w0), steps))
  }

  // It ends as handling its events one by one, as dispatched, would.
  ghost predicate EndsInOrder(cfg: Config, w0: World, steps: seq<Step>)
    requires Sharded(cfg) && Legal(cfg, Init(cfg, w0), steps)
  {
    var s := Run(cfg, Init(cfg, w0), steps);
    Same(s.world, HandleAll(w0, s.dispatched))
  }

  // When pods on different shards live apart, every interleaving of dispatches,
  // workers and their single calls ends, once drained, in the world that
  // handling all events one by one in dispatch order ends in.
  lemma ShardedIsSequential(cfg: Config, home: map<string, Site>, w0: World, steps: seq<Step>)
    requires Sharded(cfg) && Apart(cfg, home) && Completes(cfg, home, w0, steps)
    ensures EndsInOrder(cfg, w0, steps)
  {
    var s := Run(cfg, Init(cfg, w0), steps);
    RunRefines(cfg, Init(cfg, w0), home, w0, steps);
    DispatchedAtHome(cfg, Init(cfg, w0), home, steps);
    forall uid | Touched(home, uid)
      ensures At(s.world, home[uid]) == At(HandleAll(w0, s.dispatched), home[uid])
    {
      var w := Shard(cfg, uid);
      RunKeepsOrder(cfg, Init(cfg, w0), steps, w);
      assert Mine(cfg, w, s.begun) + [] == Mine(cfg, w, s.begun);
      assert Agree(cfg, home, w, Ahead(s, w), HandleAll(w0, Mine(cfg, w, s.begun)));
      SequentialSettles(cfg, w0, home, s.dispatched, w);
    }
    OutsideSequential(w0, home, s.dispatched);
    SameEverywhere(s.world, HandleAll(w0, s.dispatched), home, w0);
  }

  // ---- pods that are not apart may race ----

  lemma {:induction false} RunConcat(cfg: Config, s: State, xs: seq<Step>, ys: seq<Step>)
    requires Shaped(cfg, s) && Legal(cfg, s, xs) && Legal(cfg, Run(cfg, s, xs), ys)
    ensures Legal(cfg, s, xs + ys)
    ensures Run(cfg, s, xs + ys) == Run(cfg, Run(cfg, s, xs), ys)
    decreases xs
  {
    if xs == [] {
      assert xs + ys == ys;
    } else {
      assert (xs + ys)[0] == xs[0] && (xs + ys)[1..] == xs[1..] + ys;
      RunConcat(cfg, Next(cfg, s, xs[0]), xs[1..], ys);
    }
  }

  predicate NoDispatch(steps: seq<Step>) {
    forall i :: 0 <= i < |steps| ==> !steps[i].Dispatch?
  }

  // A busy worker left to itself carries out its plan.
  lemma {:induction false} ActAll(cfg: Config, s: State, w: nat) returns (steps: seq<Step>)
    requires Shaped(cfg, s) && w < cfg.n && s.workers[w].Busy?
    ensures Legal(cfg, s, steps) && NoDispatch(steps)
    ensures var s' := Run(cfg, s, steps);
      s'.queues == s.queues && s'.workers == s.workers[w := Idle] && s'.dispatched == s.dispatched &&
      Same(s'.world, Ahead(s, w))
    decreases |s.workers[w].plan|
  {
    if s.workers[w].plan == [] {
      steps := [Finish(w)];
      assert steps[1..] == [];
    } else {
      var s1 := Next(cfg, s, Act(w));
      var rest := ActAll(cfg, s1, w);
      steps := [Act(w)] + rest;
      assert steps[1..] == rest;
      assert s1.workers[w := Idle] == s.workers[w := Idle];
      ActIsAhead(cfg, s, w);
    }
  }

  // An idle worker left to itself handles the only event in its queue.
  lemma HandleOne(cfg: Config, s: State, w: nat) returns (steps: seq<Step>)
    requires Shaped(cfg, s) && w < cfg.n && |s.queues[w]| == 1 && s.workers[w].Idle?
    ensures Legal(cfg, s, steps) && NoDispatch(steps)
    ensures var s' := Run(cfg, s, steps);
      s'.queues == s.queues[w := []] && s'.workers == s.workers && s'.dispatched == s.dispatched &&
      Same(s'.world, Handle(s.world, s.queues[w][0]))
  {
    var s1 := Next(cfg, s, Begin(w));
    var rest := ActAll(cfg, s1, w);
    steps := [Begin(w)] + rest;
    assert steps[1..] == rest;
    assert s.queues[w][1..] == [];
    assert s1.workers[w := Idle] == s.workers;
    assert Ahead(s1, w) == Handle(s.world, s.queues[w][0]);
  }

  lemma DispatchTwo(cfg: Config, w0: World, e1: Event, e2: Event)
    requires Sharded(cfg) && e1.uid.Some? && e2.uid.Some? && Shard(cfg, e1.uid.value) != Shard(cfg, e2.uid.value)
    ensures Legal(cfg, Init(cfg, w0), [Dispatch(e1), Dispatch(e2)])
    ensures var s0, s := Init(cfg, w0), Run(cfg, Init(cfg, w0), [Dispatch(e1), Dispatch(e2)]);
      s.queues == s0.queues[Shard(cfg, e1.uid.value) := [e1]][Shard(cfg, e2.uid.value) := [e2]] &&
      s.workers == s0.workers && s.dispatched == [e1, e2] && s.world == w0
  {
    var s0 := Init(cfg, w0);
    var sa := Next(cfg, s0, Dispatch(e1));
    OneStep(cfg, s0, Dispatch(e1));
    OneStep(cfg, sa, Dispatch(e2));
    RunConcat(cfg, s0, [Dispatch(e1)], [Dispatch(e2)]);
    assert [Dispatch(e1)] + [Dispatch(e2)] == [Dispatch(e1), Dispatch(e2)];
    assert [] + [e1] == [e1] && [] + [e2] == [e2] && [e1] + [e2] == [e1, e2];
  }

  lemma OneStep(cfg: Config, s: State, step: Step)
    requires Shaped(cfg, s) && Enabled(cfg, s, step)
    ensures Legal(cfg, s, [step]) && Run(cfg, s, [step]) == Next(cfg, s, step)
  {
    assert [step][1..] == [];
  }

  // Two events of different shards are dispatched in order and handled in the
  // other order.
  lemma OutOfOrder(cfg: Config, w0: World, e1: Event, e2: Event) returns (steps: seq<Step>)
    requires Sharded(cfg) && e1.uid.Some? && e2.uid.Some? && Shard(cfg, e1.uid.value) != Shard(cfg, e2.uid.value)
    ensures Legal(cfg, Init(cfg, w0), steps)
    ensures forall i :: 0 <= i < |steps| && steps[i].Dispatch? ==> steps[i].event in {e1, e2}
    ensures var s := Run(cfg, Init(cfg, w0), steps);
      Drained(s) && s.dispatched == [e1, e2] && Same(s.world, Handle(Handle(w0, e2), e1))
  {
    var s0, w1, w2 := Init(cfg, w0), Shard(cfg, e1.uid.value), Shard(cfg, e2.uid.value);
    var start := [Dispatch(e1), Dispatch(e2)];
    DispatchTwo(cfg, w0, e1, e2);
    var s1 := Run(cfg, s0, start);
    var second := HandleOne(cfg, s1, w2);
    var s2 := Run(cfg, s1, second);
    var first := HandleOne(cfg, s2, w1);
    RunConcat(cfg, s1, second, first);
    RunConcat(cfg, s0, start, second + first);
    SameHandled(s2.world, Handle(w0, e2), e1);
    steps := start + (second + first);
    BackToStart(s0.queues, e1, e2, w1, w2);
  }

  lemma BackToStart(queues: seq<seq<Event>>, e1: Event, e2: Event, w1: nat, w2: nat)
    requires w1 < |queues| && w2 < |queues| && queues[w1] == queues[w2] == [] && w1 != w2
    ensures queues[w1 := [e1]][w2 := [e2]][w2 := []][w1 := []] == queues
  {
  }

  // The end of a pod, and news of one that is terminating.
  function Gone(uid: string, site: Site): Event {
    Event(Deleted, Some(uid), site, false, false, false, 0, true, None, "")
  }

  function Going(uid: string, site: Site): Event {
    Event(Modified, Some(uid), site, true, false, false, 0, true, None, "")
  }

  // The end of a pod before news of one terminating under the same cache key
  // deletes the latter's namespace; the other way round it does not.
  lemma SharedKeyRaces(w: World, u: string, su: Site, v: string, sv: Site)
    requires su.parses && sv.parses && su.key == sv.key && DeployAt(w, su.key).cache.Some?
    ensures var before := SpaceAt(w, sv.ns).deletions;
      SpaceAt(HandleAll(w, [Gone(u, su), Going(v, sv)]), sv.ns).deletions == before + 1 &&
      SpaceAt(Handle(Handle(w, Going(v, sv)), Gone(u, su)), sv.ns).deletions == before
  {
    TwoHandled(w, Gone(u, su), Going(v, sv));
    EndedLeaves(At(w, su), Gone(u, su));
    GhostLeaves(At(Handle(w, Gone(u, su)), sv), Going(v, sv));
    TerminatingLeaves(At(w, sv), Going(v, sv));
    EndedLeaves(At(Handle(w, Going(v, sv)), su), Gone(u, su));
  }

  lemma TwoHandled(w: World, e1: Event, e2: Event)
    ensures HandleAll(w, [e1, e2]) == Handle(Handle(w, e1), e2)
  {
    HandleAllSnoc(w, [e1], e2);
    HandleAllSnoc(w, [], e1);
    assert [] + [e1] == [e1] && [e1] + [e2] == [e1, e2];
  }

  function UserAt(w: World, key: Key): int {
    if DeployAt(w, key).cache.Some? then DeployAt(w, key).cache.value.userId else 0
  }

  // The ends of two pods of one namespace are announced in the order they are
  // handled.
  lemma SharedNamespaceRaces(w: World, u: string, su: Site, v: string, sv: Site)
    requires su.parses && sv.parses && su.key != sv.key && su.ns == sv.ns
    ensures var before := SpaceAt(w, su.ns).notices;
      var a, b := Notice(UserAt(w, su.key), Stopped, ""), Notice(UserAt(w, sv.key), Stopped, "");
      SpaceAt(HandleAll(w, [Gone(u, su), Gone(v, sv)]), su.ns).notices == before + [a] + [b] &&
      SpaceAt(Handle(Handle(w, Gone(v, sv)), Gone(u, su)), su.ns).notices == before + [b] + [a]
  {
    TwoHandled(w, Gone(u, su), Gone(v, sv));
    EndedLeaves(At(w, su), Gone(u, su));
    EndedLeaves(At(Handle(w, Gone(u, su)), sv), Gone(v, sv));
    EndedLeaves(At(w, sv), Gone(v, sv));
    EndedLeaves(At(Handle(w, Gone(v, sv)), su), Gone(u, su));
  }

  function CacheOf(user: int): Deploy {
    Deploy(Some(Cache(user, "", "", 0, Running, true)), Some(0))
  }

  // Two touched pods of different shards that share a key or a namespace can
  // make a run end differently.
  lemma SharingRaces(cfg: Config, home: map<string, Site>, u: string, v: string)
    returns (w0: World, steps: seq<Step>)
    requires Sharded(cfg) && u in home && v in home && !NearBy(cfg, home, u, v)
    requires home[u].key == home[v].key || home[u].ns == home[v].ns
    ensures Completes(cfg, home, w0, steps) && !EndsInOrder(cfg, w0, steps)
  {
    var su, sv := home[u], home[v];
    w0 := World(map[su.key := CacheOf(1), sv.key := CacheOf(2)], map[]);
    var e1, e2 := Gone(u, su), if su.key == sv.key then Going(v, sv) else Gone(v, sv);
    steps := OutOfOrder(cfg, w0, e1, e2);
    if su.key == sv.key {
      SharedKeyRaces(w0, u, su, v, sv);
    } else {
      SharedNamespaceRaces(w0, u, su, v, sv);
      assert ([] + [Notice(1, Stopped, "")] + [Notice(2, Stopped, "")])[0].userId == 1;
    }
  }

  // Sharding keeps to the dispatch order, in every world and interleaving,
  // exactly when pods on different shards live apart.
  lemma ShardedIsSequentialIff(cfg: Config, home: map<string, Site>)
    requires Sharded(cfg)
    ensures (forall w0, steps :: Completes(cfg, home, w0, steps) ==> EndsInOrder(cfg, w0, steps)) <==> Apart(cfg, home)
  {
    if Apart(cfg, home) {
      forall w0, steps | Completes(cfg, home, w0, steps)
        ensures EndsInOrder(cfg, w0, steps)
      {
        ShardedIsSequential(cfg, home, w0, steps);
      }
    } else {
      var u, v :| u in home && v in home && !NearBy(cfg, home, u, v) &&
        (home[u].key == home[v].key || home[u].ns == home[v].ns);
      var w0, steps := SharingRaces(cfg, home, u, v);
    }
  }

  // ---- the informer ----

  // b is a after the calls of the plan for the event's site, as lookups go.
  ghost predicate Done(e: Event, plan: seq<Action>, a: World, b: World) {
    At(b, e.site) == DoAll(plan, e.site.key.team, At(a, e.site)) &&
    (forall key :: key != e.site.key ==> DeployAt(b, key) == DeployAt(a, key)) &&
    (forall ns :: ns != e.site.ns ==> SpaceAt(b, ns) == SpaceAt(a, ns))
  }

  lemma DoneThen(e: Event, p: seq<Action>, q: seq<Action>, a: World, b: World, c: World)
    requires Done(e, p, a, b) && Done(e, q, b, c)
    ensures Done(e, p + q, a, c)
  {
    DoAllConcat(p, q, e.site.key.team, At(a, e.site));
  }

  lemma DoneIsHandled(e: Event, a: World, b: World)
    requires Done(e, Plan(e, DeployAt(a, e.site.key).cache), a, b)
    ensures Same(b, Handle(a, e))
  {
  }

  class Informer {
    const cfg: Config
    var queues: seq<seq<Event>>
    var world: World

    // The remote calls made so far, in order.
    ghost var calls: seq<Action>

    constructor (n: nat, hash: string -> nat, world: World)
      requires n > 0
      ensures cfg == ByHash(n, hash) && this.world == world && queues == Init(cfg, world).queues && calls == []
    {
      cfg := ByHash(n, hash);
      this.world := world;
      queues, calls := seq(n, _ => []), [];
    }

    method DispatchToShard(e: Event)
      requires Sharded(cfg) && |queues| == cfg.n
      modifies this`queues
      ensures |queues| == cfg.n
      ensures forall s :: Shaped(cfg, s) && s.queues == old(queues) ==> queues == Next(cfg, s, Dispatch(e)).queues
      ensures e.uid.Some? ==> queues[Shard(cfg, e.uid.value)] == old(queues)[Shard(cfg, e.uid.value)] + [e]
    {
      if e.uid.None? {
        return;
      }
      var i := Shard(cfg, e.uid.value);
      queues := queues[i := queues[i] + [e]];
    }

    // One remote call for the event's site.
    method Call(e: Event, a: Action)
      modifies this`world, this`calls
      ensures world == Put(old(world), e.site, Do(a, e.site.key.team, At(old(world), e.site)))
      ensures calls == old(calls) + [a]
    {
      calls := calls + [a];
      world := Put(world, e.site, Do(a, e.site.key.team, At(world, e.site)));
    }

    method CleanupGhostResources(e: Event, status: Status)
      modifies this`world, this`calls
      ensures Done(e, Cleanup(e, status), old(world), world) && calls == old(calls) + Cleanup(e, status)
      ensures At(world, e.site) == NamespaceGone(At(old(world), e.site), e, Notice(0, status, ""))
    {
      if e.canDelete {
        Call(e, DeleteNamespace);
        Call(e, RemoveDeploy);
        Call(e, Notify(Notice(0, status, "")));
        DoThree(DeleteNamespace, RemoveDeploy, Notify(Notice(0, status, "")), e.site.key.team, At(old(world), e.site));
      }
    }

    method HandleDeletion(e: Event, cache: Option<Cache>)
      modifies this`world, this`calls
      ensures var user := if cache.Some? then cache.value.userId else 0;
        var plan := [RemoveDeploy, Notify(Notice(user, Stopped, "")), StopTracking];
        Done(e, plan, old(world), world) && calls == old(calls) + plan
    {
      var user := if cache.Some? then cache.value.userId else 0;
      Call(e, RemoveDeploy);
      Call(e, Notify(Notice(user, Stopped, "")));
      Call(e, StopTracking);
      DoThree(RemoveDeploy, Notify(Notice(user, Stopped, "")), StopTracking, e.site.key.team, At(old(world), e.site));
    }

    // The entry read from the cache changes even when it cannot be stored.
    method HandlePodRestart(e: Event, uid: string, cache: Cache) returns (cache': Cache)
      requires cache.podId != uid
      modifies this`world, this`calls
      ensures cache' == Restarted(e, uid, cache)
      ensures Done(e, RestartPlan(e, uid, cache), old(world), world)
      ensures calls == old(calls) + RestartPlan(e, uid, cache)
    {
      cache' := cache.(podId := uid, ready := false);
      var remainingTtl := cache.timeFinished - e.now;
      if remainingTtl > 0 {
        Call(e, UpdateDeploy(cache', remainingTtl, e.now));
        DoOne(UpdateDeploy(cache', remainingTtl, e.now), e.site.key.team, At(old(world), e.site));
      }
    }

    method HandleChallengeRunning(e: Event, cache: Cache, limit: Option<int>)
      requires e.ready && cache.status != Deleting && !cache.ready && e.challenge == Some(limit)
      modifies this`world, this`calls
      ensures Done(e, RunningPlan(e, cache), old(world), world) && calls == old(calls) + RunningPlan(e, cache)
    {
      ghost var w0, plan := world, [];
      var finished := cache.timeFinished;
      if cache.timeFinished <= e.now {
        finished := e.now + 60 * (if limit.Some? then limit.value else 30);
        if e.site.key.team != -1 && e.site.key.team != -2 {
          Call(e, StartTracking);
          DoOne(StartTracking, e.site.key.team, At(w0, e.site));
          plan := [StartTracking];
        }
      }
      ghost var w1 := world;
      var ttl := finished - e.now;
      if ttl <= 0 {
        ttl := 60;
      }
      var cache' := cache.(status := Running, url := e.token, timeFinished := finished, ready := true);
      ghost var update, notify := UpdateDeploy(cache', ttl, e.now), Notify(Notice(cache.userId, Running, e.token));
      Call(e, UpdateDeploy(cache', ttl, e.now));
      Call(e, Notify(Notice(cache.userId, Running, e.token)));
      DoTwo(update, notify, e.site.key.team, At(w1, e.site));
      DoneThen(e, plan, [update, notify], w0, w1, world);
      Assoc(old(calls), plan, [update, notify]);
    }

    method HandleRunningState(e: Event, cache: Cache)
      modifies this`world, this`calls
      ensures Done(e, RunningPlan(e, cache), old(world), world) && calls == old(calls) + RunningPlan(e, cache)
    {
      if e.ready && cache.status != Deleting {
        if cache.ready {
          return;
        }
        if e.challenge.Some? {
          HandleChallengeRunning(e, cache, e.challenge.value);
        } else {
          Call(e, Notify(Notice(cache.userId, Running, "")));
          DoOne(Notify(Notice(cache.userId, Running, "")), e.site.key.team, At(old(world), e.site));
        }
      }
    }

    // A name that does not parse throws, and the worker goes on with the next
    // event.
    method ProcessPodChange(e: Event)
      modifies this`world, this`calls
      ensures var plan := Plan(e, DeployAt(old(world), e.site.key).cache);
        Done(e, plan, old(world), world) && calls == old(calls) + plan
      ensures At(world, e.site) == HandleLocal(At(old(world), e.site), e)
    {
      if e.kind == Bookmark || e.kind == Error || !e.site.parses {
        return;
      }
      var uid := Uid(e);
      var cache := DeployAt(world, e.site.key).cache;
      if e.kind == Deleted {
        HandleDeletion(e, cache);
        return;
      }
      if cache.None? {
        CleanupGhostResources(e, Stopped);
        return;
      }
      if e.terminating {
        return;
      }
      ghost var w0 := world;
      var entry := cache.value;
      if entry.podId != uid {
        entry := HandlePodRestart(e, uid, entry);
      }
      ghost var w1 := world;
      ghost var restart := RestartPlan(e, uid, cache.value);
      Assoc(old(calls), restart, if e.stuck then Cleanup(e, Failed) else RunningPlan(e, entry));
      if e.stuck {
        CleanupGhostResources(e, Failed);
        DoneThen(e, restart, Cleanup(e, Failed), w0, w1, world);
        return;
      }
      HandleRunningState(e, entry);
      DoneThen(e, restart, RunningPlan(e, entry), w0, w1, world);
    }

    // A worker reading its queue until it is empty, with no other worker in
    // between.
    method RunWorker(w: nat)
      requires w < |queues|
      modifies this`queues, this`world, this`calls
      ensures queues == old(queues)[w := []]
      ensures Same(world, HandleAll(old(world), old(queues[w])))
    {
      ghost var q, w0, i := queues[w], world, 0;
      while queues[w] != []
        invariant i <= |q| && queues == old(queues)[w := q[i..]]
        invariant Same(world, HandleAll(w0, q[..i]))
        decreases |q| - i
      {
        var e := queues[w][0];
        queues := queues[w := queues[w][1..]];
        ghost var before := world;
        ProcessPodChange(e);
        DoneIsHandled(e, before, world);
        SameHandled(before, HandleAll(w0, q[..i]), e);
        HandleAllSnoc(w0, q[..i], e);
        assert q[..i] + [e] == q[..i + 1];
        i := i + 1;
      }
      assert q[..i] == q;
    }
  }
}
