/** What the worker pool promises, over every run of scheduler, channels and workers. */
module SchedulerTheorems {
  import opened Scheduler
  import opened SchedulerSystem
  import opened SchedulerSafety
  import opened SchedulerTurns

  // ---- One blocking job at a time ----

  /**
   Every worker has at most one unfinished blocking job; a worker in the idle queue has none,
   and none of its notices is in flight; no job ever waits behind a blocking job.
   */
  lemma OneBlockingJobPerWorker(events: seq<Event>, w: WorkerId)
    ensures var s := Reached(events); var worker := At(s.workers, w);
            && Unfinished(worker) <= 1
            && (w in s.pool.idle ==> Unfinished(worker) == 0 && InFlight(s, w) == [])
            && (Unfinished(worker) == 1 ==> w in s.pool.busy && w !in s.pool.idle)
            && NothingBehindBlocking(worker)
  {
    ReachedInv(events);
    var s := Reached(events);
    assert WorkerOk(At(s.workers, w), InFlight(s, w), PlaceOf(s.pool, w));
  }

  /** A worker the pool knows that has nothing left to do and no notice in flight is available again. */
  lemma DrainedWorkersAreIdle(events: seq<Event>, w: WorkerId)
    requires var s := Reached(events); (w in s.pool.idle || w in s.pool.busy) && Unfinished(At(s.workers, w)) == 0 && InFlight(s, w) == []
    ensures w in Reached(events).pool.idle
  {
    ReachedInv(events);
    var s := Reached(events);
    assert WorkerOk(At(s.workers, w), InFlight(s, w), PlaceOf(s.pool, w));
  }

  /** The chosen worker gets its priming if it is new, then the job that was asked for. */
  lemma JobArrives(s: System, job: JobId, kind: JobKind)
    requires s.mailbox != [] && s.mailbox[0] == SpawnBlocking(job, kind)
    ensures var w := Chosen(s.pool);
            At(Apply(s, ExecuteNext).workers, w).inbox ==
            At(s.workers, w).inbox + ((if s.pool.idle == [] then Notices(s.pool.cached) else []) + [Blocking(job, kind)])
  {
    hide Deliver, PostJob, For, AsMap, Notices, Chosen;
    JobFor(s.pool, Blocking(job, kind), Chosen(s.pool));
    DeliverReaches(s.workers, PostJob(s.pool, Blocking(job, kind)).1, AsMap(s.pool.cached), Chosen(s.pool));
  }

  /** The worker picked for a job is the front idle one, else a new one: nothing unfinished, nothing in flight. */
  lemma ChosenIsFree(s: System)
    requires Inv(s)
    ensures Unfinished(At(s.workers, Chosen(s.pool))) == 0 && InFlight(s, Chosen(s.pool)) == []
  {
    hide WorkerOk, MailMarks, OutMarks;
    var w := Chosen(s.pool);
    InvAt(s, w);
    ChosenIsIdleOrNew(s.pool);
    FreeHasNothing(At(s.workers, w), InFlight(s, w), PlaceOf(s.pool, w));
  }

  lemma PoolIsOk(s: System)
    requires Inv(s)
    ensures PoolOk(s.pool)
  {
  }

  lemma FreeHasNothing(worker: Worker, marks: seq<Mark>, place: Place)
    requires WorkerOk(worker, marks, place) && place != InBusy
    ensures Unfinished(worker) == 0 && marks == []
  {
  }

  /**
   A blocking job goes to the front idle worker, or to a new one if none is idle: a worker with
   nothing unfinished and nothing in flight. The job it receives is the one asked for, behind
   nothing but notices, and it is busy from then on.
   */
  lemma BlockingJobsGoToFreeWorkers(events: seq<Event>, job: JobId, kind: JobKind)
    requires var s := Reached(events); s.mailbox != [] && s.mailbox[0] == SpawnBlocking(job, kind)
    ensures var s := Reached(events); var s' := Apply(s, ExecuteNext);
            var w := if s.pool.idle == [] then s.pool.nextId else s.pool.idle[0];
            && Unfinished(At(s.workers, w)) == 0 && InFlight(s, w) == []
            && w in s'.pool.busy && s'.trace == s.trace + [Assigned(w, job, kind)]
            && At(s'.workers, w).inbox ==
               At(s.workers, w).inbox + ((if s.pool.idle == [] then Notices(s.pool.cached) else []) + [Blocking(job, kind)])
  {
    hide Inv, PoolOk, Unfinished, InFlight, Deliver, PostJob, AsMap, Notices;
    ReachedInv(events);
    var s := Reached(events);
    JobArrives(s, job, kind);
    ChosenIsFree(s);
    PoolIsOk(s);
    PostJobPlaces(s.pool, Blocking(job, kind));
  }

  // ---- Jobs posted together go to distinct workers ----

  /** The last deed about w was to give it a blocking job. */
  predicate Held(trace: seq<Deed>, w: WorkerId) {
    if trace == [] then false
    else if trace[|trace| - 1].worker == w then trace[|trace| - 1].Assigned?
    else Held(trace[..|trace| - 1], w)
  }

  /** Between two assignments to the same worker its idle notice was seen. */
  ghost predicate Spaced(trace: seq<Deed>) {
    forall i, j :: 0 <= i < j < |trace| && trace[i].Assigned? && trace[j].Assigned? && trace[i].worker == trace[j].worker ==>
      exists k :: i < k < j && trace[k] == IdleSeen(trace[i].worker)
  }

  ghost predicate TraceOk(s: System) {
    Spaced(s.trace) && forall w: WorkerId :: Held(s.trace, w) <==> PlaceOf(s.pool, w) == InBusy
  }

  lemma {:induction false} NotHeldMeansSeen(trace: seq<Deed>, w: WorkerId, i: nat)
    requires !Held(trace, w) && i < |trace| && trace[i].Assigned? && trace[i].worker == w
    ensures exists k :: i < k < |trace| && trace[k] == IdleSeen(w)
  {
    var last := |trace| - 1;
    if trace[last].worker == w {
      assert trace[last] == IdleSeen(w);
    } else {
      NotHeldMeansSeen(trace[..last], w, i);
      var k :| i < k < last && trace[..last][k] == IdleSeen(w);
      assert trace[k] == IdleSeen(w);
    }
  }

  lemma AssignKeepsSpacing(trace: seq<Deed>, deed: Deed)
    requires Spaced(trace) && (deed.Assigned? ==> !Held(trace, deed.worker))
    ensures Spaced(trace + [deed])
    ensures forall w: WorkerId :: Held(trace + [deed], w) <==> if w == deed.worker then deed.Assigned? else Held(trace, w)
  {
    var longer := trace + [deed];
    assert longer[..|trace|] == trace;
    forall i, j | 0 <= i < j < |longer| && longer[i].Assigned? && longer[j].Assigned? && longer[i].worker == longer[j].worker
      ensures exists k :: i < k < j && longer[k] == IdleSeen(longer[i].worker)
    {
      if j == |trace| {
        NotHeldMeansSeen(trace, deed.worker, i);
        var k :| i < k < |trace| && trace[k] == IdleSeen(deed.worker);
        assert longer[k] == IdleSeen(longer[i].worker);
      } else {
        var k :| i < k < j && trace[k] == IdleSeen(trace[i].worker);
        assert longer[k] == IdleSeen(longer[i].worker);
      }
    }
  }

  lemma ExecuteKeepsTrace(s: System)
    requires Inv(s) && TraceOk(s) && s.mailbox != []
    ensures TraceOk(Apply(s, ExecuteNext))
  {
    hide Deliver, WorkerOk, Without, Insert, Broadcast, Priming, Spaced, Held, AsMap;
    var s' := Apply(s, ExecuteNext);
    match s.mailbox[0] {
      case SpawnAsync(job) =>
        PostJobPlaces(s.pool, Async(job));
        assert s'.trace == s.trace;
      case SpawnBlocking(job, kind) =>
        PostJobPlaces(s.pool, Blocking(job, kind));
        AssignKeepsSpacing(s.trace, Assigned(Chosen(s.pool), job, kind));
      case CacheModule(hash, mod) =>
        assert s'.trace == s.trace;
      case WorkerBusy(w) =>
        BusyNoticeIsRedundant(s, w);
        assert s'.trace == s.trace;
      case WorkerIdle(w) =>
        FrontMark(s, w, MarkIdle);
        MoveToIdlePlaces(s.pool, w);
        AssignKeepsSpacing(s.trace, IdleSeen(w));
    }
  }

  lemma {:induction false} ReachedTrace(events: seq<Event>)
    ensures TraceOk(Reached(events))
  {
    hide Inv, TraceOk, Execute, Deliver;
    EmptyTraceOk();
    if events != [] {
      var s := Reached(events[..|events| - 1]);
      var e := events[|events| - 1];
      ReachedTrace(events[..|events| - 1]);
      ReachedInv(events[..|events| - 1]);
      if e.ExecuteNext? && s.mailbox != [] {
        ExecuteKeepsTrace(s);
      } else {
        assert Apply(s, e).trace == s.trace && Apply(s, e).pool == s.pool;
        SameTraceOk(s, Apply(s, e));
      }
    }
  }

  lemma EmptyTraceOk()
    ensures TraceOk(System(EmptyPool, [], map[], []))
  {
  }

  lemma SameTraceOk(s: System, s': System)
    requires TraceOk(s) && s'.trace == s.trace && s'.pool == s.pool
    ensures TraceOk(s')
  {
  }

  /**
   Blocking jobs assigned with no idle notice in between go to distinct workers, so tasks
   that wait for each other cannot end up queued on one worker.
   */
  lemma BurstGoesToDistinctWorkers(events: seq<Event>, from: nat, to: nat)
    requires from <= to <= |Reached(events).trace|
    requires forall k :: from <= k < to ==> Reached(events).trace[k].Assigned?
    ensures forall i, j :: from <= i < j < to ==> Reached(events).trace[i].worker != Reached(events).trace[j].worker
  {
    ReachedTrace(events);
  }

  // ---- Module caches agree ----

  /** The modules a worker knows after handling `payloads`. */
  function Fold(payloads: seq<Payload>): map<Hash, Module> {
    if payloads == [] then map[] else
    var front := Fold(payloads[..|payloads| - 1]);
    match payloads[|payloads| - 1]
    case CacheNotice(hash, mod) => front[hash := mod]
    case _ => front
  }

  lemma FoldOne(payloads: seq<Payload>, p: Payload)
    ensures Fold(payloads + [p]) == (match p case CacheNotice(hash, mod) => Fold(payloads)[hash := mod] case _ => Fold(payloads))
  {
    assert (payloads + [p])[..|payloads|] == payloads;
  }

  lemma {:induction false} FoldNotices(cached: seq<(Hash, Module)>)
    ensures Fold(Notices(cached)) == AsMap(cached)
  {
    if cached != [] {
      var front := cached[..|cached| - 1];
      FoldNotices(front);
      assert Notices(cached)[..|cached| - 1] == Notices(front);
    }
  }

  /** The worker has been told of exactly the scheduler's modules, and was before each of its jobs. */
  ghost predicate Primed(worker: Worker, place: Place, cached: seq<(Hash, Module)>) {
    && |worker.snapshots| == |worker.sent|
    && (place != Unknown ==> Fold(worker.sent) == AsMap(cached))
    && (forall i :: 0 <= i < |worker.sent| && worker.sent[i].IsJob() ==> Fold(worker.sent[..i]) == worker.snapshots[i])
  }

  ghost predicate CacheOk(s: System) {
    forall w: WorkerId :: Primed(At(s.workers, w), PlaceOf(s.pool, w), s.pool.cached)
  }

  lemma NoticesArePrimed(worker: Worker, notices: seq<Payload>, snapshot: map<Hash, Module>, place: Place, cached: seq<(Hash, Module)>)
    requires |worker.snapshots| == |worker.sent|
    requires forall i :: 0 <= i < |worker.sent| && worker.sent[i].IsJob() ==> Fold(worker.sent[..i]) == worker.snapshots[i]
    requires forall i :: 0 <= i < |notices| ==> notices[i].CacheNotice?
    requires place != Unknown ==> Fold(worker.sent + notices) == AsMap(cached)
    ensures Primed(ReceiveAll(worker, notices, snapshot), place, cached)
  {
    hide Fold, AsMap;
    var worker' := ReceiveAll(worker, notices, snapshot);
    forall i | 0 <= i < |worker'.sent| && worker'.sent[i].IsJob() ensures Fold(worker'.sent[..i]) == worker'.snapshots[i] {
      assert i < |worker.sent|;
      assert worker'.sent[..i] == worker.sent[..i];
    }
  }

  lemma JobIsPrimed(worker: Worker, job: Payload, place: Place, cached: seq<(Hash, Module)>)
    requires Primed(worker, InIdle, cached) && job.IsJob()
    ensures Primed(ReceiveAll(worker, [job], AsMap(cached)), place, cached)
  {
    hide Fold, AsMap;
    var worker' := ReceiveAll(worker, [job], AsMap(cached));
    FoldOne(worker.sent, job);
    forall i | 0 <= i < |worker'.sent| && worker'.sent[i].IsJob() ensures Fold(worker'.sent[..i]) == worker'.snapshots[i] {
      assert worker'.sent[..i] == worker.sent[..i];
      if i == |worker.sent| {
        assert worker.sent[..i] == worker.sent;
      }
    }
  }

  lemma JobTurnKeepsCache(p: Pool, worker: Worker, payload: Payload, x: WorkerId)
    requires PoolOk(p) && payload.IsJob() && Primed(worker, PlaceOf(p, x), p.cached)
    requires PlaceOf(p, x) == Unknown ==> worker.sent == []
    ensures var (pool, posts) := PostJob(p, payload);
            Primed(ReceiveAll(worker, For(posts, x), AsMap(p.cached)), PlaceOf(pool, x), pool.cached)
  {
    hide PostJob, For, PoolOk, Chosen, Notices, Fold, AsMap, PlaceOf;
    PostJobPlaces(p, payload);
    JobFor(p, payload, x);
    NoticesAreNotices(p.cached);
    var snapshot := AsMap(p.cached);
    var place := PlaceOf(PostJob(p, payload).0, x);
    if x != Chosen(p) {
      assert ReceiveAll(worker, [], snapshot) == worker;
    } else if p.idle == [] && PlaceOf(p, x) == Unknown {
      var primed := ReceiveAll(worker, Notices(p.cached), snapshot);
      FoldNotices(p.cached);
      assert worker.sent + Notices(p.cached) == Notices(p.cached);
      NoticesArePrimed(worker, Notices(p.cached), snapshot, InIdle, p.cached);
      JobIsPrimed(primed, payload, place, p.cached);
      assert ReceiveAll(primed, [payload], snapshot) == ReceiveAll(worker, Notices(p.cached) + [payload], snapshot);
    } else {
      ChosenIsIdleOrNew(p);
      assert [] + [payload] == [payload];
      JobIsPrimed(worker, payload, place, p.cached);
    }
  }

  lemma ChosenIsIdleOrNew(p: Pool)
    requires PoolOk(p)
    ensures p.idle == [] <==> PlaceOf(p, Chosen(p)) == Unknown
    ensures p.idle != [] <==> PlaceOf(p, Chosen(p)) == InIdle
  {
  }

  lemma CacheTurnKeepsCache(p: Pool, worker: Worker, hash: Hash, mod: Module, x: WorkerId)
    requires PoolOk(p) && Primed(worker, PlaceOf(p, x), p.cached)
    ensures var (pool, posts) := Execute(p, CacheModule(hash, mod));
            Primed(ReceiveAll(worker, For(posts, x), AsMap(p.cached)), PlaceOf(pool, x), pool.cached)
  {
    hide For, Fold, AsMap, Insert, Broadcast;
    var ws := p.idle + p.busy;
    InsertUpdatesMap(p.cached, hash, mod);
    assert forall i, j :: 0 <= i < j < |ws| ==> ws[i] != ws[j];
    BroadcastFor(ws, hash, mod, x);
    FoldOne(worker.sent, CacheNotice(hash, mod));
    var snapshot := AsMap(p.cached);
    if x in ws {
      NoticesArePrimed(worker, [CacheNotice(hash, mod)], snapshot, PlaceOf(p, x), Insert(p.cached, hash, mod));
    } else {
      assert ReceiveAll(worker, [], snapshot) == worker;
    }
  }

  lemma ExecuteKeepsCache(s: System)
    requires Inv(s) && CacheOk(s) && s.mailbox != []
    ensures CacheOk(Apply(s, ExecuteNext))
  {
    hide Deliver, WorkerOk, For, Fold, AsMap, Insert, Broadcast, PostJob, Without, Primed, PlaceOf, PoolOk;
    var s' := Apply(s, ExecuteNext);
    var posts := Execute(s.pool, s.mailbox[0]).1;
    forall x: WorkerId ensures Primed(At(s'.workers, x), PlaceOf(s'.pool, x), s'.pool.cached) {
      DeliverReaches(s.workers, posts, AsMap(s.pool.cached), x);
      assert Primed(At(s.workers, x), PlaceOf(s.pool, x), s.pool.cached);
      UnknownHasNothing(s, x);
      match s.mailbox[0] {
        case SpawnAsync(job) => JobTurnKeepsCache(s.pool, At(s.workers, x), Async(job), x);
        case SpawnBlocking(job, kind) => JobTurnKeepsCache(s.pool, At(s.workers, x), Blocking(job, kind), x);
        case CacheModule(hash, mod) => CacheTurnKeepsCache(s.pool, At(s.workers, x), hash, mod, x);
        case WorkerBusy(w) => BusyNoticeIsRedundant(s, w);
        case WorkerIdle(w) => IdleNoticeKeepsCache(s, w, x);
      }
    }
  }

  lemma UnknownHasNothing(s: System, x: WorkerId)
    requires Inv(s)
    ensures PlaceOf(s.pool, x) == Unknown ==> At(s.workers, x).sent == []
  {
    assert WorkerOk(At(s.workers, x), InFlight(s, x), PlaceOf(s.pool, x));
  }

  lemma IdleNoticeKeepsCache(s: System, w: WorkerId, x: WorkerId)
    requires Inv(s) && s.mailbox != [] && s.mailbox[0] == WorkerIdle(w)
    requires Primed(At(s.workers, x), PlaceOf(s.pool, x), s.pool.cached)
    ensures var s' := Apply(s, ExecuteNext); Primed(At(s'.workers, x), PlaceOf(s'.pool, x), s'.pool.cached)
  {
    hide Inv, Fold, AsMap, Without, PoolOk;
    IdleNoticeMoves(s, w);
    NoticesPostNothing(s, w);
  }

  lemma IdleNoticeMoves(s: System, w: WorkerId)
    requires Inv(s) && s.mailbox != [] && s.mailbox[0] == WorkerIdle(w)
    ensures var p' := Execute(s.pool, WorkerIdle(w)).0;
            && p'.cached == s.pool.cached && PlaceOf(s.pool, w) == InBusy && PlaceOf(p', w) == InIdle
            && forall x :: x != w ==> PlaceOf(p', x) == PlaceOf(s.pool, x)
  {
    hide WorkerOk, MailMarks, OutMarks;
    FrontMark(s, w, MarkIdle);
    MoveToIdlePlaces(s.pool, w);
  }

  lemma NoticesPostNothing(s: System, w: WorkerId)
    requires s.mailbox != [] && s.mailbox[0] == WorkerIdle(w)
    ensures Apply(s, ExecuteNext).workers == s.workers && Apply(s, ExecuteNext).pool == Execute(s.pool, WorkerIdle(w)).0
  {
  }

  lemma OtherTurnsKeepCache(s: System, e: Event)
    requires CacheOk(s) && !e.ExecuteNext?
    ensures CacheOk(Apply(s, e))
  {
    hide Fold, AsMap, PlaceOf, Apply;
    var s' := Apply(s, e);
    forall x: WorkerId ensures Primed(At(s'.workers, x), PlaceOf(s'.pool, x), s'.pool.cached) {
      assert Primed(At(s.workers, x), PlaceOf(s.pool, x), s.pool.cached);
      OtherTurnsSendNothing(s, e, x);
    }
  }

  lemma OtherTurnsSendNothing(s: System, e: Event, x: WorkerId)
    requires !e.ExecuteNext?
    ensures var (before, after) := (At(s.workers, x), At(Apply(s, e).workers, x));
            Apply(s, e).pool == s.pool && after.sent == before.sent && after.snapshots == before.snapshots
  {
    hide Blocked, Execute, Deliver;
  }

  lemma {:induction false} ReachedCache(events: seq<Event>)
    ensures CacheOk(Reached(events))
  {
    if events != [] {
      var s := Reached(events[..|events| - 1]);
      ReachedCache(events[..|events| - 1]);
      ReachedInv(events[..|events| - 1]);
      if events[|events| - 1].ExecuteNext? {
        if s.mailbox != [] {
          ExecuteKeepsCache(s);
        }
      } else {
        OtherTurnsKeepCache(s, events[|events| - 1]);
      }
    }
  }

  /** Folding the notices sent to any live worker gives exactly the scheduler's cached modules. */
  lemma CachesAgree(events: seq<Event>, w: WorkerId)
    requires var p := Reached(events).pool; w in p.idle || w in p.busy
    ensures var s := Reached(events); Fold(At(s.workers, w).sent) == AsMap(s.pool.cached)
  {
    ReachedCache(events);
    var s := Reached(events);
    assert Primed(At(s.workers, w), PlaceOf(s.pool, w), s.pool.cached);
  }

  /** When a worker comes to a job, the notices it has handled add up to the modules cached when the job was posted. */
  lemma JobsFindModulesCached(events: seq<Event>, w: WorkerId)
    requires var worker := At(Reached(events).workers, w); worker.inbox != [] && worker.inbox[0].IsJob()
    ensures var worker := At(Reached(events).workers, w);
            && worker.taken < |worker.sent| == |worker.snapshots|
            && worker.inbox == worker.sent[worker.taken..]
            && Fold(worker.sent[..worker.taken]) == worker.snapshots[worker.taken]
  {
    ReachedCache(events);
    ReachedInv(events);
    var s := Reached(events);
    assert Primed(At(s.workers, w), PlaceOf(s.pool, w), s.pool.cached);
    assert WorkerOk(At(s.workers, w), InFlight(s, w), PlaceOf(s.pool, w));
    assert At(s.workers, w).sent[At(s.workers, w).taken] == At(s.workers, w).inbox[0];
  }
}
