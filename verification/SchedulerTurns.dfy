/** The scheduler's own turns, and what follows for every run. */
module SchedulerTurns {
  import opened Scheduler
  import opened SchedulerSystem
  import opened SchedulerSafety

  // ---- What a worker receives from a list of posts ----

  function For(posts: seq<Post>, w: WorkerId): seq<Payload> {
    if posts == [] then [] else
    For(posts[..|posts| - 1], w) + (if posts[|posts| - 1].to == w then [posts[|posts| - 1].payload] else [])
  }

  function ReceiveAll(worker: Worker, payloads: seq<Payload>, snapshot: map<Hash, Module>): Worker {
    worker.(inbox := worker.inbox + payloads, sent := worker.sent + payloads,
            snapshots := worker.snapshots + seq(|payloads|, _ => snapshot))
  }

  lemma {:induction false} DeliverReaches(workers: map<WorkerId, Worker>, posts: seq<Post>, snapshot: map<Hash, Module>, w: WorkerId)
    ensures At(Deliver(workers, posts, snapshot), w) == ReceiveAll(At(workers, w), For(posts, w), snapshot)
  {
    if posts != [] {
      DeliverReaches(workers, posts[..|posts| - 1], snapshot, w);
    }
  }

  function Notices(cached: seq<(Hash, Module)>): seq<Payload> {
    seq(|cached|, i requires 0 <= i < |cached| => CacheNotice(cached[i].0, cached[i].1))
  }

  lemma {:induction false} PrimingFor(w: WorkerId, cached: seq<(Hash, Module)>, x: WorkerId)
    ensures For(Priming(w, cached), x) == if x == w then Notices(cached) else []
  {
    if cached != [] {
      var front := cached[..|cached| - 1];
      PrimingFor(w, front, x);
      assert Priming(w, cached)[..|cached| - 1] == Priming(w, front);
      assert Notices(cached) == Notices(front) + [CacheNotice(cached[|cached| - 1].0, cached[|cached| - 1].1)];
    }
  }

  lemma {:induction false} BroadcastFor(ws: seq<WorkerId>, hash: Hash, mod: Module, x: WorkerId)
    requires forall i, j :: 0 <= i < j < |ws| ==> ws[i] != ws[j]
    ensures For(Broadcast(ws, hash, mod), x) == if x in ws then [CacheNotice(hash, mod)] else []
  {
    if ws != [] {
      var front := ws[..|ws| - 1];
      BroadcastFor(front, hash, mod, x);
      assert Broadcast(ws, hash, mod)[..|ws| - 1] == Broadcast(front, hash, mod);
      assert ws == front + [ws[|ws| - 1]];
    }
  }

  lemma NoticesAreNotices(cached: seq<(Hash, Module)>)
    ensures forall i :: 0 <= i < |Notices(cached)| ==> Notices(cached)[i].CacheNotice?
  {
  }

  /** The worker a job goes to: the front idle worker, else a new one. */
  function Chosen(p: Pool): WorkerId {
    if p.idle == [] then p.nextId else p.idle[0]
  }

  /** What the chosen worker receives: its priming if it is new, then the job. */
  lemma JobFor(p: Pool, payload: Payload, x: WorkerId)
    ensures For(PostJob(p, payload).1, x) ==
            if x == Chosen(p) then (if p.idle == [] then Notices(p.cached) else []) + [payload] else []
  {
    var posts := PostJob(p, payload).1;
    PrimingFor(p.nextId, p.cached, x);
    assert posts[..|posts| - 1] == if p.idle == [] then Priming(p.nextId, p.cached) else [];
  }

  // ---- Receiving ----

  lemma {:induction false} CountBlockingConcat(a: seq<Payload>, b: seq<Payload>)
    ensures CountBlocking(a + b) == CountBlocking(a) + CountBlocking(b)
  {
    if b == [] {
      assert a + b == a;
    } else {
      var front := b[..|b| - 1];
      CountBlockingConcat(a, front);
      CountBlockingAppend(a + front, b[|b| - 1]);
      CountBlockingAppend(front, b[|b| - 1]);
      assert a + b == a + front + [b[|b| - 1]];
      assert b == front + [b[|b| - 1]];
    }
  }

  /** Notices never change what a worker still has to do. */
  lemma NoticesKeepWorker(worker: Worker, marks: seq<Mark>, place: Place, notices: seq<Payload>, snapshot: map<Hash, Module>)
    requires WorkerOk(worker, marks, place) && place != Unknown
    requires forall i :: 0 <= i < |notices| ==> notices[i].CacheNotice?
    ensures WorkerOk(ReceiveAll(worker, notices, snapshot), marks, place)
  {
    hide CountBlocking, OutMarks;
    NoneBlocking(notices);
    CountBlockingConcat(worker.inbox, notices);
    NoticesHideBehindNothing(worker, notices, snapshot);
  }

  lemma NoticesHideBehindNothing(worker: Worker, notices: seq<Payload>, snapshot: map<Hash, Module>)
    requires NothingBehindBlocking(worker) && forall i :: 0 <= i < |notices| ==> notices[i].CacheNotice?
    ensures NothingBehindBlocking(ReceiveAll(worker, notices, snapshot))
  {
  }

  /** A worker with nothing to do receives notices and one job. */
  lemma JobKeepsWorker(worker: Worker, marks: seq<Mark>, place: Place, notices: seq<Payload>, job: Payload, snapshot: map<Hash, Module>)
    requires WorkerOk(worker, marks, place) && (place == InIdle || place == Unknown)
    requires forall i :: 0 <= i < |notices| ==> notices[i].CacheNotice?
    requires job.IsJob()
    ensures WorkerOk(ReceiveAll(worker, notices + [job], snapshot), marks, if job.WouldBlock() then InBusy else InIdle)
  {
    NoneBlocking(notices);
    NoneBlocking(worker.inbox);
    CountBlockingConcat(worker.inbox, notices + [job]);
    CountBlockingAppend(notices, job);
  }

  // ---- The pool's queues ----

  lemma WithoutSpec(ws: seq<WorkerId>, w: WorkerId)
    requires w in ws && forall i, j :: 0 <= i < j < |ws| ==> ws[i] != ws[j]
    ensures forall x :: x in Without(ws, w) <==> x in ws && x != w
    ensures forall i, j :: 0 <= i < j < |Without(ws, w)| ==> Without(ws, w)[i] != Without(ws, w)[j]
  {
    var i := IndexOf(ws, w);
    assert ws == ws[..i] + [w] + ws[i + 1..];
  }

  /** Worker w moves to the back of one of the queues. */
  function Placed(p: Pool, w: WorkerId, idle: seq<WorkerId>, blocks: bool): Pool {
    p.(idle := if blocks then idle else idle + [w], busy := if blocks then p.busy + [w] else p.busy,
       nextId := if p.idle == [] then p.nextId + 1 else p.nextId)
  }

  lemma PostJobPlaces(p: Pool, payload: Payload)
    requires PoolOk(p) && payload.IsJob()
    ensures var p' := PostJob(p, payload).0;
            && PoolOk(p') && p'.cached == p.cached
            && PlaceOf(p, Chosen(p)) != InBusy
            && PlaceOf(p', Chosen(p)) == (if payload.WouldBlock() then InBusy else InIdle)
            && forall x :: x != Chosen(p) ==> PlaceOf(p', x) == PlaceOf(p, x)
  {
    var idle := if p.idle == [] then [] else p.idle[1..];
    ChosenFromIdle(p, Chosen(p), idle);
    assert PostJob(p, payload).0 == Placed(p, Chosen(p), idle, payload.WouldBlock());
    hide Priming, PostJob, Placed, PoolOk, Chosen;
    PlacedIsOk(p, Chosen(p), idle, payload.WouldBlock());
  }

  lemma PlacedIsOk(p: Pool, w: WorkerId, idle: seq<WorkerId>, blocks: bool)
    requires PoolOk(p) && w == Chosen(p) && idle == if p.idle == [] then [] else p.idle[1..]
    ensures var p' := Placed(p, w, idle, blocks);
            && PoolOk(p') && p'.cached == p.cached
            && PlaceOf(p, w) != InBusy && PlaceOf(p', w) == (if blocks then InBusy else InIdle)
            && forall x :: x != w ==> PlaceOf(p', x) == PlaceOf(p, x)
  {
    ChosenFromIdle(p, w, idle);
    DistinctAppend(p.busy, w);
    DistinctAppend(idle, w);
    ChosenIsNotBusy(p);
    PlacedPlaces(p, w, idle, blocks);
    hide PlaceOf, Chosen, Sorted;
    assert PoolOk(Placed(p, w, idle, blocks));
  }

  lemma ChosenIsNotBusy(p: Pool)
    requires PoolOk(p)
    ensures PlaceOf(p, Chosen(p)) != InBusy && Chosen(p) < if p.idle == [] then p.nextId + 1 else p.nextId
  {
  }

  lemma PlacedPlaces(p: Pool, w: WorkerId, idle: seq<WorkerId>, blocks: bool)
    requires w !in idle && w !in p.busy && forall x :: x != w ==> (x in p.idle <==> x in idle)
    ensures var p' := Placed(p, w, idle, blocks);
            && PlaceOf(p', w) == (if blocks then InBusy else InIdle)
            && forall x :: x != w ==> PlaceOf(p', x) == PlaceOf(p, x)
  {
  }

  lemma ChosenFromIdle(p: Pool, w: WorkerId, idle: seq<WorkerId>)
    requires PoolOk(p) && w == Chosen(p) && idle == if p.idle == [] then [] else p.idle[1..]
    ensures w !in idle && w !in p.busy
    ensures forall x :: x != w ==> (x in p.idle <==> x in idle)
    ensures forall i, j :: 0 <= i < j < |idle| ==> idle[i] != idle[j]
  {
    assert p.idle != [] ==> p.idle == [w] + idle;
  }

  lemma DistinctAppend(ws: seq<WorkerId>, w: WorkerId)
    requires (forall i, j :: 0 <= i < j < |ws| ==> ws[i] != ws[j]) && w !in ws
    ensures forall i, j :: 0 <= i < j < |ws + [w]| ==> (ws + [w])[i] != (ws + [w])[j]
  {
  }

  lemma MoveToIdlePlaces(p: Pool, w: WorkerId)
    requires PoolOk(p) && w in p.busy
    ensures var p' := Execute(p, WorkerIdle(w)).0;
            && PoolOk(p') && p'.cached == p.cached && PlaceOf(p', w) == InIdle
            && forall x :: x != w ==> PlaceOf(p', x) == PlaceOf(p, x)
  {
    WithoutSpec(p.busy, w);
  }

  // ---- The scheduler's turns keep the invariant ----

  /** What the turn does to worker x, given as what x held before. */
  lemma JobTurnKeepsWorker(p: Pool, worker: Worker, marks: seq<Mark>, payload: Payload, x: WorkerId, snapshot: map<Hash, Module>)
    requires PoolOk(p) && payload.IsJob() && WorkerOk(worker, marks, PlaceOf(p, x))
    ensures var (pool, posts) := PostJob(p, payload);
            WorkerOk(ReceiveAll(worker, For(posts, x), snapshot), marks, PlaceOf(pool, x))
  {
    hide PostJob, WorkerOk, PlaceOf, For, PoolOk, Chosen, Notices;
    PostJobPlaces(p, payload);
    JobFor(p, payload, x);
    NoticesAreNotices(p.cached);
    if x == Chosen(p) {
      JobKeepsWorker(worker, marks, PlaceOf(p, x), if p.idle == [] then Notices(p.cached) else [], payload, snapshot);
    } else {
      assert ReceiveAll(worker, [], snapshot) == worker;
    }
  }

  lemma JobTurnKeepsInv(s: System, payload: Payload, trace: seq<Deed>)
    requires Inv(s) && s.mailbox != [] && payload.IsJob()
    requires forall x: WorkerId :: MarksOf(s.mailbox[0], x) == []
    ensures var (pool, posts) := PostJob(s.pool, payload);
            Inv(System(pool, s.mailbox[1..], Deliver(s.workers, posts, AsMap(s.pool.cached)), trace))
  {
    hide PostJob, Deliver, WorkerOk, PlaceOf, AsMap, PoolOk, MailMarks, OutMarks, MarksOf, For;
    PostJobPlaces(s.pool, payload);
    var (pool, posts) := PostJob(s.pool, payload);
    var s' := System(pool, s.mailbox[1..], Deliver(s.workers, posts, AsMap(s.pool.cached)), trace);
    forall x: WorkerId ensures WorkerOk(At(s'.workers, x), InFlight(s', x), PlaceOf(s'.pool, x)) {
      assert WorkerOk(At(s.workers, x), InFlight(s, x), PlaceOf(s.pool, x));
      MailMarksFront(s.mailbox, x);
      assert InFlight(s, x) == MailMarks(s.mailbox[1..], x) + OutMarks(At(s.workers, x).outbox);
      DeliverReaches(s.workers, posts, AsMap(s.pool.cached), x);
      JobTurnKeepsWorker(s.pool, At(s.workers, x), InFlight(s, x), payload, x, AsMap(s.pool.cached));
    }
  }

  lemma CacheTurnKeepsInv(s: System, hash: Hash, mod: Module)
    requires Inv(s) && s.mailbox != [] && s.mailbox[0] == CacheModule(hash, mod)
    ensures Inv(Apply(s, ExecuteNext))
  {
    hide Apply, Deliver, WorkerOk, For, AsMap, Insert, Broadcast, Sorted, MailMarks, OutMarks, PlaceOf;
    var s' := Apply(s, ExecuteNext);
    var snapshot := AsMap(s.pool.cached);
    CacheTurn(s, hash, mod);
    forall x: WorkerId
      ensures WorkerOk(At(s'.workers, x), InFlight(s', x), PlaceOf(s'.pool, x))
    {
      assert WorkerOk(At(s.workers, x), InFlight(s, x), PlaceOf(s.pool, x));
      DeliverReaches(s.workers, Broadcast(s.pool.idle + s.pool.busy, hash, mod), snapshot, x);
      CacheTurnKeepsWorker(s.pool, At(s.workers, x), InFlight(s, x), hash, mod, x, snapshot);
    }
  }

  /** What the turn changes: the modules, the inboxes, and no notice in flight. */
  lemma CacheTurn(s: System, hash: Hash, mod: Module)
    requires PoolOk(s.pool) && s.mailbox != [] && s.mailbox[0] == CacheModule(hash, mod)
    ensures var s' := Apply(s, ExecuteNext);
            && PoolOk(s'.pool) && s'.mailbox == s.mailbox[1..]
            && s'.workers == Deliver(s.workers, Broadcast(s.pool.idle + s.pool.busy, hash, mod), AsMap(s.pool.cached))
            && forall x: WorkerId ::
                 PlaceOf(s'.pool, x) == PlaceOf(s.pool, x) && MailMarks(s'.mailbox, x) == MailMarks(s.mailbox, x)
  {
    hide Deliver, For, AsMap, Insert, Broadcast, MailMarks;
    InsertUpdatesMap(s.pool.cached, hash, mod);
    forall x: WorkerId ensures MailMarks(s.mailbox[1..], x) == MailMarks(s.mailbox, x) {
      MailMarksFront(s.mailbox, x);
    }
  }

  lemma CacheTurnKeepsWorker(p: Pool, worker: Worker, marks: seq<Mark>, hash: Hash, mod: Module, x: WorkerId, snapshot: map<Hash, Module>)
    requires PoolOk(p) && WorkerOk(worker, marks, PlaceOf(p, x))
    ensures WorkerOk(ReceiveAll(worker, For(Broadcast(p.idle + p.busy, hash, mod), x), snapshot), marks, PlaceOf(p, x))
  {
    hide WorkerOk, For, Broadcast;
    var ws := p.idle + p.busy;
    assert forall i, j :: 0 <= i < j < |ws| ==> ws[i] != ws[j];
    BroadcastFor(ws, hash, mod, x);
    if x in ws {
      NoticesKeepWorker(worker, marks, PlaceOf(p, x), [CacheNotice(hash, mod)], snapshot);
    } else {
      assert ReceiveAll(worker, [], snapshot) == worker;
    }
  }

  /** A notice at the front of the mailbox is the front of what is in flight for its worker. */
  lemma FrontMark(s: System, w: WorkerId, mark: Mark)
    requires Inv(s) && s.mailbox != [] && MarksOf(s.mailbox[0], w) == [mark]
    ensures PlaceOf(s.pool, w) == InBusy
    ensures var rest := MailMarks(s.mailbox[1..], w) + OutMarks(At(s.workers, w).outbox);
            && InFlight(s, w) == [mark] + rest
            && (mark == MarkIdle ==> rest == [] && Unfinished(At(s.workers, w)) == 0)
            && WorkerOk(At(s.workers, w), rest, if mark == MarkIdle then InIdle else InBusy)
  {
    hide MailMarks, OutMarks, MarksOf, NothingBehindBlocking, PoolOk;
    assert WorkerOk(At(s.workers, w), InFlight(s, w), PlaceOf(s.pool, w));
    MailMarksFront(s.mailbox, w);
    assert InFlight(s, w)[0] == mark;
    assert InFlight(s, w)[1..] == MailMarks(s.mailbox[1..], w) + OutMarks(At(s.workers, w).outbox);
  }

  /** A busy notice never moves anyone: its worker is already among the busy ones. */
  lemma BusyNoticeIsRedundant(s: System, w: WorkerId)
    requires Inv(s) && s.mailbox != [] && s.mailbox[0] == WorkerBusy(w)
    ensures Apply(s, ExecuteNext) == s.(mailbox := s.mailbox[1..])
    ensures w in s.pool.busy
  {
    FrontMark(s, w, MarkBusy);
    assert s.trace + [] == s.trace;
  }

  lemma NoticeTurnKeepsInv(s: System, w: WorkerId)
    requires Inv(s) && s.mailbox != [] && (s.mailbox[0] == WorkerBusy(w) || s.mailbox[0] == WorkerIdle(w))
    ensures Inv(Apply(s, ExecuteNext))
  {
    hide Apply, WorkerOk, PlaceOf, MailMarks, OutMarks, PoolOk;
    var s' := Apply(s, ExecuteNext);
    FrontMark(s, w, if s.mailbox[0] == WorkerBusy(w) then MarkBusy else MarkIdle);
    NoticeTurn(s, w);
    forall x: WorkerId
      ensures WorkerOk(At(s'.workers, x), InFlight(s', x), PlaceOf(s'.pool, x))
    {
      assert WorkerOk(At(s.workers, x), InFlight(s, x), PlaceOf(s.pool, x));
      if x != w {
        MailMarksFront(s.mailbox, x);
        assert [] + MailMarks(s.mailbox[1..], x) == MailMarks(s.mailbox[1..], x);
      }
    }
  }

  /** What the turn changes: at most the place of worker w. */
  lemma NoticeTurn(s: System, w: WorkerId)
    requires PoolOk(s.pool) && PlaceOf(s.pool, w) == InBusy
    requires s.mailbox != [] && (s.mailbox[0] == WorkerBusy(w) || s.mailbox[0] == WorkerIdle(w))
    ensures var s' := Apply(s, ExecuteNext);
            && PoolOk(s'.pool) && s'.mailbox == s.mailbox[1..] && s'.workers == s.workers
            && PlaceOf(s'.pool, w) == (if s.mailbox[0] == WorkerBusy(w) then InBusy else InIdle)
            && forall x :: x != w ==> PlaceOf(s'.pool, x) == PlaceOf(s.pool, x)
  {
    hide Without, AsMap;
    if s.mailbox[0] == WorkerIdle(w) {
      MoveToIdlePlaces(s.pool, w);
    } else {
      InOnePlace(s.pool, w);
    }
  }

  lemma InOnePlace(p: Pool, w: WorkerId)
    requires PlaceOf(p, w) == InBusy
    ensures w !in p.idle && w in p.busy
  {
  }

  lemma ExecuteKeepsInv(s: System)
    requires Inv(s)
    ensures Inv(Apply(s, ExecuteNext))
  {
    if s.mailbox != [] {
      match s.mailbox[0]
      case SpawnAsync(job) => JobTurnKeepsInv(s, Async(job), s.trace + DeedsOf(s.pool, s.mailbox[0]));
      case SpawnBlocking(job, kind) => JobTurnKeepsInv(s, Blocking(job, kind), s.trace + DeedsOf(s.pool, s.mailbox[0]));
      case CacheModule(hash, mod) => CacheTurnKeepsInv(s, hash, mod);
      case WorkerBusy(w) => NoticeTurnKeepsInv(s, w);
      case WorkerIdle(w) => NoticeTurnKeepsInv(s, w);
    }
  }

  lemma ApplyKeepsInv(s: System, e: Event)
    requires Inv(s)
    ensures Inv(Apply(s, e))
  {
    hide Inv, Apply;
    match e
    case Request(msg) => RequestKeepsInv(s, msg);
    case ExecuteNext => ExecuteKeepsInv(s);
    case Forward(w) => ForwardKeepsInv(s, w);
    case _ => WorkerTurnKeepsInv(s, e);
  }

  lemma StartOk()
    ensures Inv(System(EmptyPool, [], map[], []))
  {
  }

  lemma {:induction false} ReachedInv(events: seq<Event>)
    ensures Inv(Reached(events))
  {
    hide Inv, Apply;
    StartOk();
    if events != [] {
      ReachedInv(events[..|events| - 1]);
      ApplyKeepsInv(Reached(events[..|events| - 1]), events[|events| - 1]);
    }
  }
}
