/** No job is lost, invented, changed or overtaken between the request and the worker that runs it. */
module SchedulerJobs {
  import opened Scheduler
  import opened SchedulerSystem
  import opened SchedulerSafety
  import opened SchedulerTurns
  import opened SchedulerTheorems

  // ---- Where a job can be ----

  /** How often a client or a worker has sent `msg`. */
  function Asked(events: seq<Event>, msg: Message): nat {
    if events == [] then 0 else
    var e := events[|events| - 1];
    Asked(events[..|events| - 1], msg)
    + (if (e.Request? || e.WorkerSends?) && e.msg == msg then 1 else 0)
  }

  function Actives(active: seq<Active>): seq<(JobId, JobKind)> {
    seq(|active|, i requires 0 <= i < |active| => active[i].Job())
  }

  /** How often the job is with one worker: requested there, waiting, under way or done. */
  function Share(worker: Worker, job: JobId, kind: JobKind): nat {
    multiset(worker.outbox)[Forwarded(SpawnBlocking(job, kind))] + multiset(worker.inbox)[Blocking(job, kind)]
    + multiset(Actives(worker.active))[(job, kind)] + multiset(worker.finished)[(job, kind)]
  }

  function AsyncShare(worker: Worker, job: JobId): nat {
    multiset(worker.outbox)[Forwarded(SpawnAsync(job))] + multiset(worker.inbox)[Async(job)] + multiset(worker.spawned)[job]
  }

  /** The same, by the message that asks for the job. */
  function ShareOf(msg: Message): Worker -> nat {
    match msg
    case SpawnAsync(job) => (worker: Worker) => AsyncShare(worker, job)
    case SpawnBlocking(job, kind) => (worker: Worker) => Share(worker, job, kind)
    case _ => (worker: Worker) => 0
  }

  /** The sum over the workers with an id below n. */
  function Sum(workers: map<WorkerId, Worker>, n: nat, f: Worker -> nat): nat {
    if n == 0 then 0 else Sum(workers, n - 1, f) + f(At(workers, n - 1))
  }

  ghost predicate Below(workers: map<WorkerId, Worker>, n: nat) {
    forall w :: w in workers ==> w < n
  }

  lemma {:induction false} NoShares(n: nat, f: Worker -> nat)
    requires f(NewWorker) == 0
    ensures Sum(map[], n, f) == 0
  {
    if n != 0 {
      NoShares(n - 1, f);
    }
  }

  lemma NewWorkersHaveNone(msg: Message)
    ensures ShareOf(msg)(NewWorker) == 0
  {
  }

  /** If only w's share changes, the sum changes by as much. */
  lemma {:induction false} OneShareChanges(ws: map<WorkerId, Worker>, ws': map<WorkerId, Worker>, n: nat, f: Worker -> nat, w: WorkerId)
    requires forall x: WorkerId :: x != w ==> f(At(ws', x)) == f(At(ws, x))
    ensures Sum(ws', n, f) - Sum(ws, n, f) == if w < n then f(At(ws', w)) - f(At(ws, w)) else 0
  {
    hide At;
    if n != 0 {
      OneShareChanges(ws, ws', n - 1, f, w);
    }
  }

  // ---- One worker's turn ----

  lemma ActivesAppend(active: seq<Active>, a: Active)
    ensures Actives(active + [a]) == Actives(active) + [a.Job()]
  {
  }

  lemma Front<T>(s: seq<T>, x: T)
    requires s != []
    ensures multiset(s)[x] == multiset(s[1..])[x] + (if s[0] == x then 1 else 0)
  {
    assert s == [s[0]] + s[1..];
  }

  /** What taking a payload does to a worker, as far as blocking jobs are concerned. */
  lemma TakeFrontEffect(worker: Worker)
    requires worker.inbox != [] && !Blocked(worker)
    ensures var (front, taken) := (worker.inbox[0], TakeFront(worker));
            && taken.inbox == worker.inbox[1..] && taken.finished == worker.finished
            && Actives(taken.active) == Actives(worker.active) + (if front.Blocking? then [(front.job, front.kind)] else [])
            && (taken.outbox == worker.outbox || taken.outbox == worker.outbox + [Marked(MarkBusy)])
  {
    hide Blocked;
  }

  lemma TakeKeepsBlocking(worker: Worker, job: JobId, kind: JobKind)
    ensures Share(TakeFront(worker), job, kind) == Share(worker, job, kind)
  {
    if worker.inbox != [] && !Blocked(worker) {
      hide Blocked, Actives, TakeFront;
      TakeFrontEffect(worker);
      Front(worker.inbox, Blocking(job, kind));
    }
  }

  lemma TakeKeepsAsync(worker: Worker, job: JobId)
    ensures AsyncShare(TakeFront(worker), job) == AsyncShare(worker, job)
  {
    hide Blocked;
    if worker.inbox != [] {
      Front(worker.inbox, Async(job));
    }
  }

  lemma TakeKeepsShare(worker: Worker, msg: Message)
    requires msg.SpawnAsync? || msg.SpawnBlocking?
    ensures ShareOf(msg)(TakeFront(worker)) == ShareOf(msg)(worker)
  {
    hide TakeFront, Share, AsyncShare;
    match msg
    case SpawnAsync(job) => TakeKeepsAsync(worker, job);
    case SpawnBlocking(job, kind) => TakeKeepsBlocking(worker, job, kind);
  }

  /** Beginning a job does not change which job it is. */
  lemma BeginKeepsShare(worker: Worker, i: nat, msg: Message)
    requires i < |worker.active| && worker.active[i].Starting? && (msg.SpawnAsync? || msg.SpawnBlocking?)
    ensures ShareOf(msg)(worker.(active := worker.active[i := Running(worker.active[i].job, WithModuleAndMemory)],
                             outbox := worker.outbox + [Marked(MarkBusy)])) == ShareOf(msg)(worker)
  {
    assert Actives(worker.active[i := Running(worker.active[i].job, WithModuleAndMemory)]) == Actives(worker.active);
  }

  lemma ActivesWithout(active: seq<Active>, i: nat, x: (JobId, JobKind))
    requires i < |active|
    ensures multiset(Actives(active))[x] ==
            multiset(Actives(active[..i] + active[i + 1..]))[x] + (if active[i].Job() == x then 1 else 0)
  {
    var jobs := Actives(active);
    assert Actives(active[..i] + active[i + 1..]) == jobs[..i] + jobs[i + 1..];
    assert jobs == jobs[..i] + [active[i].Job()] + jobs[i + 1..];
  }

  lemma FinishKeepsShare(worker: Worker, i: nat, msg: Message)
    requires i < |worker.active| && (msg.SpawnAsync? || msg.SpawnBlocking?)
    ensures ShareOf(msg)(worker.(active := worker.active[..i] + worker.active[i + 1..],
                             outbox := worker.outbox + [Marked(MarkIdle)],
                             finished := worker.finished + [worker.active[i].Job()])) == ShareOf(msg)(worker)
  {
    hide Actives;
    if msg.SpawnBlocking? {
      ActivesWithout(worker.active, i, (msg.job, msg.kind));
    }
  }

  lemma SendingShare(worker: Worker, sent: Message, msg: Message)
    requires msg.SpawnAsync? || msg.SpawnBlocking?
    ensures ShareOf(msg)(worker.(outbox := worker.outbox + [Forwarded(sent)])) ==
            ShareOf(msg)(worker) + (if sent == msg then 1 else 0)
  {
  }

  /** A worker's own turn changes its share only if it asks for the job. */
  lemma WorkerTurnShare(s: System, e: Event, msg: Message)
    requires e.Take? || e.Begin? || e.Finish? || e.WorkerSends?
    requires msg.SpawnAsync? || msg.SpawnBlocking?
    ensures ShareOf(msg)(At(Apply(s, e).workers, e.worker)) ==
            ShareOf(msg)(At(s.workers, e.worker)) + (if e.WorkerSends? && e.msg == msg then 1 else 0)
  {
    hide ShareOf, TakeFront, Deliver, Execute;
    var worker := At(s.workers, e.worker);
    match e
    case Take(_) => TakeKeepsShare(worker, msg);
    case Begin(_, i) => if i < |worker.active| && worker.active[i].Starting? { BeginKeepsShare(worker, i, msg); }
    case Finish(_, i) => if i < |worker.active| && worker.active[i].Running? { FinishKeepsShare(worker, i, msg); }
    case WorkerSends(_, sent) => SendingShare(worker, sent, msg);
  }

  lemma OutboxFrontShare(worker: Worker, msg: Message)
    requires worker.outbox != [] && (msg.SpawnAsync? || msg.SpawnBlocking?)
    ensures ShareOf(msg)(worker) ==
            ShareOf(msg)(worker.(outbox := worker.outbox[1..])) + (if worker.outbox[0] == Forwarded(msg) then 1 else 0)
  {
    hide Actives;
    Front(worker.outbox, Forwarded(msg));
  }

  /** Forwarding moves one request from the worker to the mailbox. */
  lemma ForwardShare(s: System, w: WorkerId, msg: Message)
    requires msg.SpawnAsync? || msg.SpawnBlocking?
    ensures var s' := Apply(s, Forward(w));
            multiset(s'.mailbox)[msg] + ShareOf(msg)(At(s'.workers, w)) == multiset(s.mailbox)[msg] + ShareOf(msg)(At(s.workers, w))
  {
    hide ShareOf;
    if At(s.workers, w).outbox != [] {
      OutboxFrontShare(At(s.workers, w), msg);
    }
  }

  // ---- The scheduler's turn ----

  lemma NoticesAreNoJobs(notices: seq<Payload>, job: Payload)
    requires job.IsJob() && forall i :: 0 <= i < |notices| ==> notices[i].CacheNotice?
    ensures multiset(notices)[job] == 0
  {
    assert job !in notices;
  }

  lemma ReceivingShare(worker: Worker, payloads: seq<Payload>, snapshot: map<Hash, Module>, msg: Message)
    requires msg.SpawnAsync? || msg.SpawnBlocking?
    ensures ShareOf(msg)(ReceiveAll(worker, payloads, snapshot)) ==
            ShareOf(msg)(worker)
            + multiset(payloads)[if msg.SpawnAsync? then Async(msg.job) else Blocking(msg.job, msg.kind)]
  {
  }

  lemma NoNews(worker: Worker, snapshot: map<Hash, Module>)
    ensures ReceiveAll(worker, [], snapshot) == worker
  {
  }

  /** What a turn of the scheduler adds to worker x's share: the job it executes, at the chosen worker. */
  lemma ExecuteShare(s: System, msg: Message, x: WorkerId)
    requires Inv(s) && s.mailbox != [] && (msg.SpawnAsync? || msg.SpawnBlocking?)
    ensures ShareOf(msg)(At(Apply(s, ExecuteNext).workers, x)) ==
            ShareOf(msg)(At(s.workers, x)) + (if s.mailbox[0] == msg && x == Chosen(s.pool) then 1 else 0)
  {
    hide Deliver, PostJob, For, AsMap, Notices, Chosen, ShareOf, WorkerOk, Broadcast, Insert, Without;
    var worker := At(s.workers, x);
    var posts := Execute(s.pool, s.mailbox[0]).1;
    var snapshot := AsMap(s.pool.cached);
    DeliverReaches(s.workers, posts, snapshot, x);
    ReceivingShare(worker, For(posts, x), snapshot, msg);
    PostsShare(s.pool, s.mailbox[0], msg, x);
  }

  lemma PostsShare(p: Pool, executed: Message, msg: Message, x: WorkerId)
    requires PoolOk(p) && (msg.SpawnAsync? || msg.SpawnBlocking?)
    ensures multiset(For(Execute(p, executed).1, x))[if msg.SpawnAsync? then Async(msg.job) else Blocking(msg.job, msg.kind)] ==
            if executed == msg && x == Chosen(p) then 1 else 0
  {
    hide PostJob, For, Notices, Chosen, Broadcast, Insert, Without;
    var job := if msg.SpawnAsync? then Async(msg.job) else Blocking(msg.job, msg.kind);
    NoticesAreNotices(p.cached);
    NoticesAreNoJobs(Notices(p.cached), job);
    match executed
    case SpawnAsync(j) => JobFor(p, Async(j), x);
    case SpawnBlocking(j, k) => JobFor(p, Blocking(j, k), x);
    case CacheModule(hash, mod) => BroadcastShare(p, hash, mod, x, job);
    case _ => NothingFor(x);
  }

  lemma NothingFor(x: WorkerId)
    ensures For([], x) == []
  {
  }

  lemma BroadcastShare(p: Pool, hash: Hash, mod: Module, x: WorkerId, job: Payload)
    requires PoolOk(p) && job.IsJob()
    ensures multiset(For(Broadcast(p.idle + p.busy, hash, mod), x))[job] == 0
  {
    hide For, Broadcast;
    var ws := p.idle + p.busy;
    assert forall i, j :: 0 <= i < j < |ws| ==> ws[i] != ws[j];
    BroadcastFor(ws, hash, mod, x);
  }

  // ---- Every run ----

  /** One event: what is asked for shows up in the mailbox or with a worker, and nothing else changes. */
  lemma StepConserves(s: System, e: Event, n: nat, msg: Message)
    requires Inv(s) && Below(Apply(s, e).workers, n) && (msg.SpawnAsync? || msg.SpawnBlocking?)
    ensures var s' := Apply(s, e);
            multiset(s'.mailbox)[msg] + Sum(s'.workers, n, ShareOf(msg)) ==
            multiset(s.mailbox)[msg] + Sum(s.workers, n, ShareOf(msg))
            + (if (e.Request? || e.WorkerSends?) && e.msg == msg then 1 else 0)
  {
    hide Inv, Apply, ShareOf, Sum, Execute, Below;
    match e
    case Request(_) => RequestConserves(s, e.msg, n, msg);
    case ExecuteNext => ExecuteConserves(s, n, msg);
    case Forward(w) => ForwardConserves(s, w, n, msg);
    case _ => WorkerTurnConserves(s, e, n, msg);
  }

  lemma RequestConserves(s: System, asked: Message, n: nat, msg: Message)
    requires msg.SpawnAsync? || msg.SpawnBlocking?
    ensures var s' := Apply(s, Request(asked));
            multiset(s'.mailbox)[msg] + Sum(s'.workers, n, ShareOf(msg)) ==
            multiset(s.mailbox)[msg] + Sum(s.workers, n, ShareOf(msg)) + (if asked == msg then 1 else 0)
  {
    hide Sum, Execute, Deliver;
  }

  lemma ExecuteConserves(s: System, n: nat, msg: Message)
    requires Inv(s) && Below(Apply(s, ExecuteNext).workers, n) && (msg.SpawnAsync? || msg.SpawnBlocking?)
    ensures var s' := Apply(s, ExecuteNext);
            multiset(s'.mailbox)[msg] + Sum(s'.workers, n, ShareOf(msg)) ==
            multiset(s.mailbox)[msg] + Sum(s.workers, n, ShareOf(msg))
  {
    hide Inv, ShareOf, Sum, Execute, Deliver, Below, At, Chosen, AsMap;
    if s.mailbox != [] {
      var s' := Apply(s, ExecuteNext);
      forall x: WorkerId ensures ShareOf(msg)(At(s'.workers, x)) ==
                                 ShareOf(msg)(At(s.workers, x)) + (if s.mailbox[0] == msg && x == Chosen(s.pool) then 1 else 0) {
        ExecuteShare(s, msg, x);
      }
      Front(s.mailbox, msg);
      OneShareChanges(s.workers, s'.workers, n, ShareOf(msg), Chosen(s.pool));
      if s.mailbox[0] == msg {
        HolderIsBelow(s'.workers, n, Chosen(s.pool), msg);
      }
    }
  }

  lemma HolderIsBelow(workers: map<WorkerId, Worker>, n: nat, w: WorkerId, msg: Message)
    requires Below(workers, n) && (msg.SpawnAsync? || msg.SpawnBlocking?) && ShareOf(msg)(At(workers, w)) > 0
    ensures w < n
  {
  }

  lemma ForwardConserves(s: System, w: WorkerId, n: nat, msg: Message)
    requires Inv(s) && Below(Apply(s, Forward(w)).workers, n) && (msg.SpawnAsync? || msg.SpawnBlocking?)
    ensures var s' := Apply(s, Forward(w));
            multiset(s'.mailbox)[msg] + Sum(s'.workers, n, ShareOf(msg)) ==
            multiset(s.mailbox)[msg] + Sum(s.workers, n, ShareOf(msg))
  {
    hide Inv, ShareOf, Sum, OnMessage;
    ForwardShare(s, w, msg);
    OneShareChanges(s.workers, Apply(s, Forward(w)).workers, n, ShareOf(msg), w);
  }

  lemma WorkerTurnConserves(s: System, e: Event, n: nat, msg: Message)
    requires Below(Apply(s, e).workers, n) && (e.Take? || e.Begin? || e.Finish? || e.WorkerSends?)
    requires msg.SpawnAsync? || msg.SpawnBlocking?
    ensures var s' := Apply(s, e);
            multiset(s'.mailbox)[msg] + Sum(s'.workers, n, ShareOf(msg)) ==
            multiset(s.mailbox)[msg] + Sum(s.workers, n, ShareOf(msg))
            + (if e.WorkerSends? && e.msg == msg then 1 else 0)
  {
    hide ShareOf, Sum, TakeFront, Execute, Deliver;
    WorkerTurnShare(s, e, msg);
    OneShareChanges(s.workers, Apply(s, e).workers, n, ShareOf(msg), e.worker);
  }

  lemma WorkersStay(s: System, e: Event)
    ensures s.workers.Keys <= Apply(s, e).workers.Keys
  {
    if e.ExecuteNext? && s.mailbox != [] {
      DeliverKeeps(s.workers, Execute(s.pool, s.mailbox[0]).1, AsMap(s.pool.cached));
    }
  }

  lemma {:induction false} DeliverKeeps(workers: map<WorkerId, Worker>, posts: seq<Post>, snapshot: map<Hash, Module>)
    ensures workers.Keys <= Deliver(workers, posts, snapshot).Keys
  {
    if posts != [] {
      DeliverKeeps(workers, posts[..|posts| - 1], snapshot);
    }
  }

  /**
   Every job ever asked for, by a client or by code on a worker, is in exactly one place: in the
   mailbox, or with one worker, which has not forwarded it, has it waiting, runs it, or has run it
   (see Share and AsyncShare). It is there under its own id and kind, as often as it was asked for.
   */
  lemma {:induction false} RequestsAreConserved(events: seq<Event>, n: nat, msg: Message)
    requires Below(Reached(events).workers, n) && (msg.SpawnAsync? || msg.SpawnBlocking?)
    ensures var s := Reached(events);
            Asked(events, msg) == multiset(s.mailbox)[msg] + Sum(s.workers, n, ShareOf(msg))
  {
    hide Inv, Apply, ShareOf, Sum;
    if events == [] {
      NewWorkersHaveNone(msg);
      NoShares(n, ShareOf(msg));
    } else {
      var front := events[..|events| - 1];
      var e := events[|events| - 1];
      ReachedInv(front);
      WorkersStay(Reached(front), e);
      RequestsAreConserved(front, n, msg);
      StepConserves(Reached(front), e, n, msg);
    }
  }

  // ---- Each worker runs what it was assigned, in order ----

  function BlockingJobs(payloads: seq<Payload>): seq<(JobId, JobKind)> {
    if payloads == [] then [] else
    BlockingJobs(payloads[..|payloads| - 1])
    + (match payloads[|payloads| - 1] case Blocking(job, kind) => [(job, kind)] case _ => [])
  }

  function AsyncJobs(payloads: seq<Payload>): seq<JobId> {
    if payloads == [] then [] else
    AsyncJobs(payloads[..|payloads| - 1]) + (match payloads[|payloads| - 1] case Async(job) => [job] case _ => [])
  }

  function AssignedTo(trace: seq<Deed>, w: WorkerId): seq<(JobId, JobKind)> {
    if trace == [] then [] else
    AssignedTo(trace[..|trace| - 1], w)
    + (match trace[|trace| - 1] case Assigned(x, job, kind) => if x == w then [(job, kind)] else [] case _ => [])
  }

  lemma OneMoreJob(payloads: seq<Payload>, payload: Payload)
    ensures BlockingJobs(payloads + [payload]) ==
            BlockingJobs(payloads) + (match payload case Blocking(job, kind) => [(job, kind)] case _ => [])
    ensures AsyncJobs(payloads + [payload]) == AsyncJobs(payloads) + (match payload case Async(job) => [job] case _ => [])
  {
    assert (payloads + [payload])[..|payloads|] == payloads;
  }

  lemma {:induction false} JobsOfConcat(a: seq<Payload>, b: seq<Payload>)
    ensures BlockingJobs(a + b) == BlockingJobs(a) + BlockingJobs(b)
    ensures AsyncJobs(a + b) == AsyncJobs(a) + AsyncJobs(b)
  {
    if b == [] {
      assert a + b == a;
    } else {
      hide BlockingJobs, AsyncJobs;
      var (front, last) := (b[..|b| - 1], b[|b| - 1]);
      JobsOfConcat(a, front);
      OneMoreJob(a + front, last);
      OneMoreJob(front, last);
      assert a + b == a + front + [last] && b == front + [last];
    }
  }

  lemma {:induction false} NoticesHoldNoJobs(notices: seq<Payload>)
    requires forall i :: 0 <= i < |notices| ==> notices[i].CacheNotice?
    ensures BlockingJobs(notices) == [] && AsyncJobs(notices) == []
  {
    if notices != [] {
      NoticesHoldNoJobs(notices[..|notices| - 1]);
    }
  }

  /** Jobs the worker has taken, and then jobs it will take, are the jobs it was sent. */
  ghost predicate InOrder(worker: Worker) {
    && BlockingJobs(worker.sent) == worker.finished + Actives(worker.active) + BlockingJobs(worker.inbox)
    && AsyncJobs(worker.sent) == worker.spawned + AsyncJobs(worker.inbox)
  }

  lemma FrontJob(inbox: seq<Payload>)
    requires inbox != []
    ensures BlockingJobs(inbox) == BlockingJobs([inbox[0]]) + BlockingJobs(inbox[1..])
    ensures AsyncJobs(inbox) == AsyncJobs([inbox[0]]) + AsyncJobs(inbox[1..])
  {
    JobsOfConcat([inbox[0]], inbox[1..]);
    assert inbox == [inbox[0]] + inbox[1..];
  }

  lemma OneJob(payload: Payload)
    ensures BlockingJobs([payload]) == if payload.Blocking? then [(payload.job, payload.kind)] else []
    ensures AsyncJobs([payload]) == if payload.Async? then [payload.job] else []
  {
  }

  lemma TakeKeepsJobOrder(worker: Worker)
    requires InOrder(worker)
    ensures InOrder(TakeFront(worker))
  {
    hide Blocked, Actives, BlockingJobs, AsyncJobs;
    if worker.inbox != [] {
      FrontJob(worker.inbox);
      OneJob(worker.inbox[0]);
      if worker.inbox[0].Blocking? {
        var (job, kind) := (worker.inbox[0].job, worker.inbox[0].kind);
        ActivesAppend(worker.active, if kind.WithModuleAndMemory? then Starting(job) else Running(job, kind));
      }
    }
  }

  lemma FinishKeepsJobOrder(worker: Worker, i: nat)
    requires InOrder(worker) && i < |worker.active| <= 1
    ensures InOrder(worker.(active := worker.active[..i] + worker.active[i + 1..],
                            outbox := worker.outbox + [Marked(MarkIdle)],
                            finished := worker.finished + [worker.active[i].Job()]))
  {
    hide BlockingJobs, AsyncJobs;
    assert worker.active[..i] + worker.active[i + 1..] == [];
    assert Actives(worker.active) == [worker.active[i].Job()];
  }

  lemma BeginKeepsJobOrder(worker: Worker, i: nat)
    requires InOrder(worker) && i < |worker.active| && worker.active[i].Starting?
    ensures InOrder(worker.(active := worker.active[i := Running(worker.active[i].job, WithModuleAndMemory)],
                            outbox := worker.outbox + [Marked(MarkBusy)]))
  {
    hide BlockingJobs, AsyncJobs;
    assert Actives(worker.active[i := Running(worker.active[i].job, WithModuleAndMemory)]) == Actives(worker.active);
  }

  lemma ReceiveKeepsJobOrder(worker: Worker, payloads: seq<Payload>, snapshot: map<Hash, Module>)
    requires InOrder(worker)
    ensures InOrder(ReceiveAll(worker, payloads, snapshot))
    ensures BlockingJobs(ReceiveAll(worker, payloads, snapshot).sent) == BlockingJobs(worker.sent) + BlockingJobs(payloads)
  {
    hide BlockingJobs, AsyncJobs, Actives;
    JobsOfConcat(worker.sent, payloads);
    JobsOfConcat(worker.inbox, payloads);
  }

  lemma OtherTurnsKeepJobOrder(s: System, e: Event, w: WorkerId)
    requires InOrder(At(s.workers, w)) && !e.ExecuteNext? && |At(s.workers, w).active| <= 1
    ensures InOrder(At(Apply(s, e).workers, w))
  {
    hide InOrder, TakeFront, Execute, Deliver, Blocked, Below, OnMessage, Share, Unfinished;
    var worker := At(s.workers, w);
    match e
    case Take(_) => TakeKeepsJobOrder(worker);
    case Begin(_, i) => if i < |worker.active| && worker.active[i].Starting? { BeginKeepsJobOrder(worker, i); }
    case Finish(_, i) => if i < |worker.active| && worker.active[i].Running? { FinishKeepsJobOrder(worker, i); }
    case WorkerSends(_, msg) => OutboxIsNoMatter(worker, worker.outbox + [Forwarded(msg)]);
    case Forward(_) => if worker.outbox != [] { OutboxIsNoMatter(worker, worker.outbox[1..]); }
    case Request(_) =>
  }

  lemma OtherTurnsAssignNothing(s: System, e: Event)
    requires !e.ExecuteNext?
    ensures Apply(s, e).trace == s.trace
  {
  }

  lemma OutboxIsNoMatter(worker: Worker, outbox: seq<Note>)
    ensures InOrder(worker.(outbox := outbox)) == InOrder(worker)
  {
  }

  lemma PostedJobs(p: Pool, job: Payload, w: WorkerId)
    requires job.IsJob()
    ensures BlockingJobs(For(PostJob(p, job).1, w)) ==
            if w == Chosen(p) && job.Blocking? then [(job.job, job.kind)] else []
  {
    hide PostJob, For, Notices, BlockingJobs, Chosen;
    var notices := if p.idle == [] then Notices(p.cached) else [];
    JobFor(p, job, w);
    NoticesAreNotices(p.cached);
    NoticesHoldNoJobs(notices);
    JobsOfConcat(notices, [job]);
    OneJob(job);
    NothingToDo(w);
  }

  lemma NothingToDo(w: WorkerId)
    ensures BlockingJobs([]) == [] && AssignedTo([], w) == []
  {
  }

  lemma OneDeed(p: Pool, msg: Message, w: WorkerId)
    requires msg.SpawnBlocking?
    ensures AssignedTo(DeedsOf(p, msg), w) == if w == Chosen(p) then [(msg.job, msg.kind)] else []
  {
  }

  lemma OtherDeeds(p: Pool, msg: Message, w: WorkerId)
    requires !msg.SpawnBlocking?
    ensures AssignedTo(DeedsOf(p, msg), w) == []
  {
  }

  /** The blocking jobs a turn of the scheduler posts to w are those its trace says. */
  lemma PostsAreTraced(p: Pool, msg: Message, w: WorkerId)
    requires PoolOk(p)
    ensures BlockingJobs(For(Execute(p, msg).1, w)) == AssignedTo(DeedsOf(p, msg), w)
  {
    hide PostJob, For, Notices, Broadcast, Insert, Without, PoolOk, BlockingJobs, AssignedTo;
    NothingToDo(w);
    if msg.SpawnBlocking? { OneDeed(p, msg, w); } else { OtherDeeds(p, msg, w); }
    match msg
    case SpawnAsync(job) => PostedJobs(p, Async(job), w);
    case SpawnBlocking(job, kind) => PostedJobs(p, Blocking(job, kind), w);
    case CacheModule(hash, mod) => BroadcastsHoldNoJobs(p, hash, mod, w);
    case _ => NothingFor(w);
  }

  lemma BroadcastsHoldNoJobs(p: Pool, hash: Hash, mod: Module, w: WorkerId)
    requires PoolOk(p)
    ensures BlockingJobs(For(Broadcast(p.idle + p.busy, hash, mod), w)) == []
  {
    hide For, Broadcast;
    var ws := p.idle + p.busy;
    assert forall i, j :: 0 <= i < j < |ws| ==> ws[i] != ws[j];
    BroadcastFor(ws, hash, mod, w);
  }

  lemma AssignedConcat(trace: seq<Deed>, deeds: seq<Deed>, w: WorkerId)
    requires |deeds| <= 1
    ensures AssignedTo(trace + deeds, w) == AssignedTo(trace, w) + AssignedTo(deeds, w)
  {
    if deeds == [] {
      assert trace + deeds == trace;
    } else {
      assert (trace + deeds)[..|trace|] == trace;
      assert deeds[..0] == [];
    }
  }

  lemma ExecuteKeepsJobOrder(s: System, w: WorkerId)
    requires PoolOk(s.pool) && InOrder(At(s.workers, w)) && s.mailbox != []
    requires BlockingJobs(At(s.workers, w).sent) == AssignedTo(s.trace, w)
    ensures var s' := Apply(s, ExecuteNext);
            InOrder(At(s'.workers, w)) && BlockingJobs(At(s'.workers, w).sent) == AssignedTo(s'.trace, w)
  {
    hide InOrder, Execute, Deliver, For, PoolOk, BlockingJobs, AssignedTo, AsMap;
    var posts := Execute(s.pool, s.mailbox[0]).1;
    var snapshot := AsMap(s.pool.cached);
    DeliverReaches(s.workers, posts, snapshot, w);
    ReceiveKeepsJobOrder(At(s.workers, w), For(posts, w), snapshot);
    PostsAreTraced(s.pool, s.mailbox[0], w);
    AssignedConcat(s.trace, DeedsOf(s.pool, s.mailbox[0]), w);
  }

  /**
   The blocking jobs a worker was sent are, in order, those the scheduler assigned to it: first the
   ones it has finished, then the one it is on, then the ones still in its inbox, each of the kind
   that was asked for. Async jobs keep their order as well.
   */
  lemma {:induction false} JobsRunInOrder(events: seq<Event>, w: WorkerId)
    ensures var s := Reached(events); var worker := At(s.workers, w);
            && BlockingJobs(worker.sent) == AssignedTo(s.trace, w)
            && BlockingJobs(worker.sent) == worker.finished + Actives(worker.active) + BlockingJobs(worker.inbox)
            && AsyncJobs(worker.sent) == worker.spawned + AsyncJobs(worker.inbox)
  {
    if events != [] {
      hide Apply, PoolOk, WorkerOk, MailMarks, OutMarks, NothingBehindBlocking, AssignedTo, BlockingJobs, AsyncJobs, Actives;
      var front := events[..|events| - 1];
      var s := Reached(front);
      JobsRunInOrder(front, w);
      ReachedInv(front);
      OneBlockingJobPerWorker(front, w);
      PoolIsOk(s);
      if !events[|events| - 1].ExecuteNext? {
        OtherTurnsKeepJobOrder(s, events[|events| - 1], w);
        OtherTurnsSendNothing(s, events[|events| - 1], w);
        OtherTurnsAssignNothing(s, events[|events| - 1]);
      } else if s.mailbox != [] {
        ExecuteKeepsJobOrder(s, w);
      } else {
        NoTurn(s);
      }
    }
  }

  lemma NoTurn(s: System)
    requires s.mailbox == []
    ensures Apply(s, ExecuteNext) == s
  {
  }

  // ---- The modules ----

  /** The modules of the CacheModule messages the scheduler has executed, the latest for each hash. */
  function ModulesExecuted(events: seq<Event>): map<Hash, Module> {
    if events == [] then map[] else
    var front := events[..|events| - 1];
    var mailbox := Reached(front).mailbox;
    if events[|events| - 1].ExecuteNext? && mailbox != [] && mailbox[0].CacheModule?
    then ModulesExecuted(front)[mailbox[0].hash := mailbox[0].mod]
    else ModulesExecuted(front)
  }

  lemma PoolModules(s: System, e: Event)
    requires Inv(s)
    ensures AsMap(Apply(s, e).pool.cached) ==
            if e.ExecuteNext? && s.mailbox != [] && s.mailbox[0].CacheModule?
            then AsMap(s.pool.cached)[s.mailbox[0].hash := s.mailbox[0].mod]
            else AsMap(s.pool.cached)
  {
    hide AsMap, Insert, Deliver, TakeFront;
    if e.ExecuteNext? && s.mailbox != [] && s.mailbox[0].CacheModule? {
      InsertUpdatesMap(s.pool.cached, s.mailbox[0].hash, s.mailbox[0].mod);
    }
  }

  /** The cache holds exactly the modules of the CacheModule messages executed so far. */
  lemma {:induction false} CacheIsWhatWasExecuted(events: seq<Event>)
    ensures AsMap(Reached(events).pool.cached) == ModulesExecuted(events)
  {
    hide Inv, Apply;
    if events != [] {
      var front := events[..|events| - 1];
      CacheIsWhatWasExecuted(front);
      ReachedInv(front);
      PoolModules(Reached(front), events[|events| - 1]);
    }
  }
}
