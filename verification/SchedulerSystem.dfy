/**
 The scheduler together with its workers and the FIFO channels between them
 (src/tasks/scheduler.rs, src/tasks/thread_pool_worker.rs, src/tasks/worker_handle.rs).
 Any order of requests, scheduler turns and worker turns is a run.
 */
module SchedulerSystem {
  import opened Scheduler

  datatype Mark = MarkBusy | MarkIdle

  /** A WorkerMessage on its way to the scheduler. */
  datatype Note = Marked(mark: Mark) | Forwarded(msg: Message)

  /** A blocking job a worker has taken: waiting for its trigger, or inside its busy guard. */
  datatype Active = Starting(job: JobId) | Running(job: JobId, kind: JobKind)
  {
    function Job(): (JobId, JobKind) { if Starting? then (job, WithModuleAndMemory) else (job, kind) }
  }

  /**
   `sent` is every payload ever posted to the worker, `snapshots[i]` the scheduler's modules when
   `sent[i]` was posted, `taken` how many of them the worker has taken from its inbox. `spawned` is
   every async job it has handed to its event loop, `finished` every blocking job it has ended.
   */
  datatype Worker = Worker(
    inbox: seq<Payload>, outbox: seq<Note>, active: seq<Active>,
    sent: seq<Payload>, snapshots: seq<map<Hash, Module>>, taken: nat,
    spawned: seq<JobId>, finished: seq<(JobId, JobKind)>)

  const NewWorker: Worker := Worker([], [], [], [], [], 0, [], [])

  /** What the scheduler did, in order, as far as blocking jobs are concerned. */
  datatype Deed = Assigned(worker: WorkerId, job: JobId, kind: JobKind) | IdleSeen(worker: WorkerId)

  datatype System = System(pool: Pool, mailbox: seq<Message>, workers: map<WorkerId, Worker>, trace: seq<Deed>)

  datatype Event =
    | Request(msg: Message)                       // a client sends on the scheduler's own thread
    | ExecuteNext                                 // the scheduler executes the message at the front
    | Take(worker: WorkerId)                      // a worker handles the payload at the front of its inbox
    | Begin(worker: WorkerId, i: nat)             // a trigger resolved: the busy guard is created
    | Finish(worker: WorkerId, i: nat)            // a blocking job ended: the busy guard is dropped
    | WorkerSends(worker: WorkerId, msg: Message) // code on a worker sends to the scheduler
    | Forward(worker: WorkerId)                   // on_message hands a worker's message to the mailbox

  function At(workers: map<WorkerId, Worker>, w: WorkerId): Worker {
    if w in workers then workers[w] else NewWorker
  }

  function Receive(worker: Worker, payload: Payload, snapshot: map<Hash, Module>): Worker {
    worker.(inbox := worker.inbox + [payload], sent := worker.sent + [payload], snapshots := worker.snapshots + [snapshot])
  }

  function Deliver(workers: map<WorkerId, Worker>, posts: seq<Post>, snapshot: map<Hash, Module>): map<WorkerId, Worker> {
    if posts == [] then workers else
    var ws := Deliver(workers, posts[..|posts| - 1], snapshot);
    var post := posts[|posts| - 1];
    ws[post.to := Receive(At(ws, post.to), post.payload, snapshot)]
  }

  function DeedsOf(p: Pool, msg: Message): seq<Deed> {
    match msg
    case SpawnBlocking(job, kind) => [Assigned(if p.idle == [] then p.nextId else p.idle[0], job, kind)]
    case WorkerIdle(w) => [IdleSeen(w)]
    case _ => []
  }

  /** A worker whose thread is inside a synchronous job cannot take its next message. */
  predicate Blocked(worker: Worker) {
    exists i :: 0 <= i < |worker.active| && worker.active[i].Running? && !worker.active[i].kind.WithModuleAndMemory?
  }

  function TakeFront(worker: Worker): Worker {
    if worker.inbox == [] || Blocked(worker) then worker else
    var rest := worker.(inbox := worker.inbox[1..], taken := worker.taken + 1);
    match worker.inbox[0]
    case Blocking(job, WithModuleAndMemory) => rest.(active := rest.active + [Starting(job)])
    case Blocking(job, kind) => rest.(active := rest.active + [Running(job, kind)], outbox := rest.outbox + [Marked(MarkBusy)])
    case Async(job) => rest.(spawned := rest.spawned + [job])
    case CacheNotice(_, _) => rest
  }

  function Update(s: System, w: WorkerId, worker: Worker): System {
    s.(workers := s.workers[w := worker])
  }

  /** `on_message`: marks become bookkeeping messages about the worker they came from. */
  function OnMessage(w: WorkerId, note: Note): Message {
    match note
    case Marked(MarkBusy) => WorkerBusy(w)
    case Marked(MarkIdle) => WorkerIdle(w)
    case Forwarded(msg) => msg
  }

  function Apply(s: System, e: Event): System {
    match e
    case Request(msg) =>
      if msg.IsRequest() then s.(mailbox := s.mailbox + [msg]) else s
    case ExecuteNext =>
      if s.mailbox == [] then s else
      var (pool, posts) := Execute(s.pool, s.mailbox[0]);
      System(pool, s.mailbox[1..], Deliver(s.workers, posts, AsMap(s.pool.cached)), s.trace + DeedsOf(s.pool, s.mailbox[0]))
    case Take(w) =>
      Update(s, w, TakeFront(At(s.workers, w)))
    case Begin(w, i) =>
      var worker := At(s.workers, w);
      if i < |worker.active| && worker.active[i].Starting?
      then Update(s, w, worker.(active := worker.active[i := Running(worker.active[i].job, WithModuleAndMemory)],
                                outbox := worker.outbox + [Marked(MarkBusy)]))
      else s
    case Finish(w, i) =>
      var worker := At(s.workers, w);
      if i < |worker.active| && worker.active[i].Running?
      then Update(s, w, worker.(active := worker.active[..i] + worker.active[i + 1..],
                                outbox := worker.outbox + [Marked(MarkIdle)],
                                finished := worker.finished + [worker.active[i].Job()]))
      else s
    case WorkerSends(w, msg) =>
      var worker := At(s.workers, w);
      if msg.IsRequest() then Update(s, w, worker.(outbox := worker.outbox + [Forwarded(msg)])) else s
    case Forward(w) =>
      var worker := At(s.workers, w);
      if worker.outbox == [] then s
      else Update(s, w, worker.(outbox := worker.outbox[1..])).(mailbox := s.mailbox + [OnMessage(w, worker.outbox[0])])
  }

  function Reached(events: seq<Event>): System {
    if events == [] then System(EmptyPool, [], map[], [])
    else Apply(Reached(events[..|events| - 1]), events[|events| - 1])
  }
}
