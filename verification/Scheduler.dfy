/**
 The scheduler actor (src/tasks/scheduler.rs): which worker gets which payload, how workers
 move between the idle and busy queues, and the module cache every worker is told about.
 */
module Scheduler {
  import opened Words

  type WorkerId = nat
  type JobId = nat
  type Hash = nat
  type Module = nat

  /** How a blocking job runs on the worker; the last kind waits for its trigger before it blocks. */
  datatype JobKind = Thunk | WithModule | WithModuleAndMemory

  datatype Payload =
    | Async(job: JobId)
    | Blocking(job: JobId, kind: JobKind)
    | CacheNotice(hash: Hash, mod: Module)
  {
    predicate WouldBlock() { Blocking? }
    predicate IsJob() { Async? || Blocking? }
  }

  datatype Message =
    | SpawnAsync(job: JobId)
    | SpawnBlocking(job: JobId, kind: JobKind)
    | CacheModule(hash: Hash, mod: Module)
    | WorkerBusy(worker: WorkerId)
    | WorkerIdle(worker: WorkerId)
  {
    /** Sent by client code, as opposed to the scheduler's own bookkeeping. */
    predicate IsRequest() { SpawnAsync? || SpawnBlocking? || CacheModule? }
  }

  /** A payload posted to a worker. */
  datatype Post = Post(to: WorkerId, payload: Payload)

  /** The actor's fields; `cached` is the ordered map of modules, least hash first. */
  datatype Pool = Pool(idle: seq<WorkerId>, busy: seq<WorkerId>, cached: seq<(Hash, Module)>, nextId: WorkerId)

  const EmptyPool: Pool := Pool([], [], [], 1)

  // ---- Specification functions ----

  /** `BTreeMap::insert`. */
  function Insert(cached: seq<(Hash, Module)>, hash: Hash, mod: Module): seq<(Hash, Module)> {
    if cached == [] then [(hash, mod)]
    else if hash < cached[0].0 then [(hash, mod)] + cached
    else if hash == cached[0].0 then [(hash, mod)] + cached[1..]
    else [cached[0]] + Insert(cached[1..], hash, mod)
  }

  /** The CacheModule notice for every listed worker. */
  function Broadcast(workers: seq<WorkerId>, hash: Hash, mod: Module): seq<Post> {
    seq(|workers|, i requires 0 <= i < |workers| => Post(workers[i], CacheNotice(hash, mod)))
  }

  /** One CacheModule notice per cached module, for one worker. */
  function Priming(w: WorkerId, cached: seq<(Hash, Module)>): seq<Post> {
    seq(|cached|, i requires 0 <= i < |cached| => Post(w, CacheNotice(cached[i].0, cached[i].1)))
  }

  function IndexOf(ws: seq<WorkerId>, w: WorkerId): (i: nat)
    ensures i <= |ws| && (i < |ws| <==> w in ws) && (i < |ws| ==> ws[i] == w)
    ensures forall j :: 0 <= j < i ==> ws[j] != w
  {
    if ws == [] then 0 else if ws[0] == w then 0 else 1 + IndexOf(ws[1..], w)
  }

  function Without(ws: seq<WorkerId>, w: WorkerId): seq<WorkerId> {
    var i := IndexOf(ws, w);
    if i < |ws| then ws[..i] + ws[i + 1..] else ws
  }

  /** `post_message`: the front idle worker, or a new one primed with every cached module. */
  function PostJob(p: Pool, payload: Payload): (Pool, seq<Post>) {
    var isNew := p.idle == [];
    var w := if isNew then p.nextId else p.idle[0];
    var idle := if isNew then [] else p.idle[1..];
    var posts := (if isNew then Priming(w, p.cached) else []) + [Post(w, payload)];
    (Pool(if payload.WouldBlock() then idle else idle + [w],
          if payload.WouldBlock() then p.busy + [w] else p.busy,
          p.cached,
          if isNew then p.nextId + 1 else p.nextId),
     posts)
  }

  function Execute(p: Pool, msg: Message): (Pool, seq<Post>) {
    match msg
    case SpawnAsync(job) => PostJob(p, Async(job))
    case SpawnBlocking(job, kind) => PostJob(p, Blocking(job, kind))
    case CacheModule(hash, mod) =>
      (p.(cached := Insert(p.cached, hash, mod)), Broadcast(p.idle + p.busy, hash, mod))
    case WorkerBusy(w) =>
      (if w in p.idle then p.(idle := Without(p.idle, w), busy := p.busy + [w]) else p, [])
    case WorkerIdle(w) =>
      (if w in p.busy then p.(busy := Without(p.busy, w), idle := p.idle + [w]) else p, [])
  }

  // ---- The actor ----

  class SchedulerState {
    var idle: seq<WorkerId>
    var busy: seq<WorkerId>
    var cachedModules: seq<(Hash, Module)>
    var nextId: WorkerId
    /** Everything posted to workers so far, oldest first. */
    var posted: seq<Post>

    function AsPool(): Pool
      reads this
    {
      Pool(idle, busy, cachedModules, nextId)
    }

    constructor ()
      ensures AsPool() == EmptyPool && posted == []
    {
      idle, busy, cachedModules, nextId, posted := [], [], [], 1, [];
    }

    method Send(w: WorkerId, payload: Payload)
      modifies this`posted
      ensures posted == old(posted) + [Post(w, payload)]
    {
      posted := posted + [Post(w, payload)];
    }

    method StartWorker() returns (w: WorkerId)
      modifies this`nextId, this`posted
      ensures w == old(nextId) && nextId == w + 1
      ensures posted == old(posted) + Priming(w, cachedModules)
    {
      w := nextId;
      nextId := nextId + 1;
      var modules := cachedModules;
      for i := 0 to |modules|
        invariant posted == old(posted) + Priming(w, modules)[..i]
        invariant w == old(nextId) && nextId == w + 1 && modules == cachedModules
      {
        Send(w, CacheNotice(modules[i].0, modules[i].1));
      }
      assert Priming(w, modules)[..|modules|] == Priming(w, modules);
    }

    method NextAvailableWorker() returns (w: WorkerId)
      modifies this`idle, this`nextId, this`posted
      ensures old(idle) != [] ==> [w] + idle == old(idle) && nextId == old(nextId) && posted == old(posted)
      ensures old(idle) == [] ==> idle == [] && w == old(nextId) && nextId == w + 1
                                  && posted == old(posted) + Priming(w, cachedModules)
    {
      if idle != [] {
        w := idle[0];
        idle := idle[1..];
        return;
      }
      w := StartWorker();
    }

    method PostMessage(payload: Payload)
      modifies this
      ensures AsPool() == PostJob(old(AsPool()), payload).0
      ensures posted == old(posted) + PostJob(old(AsPool()), payload).1
    {
      var w := NextAvailableWorker();
      assert old(idle) != [] ==> idle == old(idle)[1..] && w == old(idle)[0];
      Send(w, payload);
      if payload.WouldBlock() {
        busy := busy + [w];
      } else {
        idle := idle + [w];
      }
    }

    method Broadcasting(hash: Hash, mod: Module)
      modifies this`posted
      ensures posted == old(posted) + Broadcast(idle + busy, hash, mod)
    {
      var workers := idle + busy;
      for i := 0 to |workers|
        invariant posted == old(posted) + Broadcast(workers, hash, mod)[..i]
      {
        Send(workers[i], CacheNotice(hash, mod));
      }
      assert Broadcast(workers, hash, mod)[..|workers|] == Broadcast(workers, hash, mod);
    }

    /** `execute`, for the messages that concern the pool itself. */
    method ExecuteMessage(msg: Message)
      modifies this
      ensures AsPool() == Execute(old(AsPool()), msg).0
      ensures posted == old(posted) + Execute(old(AsPool()), msg).1
    {
      match msg
      case SpawnAsync(job) =>
        PostMessage(Async(job));
      case SpawnBlocking(job, kind) =>
        PostMessage(Blocking(job, kind));
      case CacheModule(hash, mod) =>
        cachedModules := Insert(cachedModules, hash, mod);
        Broadcasting(hash, mod);
      case WorkerBusy(w) =>
        idle, busy := MoveWorker(w, idle, busy);
      case WorkerIdle(w) =>
        busy, idle := MoveWorker(w, busy, idle);
    }
  }

  /** `move_worker`: search, remove and append; nothing if the worker is not there. */
  method MoveWorker(w: WorkerId, from: seq<WorkerId>, to: seq<WorkerId>) returns (from': seq<WorkerId>, to': seq<WorkerId>)
    ensures w in from ==> from' == Without(from, w) && to' == to + [w]
    ensures w !in from ==> from' == from && to' == to
  {
    var ix := 0;
    while ix < |from| && from[ix] != w
      invariant ix <= |from| && forall j :: 0 <= j < ix ==> from[j] != w
    {
      ix := ix + 1;
    }
    if ix < |from| {
      return from[..ix] + from[ix + 1..], to + [w];
    }
    return from, to;
  }

  // ---- What the ordered map is ----

  function AsMap(cached: seq<(Hash, Module)>): map<Hash, Module> {
    if cached == [] then map[] else AsMap(cached[..|cached| - 1])[cached[|cached| - 1].0 := cached[|cached| - 1].1]
  }

  ghost predicate Sorted(cached: seq<(Hash, Module)>) {
    forall i, j :: 0 <= i < j < |cached| ==> cached[i].0 < cached[j].0
  }

  lemma {:induction false} InMap(cached: seq<(Hash, Module)>, hash: Hash, mod: Module)
    requires Sorted(cached)
    ensures (hash, mod) in cached <==> hash in AsMap(cached) && AsMap(cached)[hash] == mod
  {
    if cached != [] {
      var front := cached[..|cached| - 1];
      assert cached == front + [cached[|cached| - 1]];
      InMap(front, hash, mod);
      assert forall e :: e in front ==> e.0 < cached[|cached| - 1].0;
    }
  }

  lemma {:induction false} InsertMembers(cached: seq<(Hash, Module)>, hash: Hash, mod: Module, e: (Hash, Module))
    requires Sorted(cached)
    ensures e in Insert(cached, hash, mod) <==> e == (hash, mod) || (e in cached && e.0 != hash)
  {
    if cached != [] {
      var (first, rest) := (cached[0], cached[1..]);
      assert cached == [first] + rest;
      assert e in rest ==> first.0 < e.0;
      if hash > first.0 {
        InsertMembers(rest, hash, mod, e);
      }
    }
  }

  lemma {:induction false} InsertSorted(cached: seq<(Hash, Module)>, hash: Hash, mod: Module)
    requires Sorted(cached)
    ensures Sorted(Insert(cached, hash, mod))
  {
    if cached != [] && hash > cached[0].0 {
      InsertSorted(cached[1..], hash, mod);
      var rest := Insert(cached[1..], hash, mod);
      forall j | 0 <= j < |rest| ensures cached[0].0 < rest[j].0 {
        InsertMembers(cached[1..], hash, mod, rest[j]);
      }
    }
  }

  /** Inserting into the ordered list is updating the map it stands for. */
  lemma InsertUpdatesMap(cached: seq<(Hash, Module)>, hash: Hash, mod: Module)
    requires Sorted(cached)
    ensures Sorted(Insert(cached, hash, mod))
    ensures AsMap(Insert(cached, hash, mod)) == AsMap(cached)[hash := mod]
  {
    InsertSorted(cached, hash, mod);
    var before := AsMap(cached)[hash := mod];
    var after := AsMap(Insert(cached, hash, mod));
    hide Insert, AsMap, Sorted;
    forall h | h in after ensures h in before && before[h] == after[h] {
      InMap(Insert(cached, hash, mod), h, after[h]);
      InMap(cached, h, after[h]);
      InsertMembers(cached, hash, mod, (h, after[h]));
    }
    forall h | h in before ensures h in after {
      InMap(Insert(cached, hash, mod), h, before[h]);
      InMap(cached, h, before[h]);
      InsertMembers(cached, hash, mod, (h, before[h]));
    }
  }
}
