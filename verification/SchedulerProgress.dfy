/** The pool never gets stuck: from every reachable state everything that was asked for can still be done. */
module SchedulerProgress {
  import opened Scheduler
  import opened SchedulerSystem
  import opened SchedulerSafety
  import opened SchedulerTurns
  import opened SchedulerTheorems
  import opened SchedulerJobs

  // ---- What is left to do ----

  function Count<T>(xs: seq<T>, p: T -> bool): nat {
    if xs == [] then 0 else (if p(xs[0]) then 1 else 0) + Count(xs[1..], p)
  }

  lemma {:induction false} CountAppend<T>(xs: seq<T>, x: T, p: T -> bool)
    ensures Count(xs + [x], p) == Count(xs, p) + (if p(x) then 1 else 0)
  {
    if xs == [] {
      assert xs + [x] == [x];
    } else {
      assert (xs + [x])[1..] == xs[1..] + [x];
      CountAppend(xs[1..], x, p);
    }
  }

  const AsksFor: Message -> bool := (msg: Message) => msg.IsRequest()
  const IsForwarded: Note -> bool := (note: Note) => note.Forwarded?

  // What one worker still has to forward, take, begin or finish, and emit.
  function Requests(worker: Worker): nat { Count(worker.outbox, IsForwarded) }
  function Waiting(worker: Worker): nat { |worker.inbox| }
  function UnderWay(worker: Worker): nat {
    if worker.active == [] then 0 else if worker.active[0].Starting? then 2 else 1
  }
  function Emitted(worker: Worker): nat { |worker.outbox| }

  /** The requests not executed yet; nothing but executing one of them starts new work. */
  function Pending(s: System, n: nat): nat { Count(s.mailbox, AsksFor) + Sum(s.workers, n, Requests) }

  predicate Done(worker: Worker) { worker.inbox == [] && worker.outbox == [] && worker.active == [] }

  /** Nothing is on its way, waiting or running, and every worker is available. */
  ghost predicate Quiet(s: System) {
    s.mailbox == [] && s.pool.busy == [] && forall w: WorkerId :: Done(At(s.workers, w))
  }

  lemma QuietIfDone(events: seq<Event>)
    requires Reached(events).mailbox == []
    requires forall w: WorkerId :: Done(At(Reached(events).workers, w))
    ensures Quiet(Reached(events))
  {
    hide Reached, Apply;
    var s := Reached(events);
    if s.pool.busy != [] {
      var w := s.pool.busy[0];
      assert Done(At(s.workers, w));
      DrainedWorkersAreIdle(events, w);
      InOneQueue(events, w);
    }
  }

  lemma InOneQueue(events: seq<Event>, w: WorkerId)
    ensures !(w in Reached(events).pool.idle && w in Reached(events).pool.busy)
  {
    hide WorkerOk;
    ReachedInv(events);
  }

  lemma {:induction false} SumBeyond(workers: map<WorkerId, Worker>, n: nat, m: nat, f: Worker -> nat)
    requires Below(workers, n) && n <= m && f(NewWorker) == 0
    ensures Sum(workers, m, f) == Sum(workers, n, f)
  {
    if n < m {
      SumBeyond(workers, n, m - 1, f);
    }
  }

  // ---- Each step gets closer ----

  /** Less is left: fewer requests, or as many and fewer payloads waiting, and so on. */
  ghost predicate Closer(s': System, n': nat, s: System, n: nat) {
    || Pending(s', n') < Pending(s, n)
    || (Pending(s', n') == Pending(s, n) &&
        (|| Sum(s'.workers, n', Waiting) < Sum(s.workers, n, Waiting)
         || (Sum(s'.workers, n', Waiting) == Sum(s.workers, n, Waiting) &&
             (|| Sum(s'.workers, n', UnderWay) < Sum(s.workers, n, UnderWay)
              || (Sum(s'.workers, n', UnderWay) == Sum(s.workers, n, UnderWay) &&
                  (|| Sum(s'.workers, n', Emitted) < Sum(s.workers, n, Emitted)
                   || (Sum(s'.workers, n', Emitted) == Sum(s.workers, n, Emitted) && |s'.mailbox| < |s.mailbox|)))))))
  }

  /** A step of one worker, with what it does to that worker's four counts. */
  lemma WorkerGetsCloser(s: System, s': System, n: nat, w: WorkerId, worker': Worker)
    requires w in s.workers && Below(s.workers, n) && s'.workers == s.workers[w := worker']
    requires Count(s'.mailbox, AsksFor) + Requests(worker') <= Count(s.mailbox, AsksFor) + Requests(s.workers[w])
    requires var worker := s.workers[w];
             || Waiting(worker') < Waiting(worker)
             || (Waiting(worker') == Waiting(worker) && UnderWay(worker') < UnderWay(worker))
             || (Waiting(worker') == Waiting(worker) && UnderWay(worker') == UnderWay(worker) && Emitted(worker') < Emitted(worker))
    ensures Closer(s', n, s, n)
  {
    hide Requests, Waiting, UnderWay, Emitted, Sum, Count;
    assert forall x: WorkerId :: x != w ==> At(s'.workers, x) == At(s.workers, x);
    OneShareChanges(s.workers, s'.workers, n, Requests, w);
    OneShareChanges(s.workers, s'.workers, n, Waiting, w);
    OneShareChanges(s.workers, s'.workers, n, UnderWay, w);
    OneShareChanges(s.workers, s'.workers, n, Emitted, w);
  }

  lemma MarkIsNoRequest(outbox: seq<Note>, mark: Mark)
    ensures Count(outbox + [Marked(mark)], IsForwarded) == Count(outbox, IsForwarded)
  {
    CountAppend(outbox, Marked(mark), IsForwarded);
  }

  /** A job that has been taken can begin, or finish. */
  lemma ActiveStep(s: System, w: WorkerId, n: nat) returns (e: Event)
    requires w in s.workers && Below(s.workers, n) && |s.workers[w].active| == 1
    ensures !e.Request? && !e.WorkerSends? && Below(Apply(s, e).workers, n) && Closer(Apply(s, e), n, s, n)
  {
    hide Sum, Count, Closer;
    var worker := s.workers[w];
    if worker.active[0].Starting? {
      e := Begin(w, 0);
      MarkIsNoRequest(worker.outbox, MarkBusy);
    } else {
      e := Finish(w, 0);
      MarkIsNoRequest(worker.outbox, MarkIdle);
    }
    WorkerGetsCloser(s, Apply(s, e), n, w, Apply(s, e).workers[w]);
  }

  /** A worker with no job under way can take what is waiting. */
  lemma TakeStep(s: System, w: WorkerId, n: nat)
    requires w in s.workers && Below(s.workers, n) && s.workers[w].active == [] && s.workers[w].inbox != []
    ensures Below(Apply(s, Take(w)).workers, n) && Closer(Apply(s, Take(w)), n, s, n)
  {
    hide Sum, Count, Closer;
    var worker := s.workers[w];
    assert !Blocked(worker);
    MarkIsNoRequest(worker.outbox, MarkBusy);
    WorkerGetsCloser(s, Apply(s, Take(w)), n, w, TakeFront(worker));
  }

  lemma ForwardStep(s: System, w: WorkerId, n: nat)
    requires w in s.workers && Below(s.workers, n) && s.workers[w].outbox != []
    ensures Below(Apply(s, Forward(w)).workers, n) && Closer(Apply(s, Forward(w)), n, s, n)
  {
    hide Sum, Closer;
    var worker := s.workers[w];
    CountAppend(s.mailbox, OnMessage(w, worker.outbox[0]), AsksFor);
    hide Count;
    WorkerGetsCloser(s, Apply(s, Forward(w)), n, w, worker.(outbox := worker.outbox[1..]));
  }

  /** Executing a message uses it up, and forwards nothing. */
  lemma ExecuteStep(s: System, n: nat, n': nat)
    requires s.mailbox != [] && Below(s.workers, n) && n <= n' && Below(Apply(s, ExecuteNext).workers, n')
    ensures Closer(Apply(s, ExecuteNext), n', s, n)
  {
    hide Sum, Deliver, Requests, Waiting, UnderWay, Emitted;
    var s' := Apply(s, ExecuteNext);
    var msg := s.mailbox[0];
    NewWorkersAreDone();
    if msg.IsRequest() {
      forall x: WorkerId ensures Requests(At(s'.workers, x)) == Requests(At(s.workers, x)) {
        DeliverReaches(s.workers, Execute(s.pool, msg).1, AsMap(s.pool.cached), x);
        ReceivingForwardsNothing(At(s.workers, x), For(Execute(s.pool, msg).1, x), AsMap(s.pool.cached));
      }
      OneShareChanges(s.workers, s'.workers, n', Requests, n');
      SumBeyond(s.workers, n, n', Requests);
    } else {
      assert s'.workers == s.workers by { DeliverNothing(s.workers, AsMap(s.pool.cached)); }
      SumBeyond(s.workers, n, n', Requests);
      SumBeyond(s.workers, n, n', Waiting);
      SumBeyond(s.workers, n, n', UnderWay);
      SumBeyond(s.workers, n, n', Emitted);
    }
  }

  lemma NewWorkersAreDone()
    ensures Requests(NewWorker) == Waiting(NewWorker) == UnderWay(NewWorker) == Emitted(NewWorker) == 0
  {
  }

  lemma DeliverNothing(workers: map<WorkerId, Worker>, snapshot: map<Hash, Module>)
    ensures Deliver(workers, [], snapshot) == workers
  {
  }

  lemma ReceivingForwardsNothing(worker: Worker, payloads: seq<Payload>, snapshot: map<Hash, Module>)
    ensures Requests(ReceiveAll(worker, payloads, snapshot)) == Requests(worker)
  {
  }

  // ---- Every run ----

  lemma Bound(workers: map<WorkerId, Worker>, n: nat) returns (n': nat)
    ensures n <= n' && Below(workers, n')
  {
    n' := n;
    var left := workers.Keys;
    while left != {}
      invariant n <= n' && forall w :: w in workers && w !in left ==> w < n'
      decreases left
    {
      var w :| w in left;
      n', left := if w < n' then n' else w + 1, left - {w};
    }
  }

  /** What a state that is not quiet can still do. */
  lemma SomeStep(events: seq<Event>, n: nat) returns (e: Event, n': nat)
    requires Below(Reached(events).workers, n) && !Quiet(Reached(events))
    ensures n <= n' && !e.Request? && !e.WorkerSends?
    ensures Below(Apply(Reached(events), e).workers, n') && Closer(Apply(Reached(events), e), n', Reached(events), n)
  {
    hide Apply, Reached, Closer, Quiet;
    var s := Reached(events);
    n' := n;
    if w :| w in s.workers && s.workers[w].active != [] {
      OneBlockingJobPerWorker(events, w);
      e := ActiveStep(s, w, n);
    } else if w :| w in s.workers && s.workers[w].inbox != [] {
      TakeStep(s, w, n);
      e := Take(w);
    } else if w :| w in s.workers && s.workers[w].outbox != [] {
      ForwardStep(s, w, n);
      e := Forward(w);
    } else {
      if s.mailbox == [] {
        QuietIfDone(events);
      }
      e := ExecuteNext;
      n' := Bound(Apply(s, e).workers, n);
      ExecuteStep(s, n, n');
    }
  }

  lemma ReachedThen(events: seq<Event>, e: Event)
    ensures Reached(events + [e]) == Apply(Reached(events), e)
  {
    assert (events + [e])[..|events|] == events;
  }

  /**
   No reachable state is stuck: without any further request, steps of the workers, the channels and
   the scheduler lead to a state in which nothing is left to do and every worker is idle.
   */
  lemma {:induction false} EverythingCanBeDone(events: seq<Event>, n: nat) returns (more: seq<Event>)
    requires Below(Reached(events).workers, n)
    ensures forall i :: 0 <= i < |more| ==> !more[i].Request? && !more[i].WorkerSends?
    ensures Quiet(Reached(events + more))
    decreases Pending(Reached(events), n), Sum(Reached(events).workers, n, Waiting), Sum(Reached(events).workers, n, UnderWay),
              Sum(Reached(events).workers, n, Emitted), |Reached(events).mailbox|
  {
    hide Quiet, Below, Sum, Pending, Reached, Apply;
    if Quiet(Reached(events)) {
      assert events + [] == events;
      return [];
    }
    var e, n' := SomeStep(events, n);
    ReachedThen(events, e);
    var rest := EverythingCanBeDone(events + [e], n');
    assert events + [e] + rest == events + ([e] + rest);
    more := [e] + rest;
  }

  // ---- What has been done by then ----

  function TimesFinished(job: JobId, kind: JobKind): Worker -> nat {
    (worker: Worker) => multiset(worker.finished)[(job, kind)]
  }

  function TimesSpawned(job: JobId): Worker -> nat {
    (worker: Worker) => multiset(worker.spawned)[job]
  }

  lemma {:induction false} SameSums(workers: map<WorkerId, Worker>, n: nat, f: Worker -> nat, g: Worker -> nat)
    requires forall w: WorkerId :: f(At(workers, w)) == g(At(workers, w))
    ensures Sum(workers, n, f) == Sum(workers, n, g)
  {
    hide At;
    if n != 0 {
      SameSums(workers, n - 1, f, g);
    }
  }

  lemma DoneSharesAreDone(worker: Worker, job: JobId, kind: JobKind)
    requires Done(worker)
    ensures ShareOf(SpawnBlocking(job, kind))(worker) == TimesFinished(job, kind)(worker)
    ensures ShareOf(SpawnAsync(job))(worker) == TimesSpawned(job)(worker)
  {
  }

  /** Once nothing is left to do, every job has been done exactly as often as it was asked for. */
  lemma QuietMeansAllDone(events: seq<Event>, n: nat, job: JobId, kind: JobKind)
    requires Quiet(Reached(events)) && Below(Reached(events).workers, n)
    ensures var workers := Reached(events).workers;
            && Asked(events, SpawnBlocking(job, kind)) == Sum(workers, n, TimesFinished(job, kind))
            && Asked(events, SpawnAsync(job)) == Sum(workers, n, TimesSpawned(job))
  {
    hide Reached, Asked, Sum, Done, ShareOf, TimesFinished, TimesSpawned, At;
    var workers := Reached(events).workers;
    RequestsAreConserved(events, n, SpawnBlocking(job, kind));
    RequestsAreConserved(events, n, SpawnAsync(job));
    forall w: WorkerId
      ensures ShareOf(SpawnBlocking(job, kind))(At(workers, w)) == TimesFinished(job, kind)(At(workers, w))
      ensures ShareOf(SpawnAsync(job))(At(workers, w)) == TimesSpawned(job)(At(workers, w))
    {
      DoneSharesAreDone(At(workers, w), job, kind);
    }
    SameSums(workers, n, ShareOf(SpawnBlocking(job, kind)), TimesFinished(job, kind));
    SameSums(workers, n, ShareOf(SpawnAsync(job)), TimesSpawned(job));
  }
}
