/** The invariant of the worker pool: where each worker is, what it still has to do, and which of its notices are in flight. */
module SchedulerSafety {
  import opened Scheduler
  import opened SchedulerSystem

  // ---- Notices in flight ----

  function MarksOf(msg: Message, w: WorkerId): seq<Mark> {
    if msg == WorkerBusy(w) then [MarkBusy] else if msg == WorkerIdle(w) then [MarkIdle] else []
  }

  /** The notices about w waiting in the mailbox. */
  function MailMarks(mailbox: seq<Message>, w: WorkerId): seq<Mark> {
    if mailbox == [] then [] else MarksOf(mailbox[0], w) + MailMarks(mailbox[1..], w)
  }

  /** The notices w has emitted that have not reached the mailbox. */
  function OutMarks(outbox: seq<Note>): seq<Mark> {
    if outbox == [] then [] else NoteMarks(outbox[0]) + OutMarks(outbox[1..])
  }

  function NoteMarks(note: Note): seq<Mark> { if note.Marked? then [note.mark] else [] }

  function InFlight(s: System, w: WorkerId): seq<Mark> {
    MailMarks(s.mailbox, w) + OutMarks(At(s.workers, w).outbox)
  }

  lemma {:induction false} MailMarksAppend(mailbox: seq<Message>, msg: Message, w: WorkerId)
    ensures MailMarks(mailbox + [msg], w) == MailMarks(mailbox, w) + MarksOf(msg, w)
  {
    if mailbox == [] {
      assert mailbox + [msg] == [msg];
    } else {
      assert (mailbox + [msg])[1..] == mailbox[1..] + [msg];
      MailMarksAppend(mailbox[1..], msg, w);
    }
  }

  lemma MailMarksFront(mailbox: seq<Message>, w: WorkerId)
    requires mailbox != []
    ensures MailMarks(mailbox, w) == MarksOf(mailbox[0], w) + MailMarks(mailbox[1..], w)
  {
  }

  lemma {:induction false} OutMarksAppend(outbox: seq<Note>, note: Note)
    ensures OutMarks(outbox + [note]) == OutMarks(outbox) + NoteMarks(note)
  {
    hide NoteMarks;
    if outbox == [] {
      assert outbox + [note] == [note];
    } else {
      assert (outbox + [note])[1..] == outbox[1..] + [note];
      OutMarksAppend(outbox[1..], note);
    }
  }

  // ---- Work still to do ----

  function CountBlocking(inbox: seq<Payload>): nat {
    if inbox == [] then 0 else (if inbox[0].Blocking? then 1 else 0) + CountBlocking(inbox[1..])
  }

  lemma {:induction false} CountBlockingAppend(inbox: seq<Payload>, payload: Payload)
    ensures CountBlocking(inbox + [payload]) == CountBlocking(inbox) + (if payload.Blocking? then 1 else 0)
  {
    if inbox == [] {
      assert inbox + [payload] == [payload];
    } else {
      assert (inbox + [payload])[1..] == inbox[1..] + [payload];
      CountBlockingAppend(inbox[1..], payload);
    }
  }

  lemma {:induction false} NoneBlocking(inbox: seq<Payload>)
    ensures CountBlocking(inbox) == 0 <==> forall i :: 0 <= i < |inbox| ==> !inbox[i].Blocking?
  {
    if inbox != [] {
      NoneBlocking(inbox[1..]);
      assert inbox == [inbox[0]] + inbox[1..];
    }
  }

  /** Blocking jobs a worker has been given and not finished. */
  function Unfinished(worker: Worker): nat {
    CountBlocking(worker.inbox) + |worker.active|
  }

  /** No job sits in the inbox behind a blocking job, waiting or being worked on. */
  ghost predicate NothingBehindBlocking(worker: Worker) {
    && (forall i, j :: 0 <= i < j < |worker.inbox| && worker.inbox[i].Blocking? ==> !worker.inbox[j].IsJob())
    && (worker.active != [] ==> forall j :: 0 <= j < |worker.inbox| ==> !worker.inbox[j].IsJob())
  }

  // ---- The invariant ----

  datatype Place = Unknown | InIdle | InBusy

  function PlaceOf(p: Pool, w: WorkerId): Place {
    if w in p.idle then InIdle else if w in p.busy then InBusy else Unknown
  }

  /**
   A busy worker is in exactly one of these situations: its job has not entered the busy guard;
   its job is running, with its busy notice perhaps still in flight; its job has ended and the
   idle notice is in flight, perhaps preceded by the busy notice.
   */
  ghost predicate Accounted(worker: Worker, marks: seq<Mark>, place: Place) {
    match place
    case Unknown => worker.inbox == [] && worker.active == [] && marks == [] && worker.sent == []
    case InIdle => Unfinished(worker) == 0 && marks == []
    case InBusy =>
      || (Unfinished(worker) == 1 && marks == [] && (worker.active == [] || worker.active[0].Starting?))
      || (Unfinished(worker) == 1 && (marks == [] || marks == [MarkBusy]) && |worker.active| == 1 && worker.active[0].Running?)
      || (Unfinished(worker) == 0 && (marks == [MarkIdle] || marks == [MarkBusy, MarkIdle]))
  }

  ghost predicate WorkerOk(worker: Worker, marks: seq<Mark>, place: Place) {
    && (forall i :: 0 <= i < |worker.outbox| && worker.outbox[i].Forwarded? ==> worker.outbox[i].msg.IsRequest())
    && |worker.snapshots| == |worker.sent| && worker.taken <= |worker.sent| && worker.inbox == worker.sent[worker.taken..]
    && NothingBehindBlocking(worker)
    && Accounted(worker, marks, place)
  }

  ghost predicate PoolOk(p: Pool) {
    && (forall i :: 0 <= i < |p.idle| ==> p.idle[i] < p.nextId && p.idle[i] !in p.busy)
    && (forall i :: 0 <= i < |p.busy| ==> p.busy[i] < p.nextId)
    && (forall i, j :: 0 <= i < j < |p.idle| ==> p.idle[i] != p.idle[j])
    && (forall i, j :: 0 <= i < j < |p.busy| ==> p.busy[i] != p.busy[j])
    && Sorted(p.cached)
  }

  ghost predicate Inv(s: System) {
    && PoolOk(s.pool)
    && forall w: WorkerId :: WorkerOk(At(s.workers, w), InFlight(s, w), PlaceOf(s.pool, w))
  }

  lemma InvAt(s: System, w: WorkerId)
    requires Inv(s)
    ensures WorkerOk(At(s.workers, w), InFlight(s, w), PlaceOf(s.pool, w))
  {
  }

  // ---- Worker turns ----

  /** A turn of one worker leaves every other worker and the pool alone. */
  lemma OneWorkerChanges(s: System, s': System, w: WorkerId)
    requires Inv(s) && s'.pool == s.pool
    requires forall x: WorkerId :: x != w ==> At(s'.workers, x) == At(s.workers, x) && MailMarks(s'.mailbox, x) == MailMarks(s.mailbox, x)
    requires WorkerOk(At(s'.workers, w), InFlight(s', w), PlaceOf(s.pool, w))
    ensures Inv(s')
  {
    hide WorkerOk, PlaceOf, MailMarks, OutMarks;
    forall x: WorkerId ensures WorkerOk(At(s'.workers, x), InFlight(s', x), PlaceOf(s'.pool, x)) {
      if x != w {
        assert WorkerOk(At(s.workers, x), InFlight(s, x), PlaceOf(s.pool, x));
      }
    }
  }

  lemma TakeKeepsWorker(worker: Worker, mail: seq<Mark>, place: Place)
    requires WorkerOk(worker, mail + OutMarks(worker.outbox), place)
    ensures var worker' := TakeFront(worker); WorkerOk(worker', mail + OutMarks(worker'.outbox), place)
  {
    hide OutMarks, NothingBehindBlocking, Blocked;
    if worker.inbox != [] && !Blocked(worker) {
      assert worker.inbox[1..] == worker.sent[worker.taken + 1..];
      NoneBlocking(worker.inbox[1..]);
      OutMarksAppend(worker.outbox, Marked(MarkBusy));
      TakeKeepsOrder(worker);
    }
  }

  lemma TakeKeepsOrder(worker: Worker)
    requires NothingBehindBlocking(worker)
    ensures NothingBehindBlocking(TakeFront(worker))
  {
  }

  lemma BeginKeepsWorker(worker: Worker, mail: seq<Mark>, place: Place, i: nat)
    requires WorkerOk(worker, mail + OutMarks(worker.outbox), place)
    requires i < |worker.active| && worker.active[i].Starting?
    ensures var worker' := worker.(active := worker.active[i := Running(worker.active[i].job, WithModuleAndMemory)],
                                   outbox := worker.outbox + [Marked(MarkBusy)]);
            WorkerOk(worker', mail + OutMarks(worker'.outbox), place)
  {
    hide OutMarks;
    OutMarksAppend(worker.outbox, Marked(MarkBusy));
  }

  lemma FinishKeepsWorker(worker: Worker, mail: seq<Mark>, place: Place, i: nat)
    requires WorkerOk(worker, mail + OutMarks(worker.outbox), place)
    requires i < |worker.active| && worker.active[i].Running?
    ensures var worker' := worker.(active := worker.active[..i] + worker.active[i + 1..],
                                   outbox := worker.outbox + [Marked(MarkIdle)],
                                   finished := worker.finished + [worker.active[i].Job()]);
            WorkerOk(worker', mail + OutMarks(worker'.outbox), place)
  {
    OutMarksAppend(worker.outbox, Marked(MarkIdle));
    var marks := mail + OutMarks(worker.outbox);
    assert mail + (OutMarks(worker.outbox) + [MarkIdle]) == marks + [MarkIdle];
    assert |worker.active| == 1 && i == 0;
  }

  lemma SendKeepsWorker(worker: Worker, mail: seq<Mark>, place: Place, msg: Message)
    requires WorkerOk(worker, mail + OutMarks(worker.outbox), place) && msg.IsRequest()
    ensures var worker' := worker.(outbox := worker.outbox + [Forwarded(msg)]);
            WorkerOk(worker', mail + OutMarks(worker'.outbox), place)
  {
    OutMarksAppend(worker.outbox, Forwarded(msg));
  }

  lemma WorkerTurnKeepsInv(s: System, e: Event)
    requires Inv(s) && (e.Take? || e.Begin? || e.Finish? || e.WorkerSends?)
    ensures Inv(Apply(s, e))
  {
    hide Inv, WorkerOk, TakeFront, MailMarks, OutMarks, Execute, Deliver, PlaceOf;
    var w := e.worker;
    var worker := At(s.workers, w);
    var mail := MailMarks(s.mailbox, w);
    InvAt(s, w);
    match e {
      case Take(_) => TakeKeepsWorker(worker, mail, PlaceOf(s.pool, w));
      case Begin(_, i) => if i < |worker.active| && worker.active[i].Starting? { BeginKeepsWorker(worker, mail, PlaceOf(s.pool, w), i); }
      case Finish(_, i) => if i < |worker.active| && worker.active[i].Running? { FinishKeepsWorker(worker, mail, PlaceOf(s.pool, w), i); }
      case WorkerSends(_, msg) => if msg.IsRequest() { SendKeepsWorker(worker, mail, PlaceOf(s.pool, w), msg); }
    }
    OneWorkerChanges(s, Apply(s, e), w);
  }

  lemma FrontNote(outbox: seq<Note>, w: WorkerId)
    requires outbox != [] && (outbox[0].Forwarded? ==> outbox[0].msg.IsRequest())
    ensures OutMarks(outbox) == MarksOf(OnMessage(w, outbox[0]), w) + OutMarks(outbox[1..])
    ensures forall x: WorkerId :: x != w ==> MarksOf(OnMessage(w, outbox[0]), x) == []
  {
    hide OutMarks;
    OutMarksFront(outbox);
  }

  lemma OutMarksFront(outbox: seq<Note>)
    requires outbox != []
    ensures OutMarks(outbox) == NoteMarks(outbox[0]) + OutMarks(outbox[1..])
  {
  }

  lemma ForwardKeepsWorker(worker: Worker, mail: seq<Mark>, place: Place, w: WorkerId)
    requires WorkerOk(worker, mail + OutMarks(worker.outbox), place) && worker.outbox != []
    ensures WorkerOk(worker.(outbox := worker.outbox[1..]),
                     mail + MarksOf(OnMessage(w, worker.outbox[0]), w) + OutMarks(worker.outbox[1..]), place)
  {
    hide OutMarks, MarksOf, OnMessage;
    FrontNote(worker.outbox, w);
    assert mail + MarksOf(OnMessage(w, worker.outbox[0]), w) + OutMarks(worker.outbox[1..]) == mail + OutMarks(worker.outbox);
  }

  /** A notice moves from the outbox to the mailbox without overtaking another. */
  lemma ForwardKeepsInv(s: System, w: WorkerId)
    requires Inv(s)
    ensures Inv(Apply(s, Forward(w)))
  {
    var worker := At(s.workers, w);
    assert WorkerOk(worker, InFlight(s, w), PlaceOf(s.pool, w));
    if worker.outbox != [] {
      assert worker.outbox[0].Forwarded? ==> worker.outbox[0].msg.IsRequest();
      hide WorkerOk, PlaceOf, MailMarks, OutMarks, PoolOk, MarksOf, OnMessage;
      var msg := OnMessage(w, worker.outbox[0]);
      var s' := Apply(s, Forward(w));
      FrontNote(worker.outbox, w);
      ForwardKeepsWorker(worker, MailMarks(s.mailbox, w), PlaceOf(s.pool, w), w);
      forall x: WorkerId ensures MailMarks(s'.mailbox, x) == MailMarks(s.mailbox, x) + MarksOf(msg, x) {
        MailMarksAppend(s.mailbox, msg, x);
      }
      OneWorkerChanges(s, s', w);
    }
  }

  lemma RequestKeepsInv(s: System, msg: Message)
    requires Inv(s)
    ensures Inv(Apply(s, Request(msg)))
  {
    if msg.IsRequest() {
      var s' := Apply(s, Request(msg));
      forall x: WorkerId ensures MailMarks(s'.mailbox, x) == MailMarks(s.mailbox, x) {
        MailMarksAppend(s.mailbox, msg, x);
      }
      assert WorkerOk(At(s.workers, 0), InFlight(s, 0), PlaceOf(s.pool, 0));
      OneWorkerChanges(s, s', 0);
    }
  }
}
