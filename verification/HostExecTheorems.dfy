/**
 What the host_exec protocol promises the reader of a session. A worker returns from its wait on any
 notify without looking at the status word again, so a notify that comes late can wake it before its
 request has been answered. The promises hold for every worker that never returned early, whatever
 the others do; `WakeIsOwnIffReleased` and `EarlyIffUnguarded` say exactly what that means.
 */
module HostExecTheorems {
  import opened Words
  import opened ResponseBuffer
  import opened HostExec
  import opened HostExecSystem
  import opened HostExecSafety
  import opened HostExecTurns

  // ---- Early wakes ----

  /** The request has not been answered: it, or the completion it waits for, is still on its way, or it is parked. */
  predicate Outstanding(st: World, req: Request) {
    || req in st.transit
    || Ask(req) in st.mailbox
    || (req.session in st.tables.pending && st.tables.pending[req.session].worker == req.worker)
    || exists i :: 0 <= i < |st.mailbox| && st.mailbox[i].Complete? && st.mailbox[i].Worker() == req.worker
  }

  /**
   As long as a worker has not returned early, its wake returns the answer to its own request if and
   only if the status word is not zero; if it is zero, the request has not been answered yet.
   */
  lemma WakeIsOwnIffReleased(events: seq<Event>, w: WorkerId)
    requires w !in Reached(events).early && CanWake(Reached(events), w)
    ensures var (st, k) := (Reached(events), Reached(events).workers[w]);
            && (k.Released() <==> !Outstanding(st, k.waiting.value))
            && (k.Released() <==> k.stage.Answered?)
            && (k.Released() ==> k.stage.session == k.waiting.value.session && AnswerOk(k.waiting.value, k.buffer, k.stage.response))
  {
    hide LoadWord, AnswerOk, SessionOk, Apply, CanWake;
    ReachedInv(events);
    var st := Reached(events);
    assert w in st.workers && st.workers[w].waiting.Some? by { WakeMeansWaiting(st, w); }
    OwnRequest(st, w);
    var req := st.workers[w].waiting.value;
    if st.workers[w].Released() {
      AnsweredIsNotOutstanding(st, w);
    } else {
      UnansweredIsOutstanding(st, w);
    }
  }

  lemma WakeMeansWaiting(st: World, w: WorkerId)
    requires CanWake(st, w)
    ensures w in st.workers && st.workers[w].waiting.Some?
  {
  }

  lemma OwnRequest(st: World, w: WorkerId)
    requires Inv(st) && w in st.workers && w !in st.early && st.workers[w].waiting.Some?
    ensures var req := st.workers[w].waiting.value;
            && req.worker == w && req.session in st.sessions && st.sessions[req.session].owner == w && StageOk(req, st.workers[w])
            && PromiseOk(req.session, ViewOf(st, req.session))
  {
    assert WorkerOk(st, w);
  }

  lemma AnsweredIsNotOutstanding(st: World, w: WorkerId)
    requires Inv(st) && w in st.workers && w !in st.early && st.workers[w].waiting.Some? && st.workers[w].stage.Answered?
    ensures !Outstanding(st, st.workers[w].waiting.value)
  {
    hide SessionsOk, WorkersOk, TransitOk, MailboxOk, OwnedOk, StageOk;
    var req := st.workers[w].waiting.value;
    OwnRequest(st, w);
    NothingOnTheWay(st, w);
    WaiterMeansParked(st, req.session);
    assert Ask(req).Worker() == w;
  }

  lemma NothingOnTheWay(st: World, w: WorkerId)
    requires TransitOk(st) && MailboxOk(st) && w !in st.early
    requires !StageOf(st, w).Sent? && !StageOf(st, w).Queued?
    ensures forall i :: 0 <= i < |st.transit| ==> st.transit[i].worker != w
    ensures forall i :: 0 <= i < |st.mailbox| ==> st.mailbox[i].Worker() != w
  {
    assert forall i :: 0 <= i < |st.transit| && st.transit[i].worker == w ==> StageOf(st, w) == Sent(st.transit[i]);
    assert forall i :: 0 <= i < |st.mailbox| && st.mailbox[i].Worker() == w ==> StageOf(st, w) == Queued(st.mailbox[i]);
  }

  lemma UnansweredIsOutstanding(st: World, w: WorkerId)
    requires Inv(st) && w in st.workers && w !in st.early && st.workers[w].waiting.Some? && !st.workers[w].Released()
    ensures Outstanding(st, st.workers[w].waiting.value)
  {
    hide SessionOk, LoadWord, AnswerOk;
    var k := st.workers[w];
    OwnRequest(st, w);
    WaiterMeansParked(st, k.waiting.value.session);
    assert k.stage.Sent? ==> InTransit(st, w, k.stage.request);
    assert k.stage.Queued? ==> InMailbox(st, w, k.stage.message);
  }

  /** Every wake of `w` in the run found its status word nonzero: what a reader that checks it could ensure. */
  predicate Guarded(events: seq<Event>, w: WorkerId) {
    forall n :: 0 <= n < |events| && events[n].Wake? && events[n].w == w && CanWake(Reached(events[..n]), w) ==>
      Reached(events[..n]).workers[w].Released()
  }

  /** A worker has returned early exactly in the runs in which one of its wakes was unguarded. */
  lemma {:induction false} EarlyIffUnguarded(events: seq<Event>, w: WorkerId)
    ensures w in Reached(events).early <==> !Guarded(events, w)
  {
    hide Guarded, Apply, CanWake;
    if events != [] {
      var last := |events| - 1;
      EarlyIffUnguarded(events[..last], w);
      EarlyStep(Reached(events[..last]), events[last]);
      GuardedStep(events, w);
    } else {
      assert Guarded(events, w) by { NoWakeIsGuarded(w); }
    }
  }

  lemma NoWakeIsGuarded(w: WorkerId)
    ensures Guarded([], w)
  {
  }

  lemma GuardedStep(events: seq<Event>, w: WorkerId)
    requires events != []
    ensures var last := |events| - 1; var st := Reached(events[..last]);
            Guarded(events, w) <==>
            Guarded(events[..last], w) && (events[last].Wake? && events[last].w == w && CanWake(st, w) ==> st.workers[w].Released())
  {
    hide Reached, Apply, LoadWord;
    var front := events[..|events| - 1];
    assert forall n :: 0 <= n < |front| ==> front[..n] == events[..n] && front[n] == events[n];
  }

  lemma EarlyStep(st: World, e: Event)
    ensures Apply(st, e).early ==
            if e.Wake? && CanWake(st, e.w) && !st.workers[e.w].Released() then st.early + {e.w} else st.early
  {
    hide Emit, Settle, Log, StoreResponse, Read, Take, LoadWord;
  }

  // ---- The stream ----

  /** The session is there and its reader has never returned early. */
  predicate Orderly(st: World, s: SessionId) { s in st.sessions && st.sessions[s].owner !in st.early }

  /** The reply under way to the reader of `s`. */
  function UnderWay(st: World, s: SessionId): Option<Reply>
    requires s in st.sessions
  {
    InFlight(StageOf(st, st.sessions[s].owner), s)
  }

  /**
   Every message the handler produced was delivered, is the one under way, or is still queued, in
   the order produced: nothing is lost, duplicated or reordered.
   */
  lemma StreamIsOrdered(events: seq<Event>, s: SessionId)
    requires Orderly(Reached(events), s) && SessionFits(s)
    ensures var st := Reached(events);
            st.sessions[s].emitted ==
              st.sessions[s].delivered + ChunksOf(UnderWay(st, s)) + QueueOf(st.tables, s)
  {
    ReachedInv(events);
    assert SessionOk(s, ViewOf(Reached(events), s));
  }

  /** What is under way is really there: a completion in the mailbox, or a buffer ready to be read. */
  lemma UnderWayIsReal(events: seq<Event>, s: SessionId, c: Completion)
    requires Orderly(Reached(events), s) && c.session == s
    ensures Reached(events).sessions[s].owner in Reached(events).workers
    ensures var st := Reached(events);
            Complete(c) in st.mailbox ==> UnderWay(st, s) == Some(ReplyTo(c)) && c.worker == st.sessions[s].owner
    ensures var st := Reached(events);
            var k := st.workers[st.sessions[s].owner];
            k.waiting.Some? && k.Released() && k.waiting.value.session == s && !k.waiting.value.op.Poll? && Decode(k).Got?
            ==> UnderWay(st, s) == Some(ReplyOf(Decode(k).output))
    ensures var st := Reached(events);
            var k := st.workers[st.sessions[s].owner];
            UnderWay(st, s).Some? ==>
              || (k.stage.Queued? && k.stage.message in st.mailbox)
              || (k.waiting.Some? && k.Released() && (SessionFits(s) ==> Decode(k) == Got(OutputOf(UnderWay(st, s).value))))
  {
    hide SessionOk, LoadWord, DecodeRead, DecodeTryRead, DecodePoll, ReplyTo, ReplyOf;
    var st := Reached(events);
    ReachedInv(events);
    var w := st.sessions[s].owner;
    assert WorkerOk(st, w);
    if Complete(c) in st.mailbox {
      MailboxMessageIsItsWorkers(st, Complete(c));
    }
    if st.workers[w].stage.Queued? {
      assert InMailbox(st, w, st.workers[w].stage.message);
    }
  }

  lemma MailboxMessageIsItsWorkers(st: World, m: Message)
    requires MailboxOk(st) && OwnedOk(st) && m in st.mailbox
    ensures Owns(st, m.Worker(), m.Session())
    ensures m.Worker() !in st.early ==> StageOf(st, m.Worker()) == Queued(m)
  {
    var i :| 0 <= i < |st.mailbox| && st.mailbox[i] == m;
    assert Owns(st, st.mailbox[i].Worker(), st.mailbox[i].Session());
  }

  /** A read stays parked only while there is nothing to answer it with, in every run. */
  lemma ParkedReadHasNothingToRead(events: seq<Event>, s: SessionId)
    requires s in Reached(events).tables.pending
    ensures var st := Reached(events);
            && s in st.sessions
            && QueueOf(st.tables, s) == [] && s !in st.tables.results
            && st.tables.pending[s] == Waiter(st.sessions[s].owner, s)
            && (Orderly(st, s) ==> UnderWay(st, s) == None)
  {
    hide Inv, SessionOk, WorkersOk, TransitOk, MailboxOk, Apply;
    ReachedInv(events);
    ParkedEntry(Reached(events), s);
  }

  lemma ParkedEntry(st: World, s: SessionId)
    requires Inv(st) && s in st.tables.pending
    ensures s in st.sessions && QueueOf(st.tables, s) == [] && s !in st.tables.results
    ensures st.tables.pending[s] == Waiter(st.sessions[s].owner, s)
    ensures st.sessions[s].owner !in st.early ==> StageOf(st, st.sessions[s].owner) == Parked(s)
  {
    hide SessionOk, WorkersOk, TransitOk, MailboxOk;
    assert EntryOf(st.tables, s).waiter.Some? && EntryOf(st.tables, s).Parkable();
    OwnSession(st, s);
    if st.sessions[s].owner !in st.early {
      WaiterMeansParked(st, s);
    }
  }

  /**
   The exit comes after the output: once one is under way or received, everything produced has been
   delivered. Every exit carries the code the promise settled with.
   */
  lemma ExitComesLast(events: seq<Event>, s: SessionId)
    requires Orderly(Reached(events), s)
    ensures var st := Reached(events);
            var r := st.sessions[s];
            var exits := r.exits + ExitsOf(UnderWay(st, s));
            && (exits != [] && SessionFits(s) ==> r.delivered == r.emitted)
            && (forall i :: 0 <= i < |exits| ==> r.code == Some(exits[i]))
  {
    ReachedInv(events);
    assert SessionOk(s, ViewOf(Reached(events), s));
  }

  /** The exit is reported once, or twice if a read was parked when the promise settled. */
  lemma ExitIsCounted(events: seq<Event>, s: SessionId)
    requires Orderly(Reached(events), s) && SessionFits(s)
    ensures var st := Reached(events);
            var r := st.sessions[s];
            |r.exits| + |ExitsOf(UnderWay(st, s))| + (if s in st.tables.results then 1 else 0)
            == if r.code.None? then 0 else if r.wasParked then 2 else 1
  {
    ReachedInv(events);
    assert SessionOk(s, ViewOf(Reached(events), s));
  }

  /** The worker's wait can return and its status word is not zero. */
  predicate HasAnswer(st: World, w: WorkerId) {
    CanWake(st, w) && st.workers[w].Released()
  }

  /** An answered blocking read gets an output exactly when the session id fits; the error is a mismatch. */
  lemma ReadsSucceedIffIdFits(events: seq<Event>, w: WorkerId)
    requires w !in Reached(events).early && HasAnswer(Reached(events), w) && Reached(events).workers[w].waiting.value.op.BlockingRead?
    ensures var k := Reached(events).workers[w];
            && (Decode(k).Got? <==> SessionFits(k.waiting.value.session))
            && (Decode(k) == SessionMismatch <==> !SessionFits(k.waiting.value.session))
  {
    ReachedInv(events);
    assert WorkerOk(Reached(events), w);
  }

  /** Ids come from one counter, so no read fails before 2^31 requests have been made. */
  lemma EarlyReadsSucceed(events: seq<Event>, w: WorkerId)
    requires w !in Reached(events).early && HasAnswer(Reached(events), w) && Reached(events).workers[w].waiting.value.op.BlockingRead?
    requires Reached(events).nextId <= 0x8000_0000
    ensures Decode(Reached(events).workers[w]).Got?
  {
    ReachedInv(events);
    ReadsSucceedIffIdFits(events, w);
  }

  /** A non-blocking read always gets a clean answer. */
  lemma TryReadsNeverFail(events: seq<Event>, w: WorkerId)
    requires w !in Reached(events).early && HasAnswer(Reached(events), w) && Reached(events).workers[w].waiting.value.op.TryRead?
    ensures var a := Decode(Reached(events).workers[w]); a.Got? || a.Nothing?
  {
    ReachedInv(events);
    assert WorkerOk(Reached(events), w);
  }

  /**
   Polling is truthful and stable: if the reader's last poll of `s` said ready, its next read,
   blocking or not, returns an output, whatever the handler does meanwhile.
   */
  lemma PolledReadSucceeds(events: seq<Event>, w: WorkerId)
    requires w !in Reached(events).early && HasAnswer(Reached(events), w) && !Reached(events).workers[w].waiting.value.op.Poll?
    requires var st := Reached(events);
             var s := st.workers[w].waiting.value.session; st.sessions[s].promised && SessionFits(s)
    ensures Decode(Reached(events).workers[w]).Got?
  {
    hide Inv, Apply;
    ReachedInv(events);
    var st := Reached(events);
    OwnRequest(st, w);
    PromiseIsKept(st.workers[w].waiting.value.session, ViewOf(st, st.workers[w].waiting.value.session), st.workers[w]);
  }

  lemma PromiseIsKept(s: SessionId, v: View, k: Worker)
    requires PromiseOk(s, v) && v.record.promised && SessionFits(s) && k.stage == v.stage
    requires k.waiting.Some? && k.waiting.value.session == s && !k.waiting.value.op.Poll?
    requires StageOk(k.waiting.value, k) && k.Released()
    ensures Decode(k).Got?
  {
    hide DecodeRead, DecodeTryRead, DecodePoll;
  }

  /** Only a read of `s` can take back what a poll of `s` found. */
  lemma OnlyReadsConsume(st: World, e: Event, s: SessionId)
    requires Ready(st.tables, s)
    requires e.Handle? && st.mailbox != [] && st.mailbox[0].Ask? && !st.mailbox[0].request.op.Poll?
             ==> st.mailbox[0].request.session != s
    ensures Ready(Apply(st, e).tables, s)
  {
    hide StoreResponse, Log, Emit, Settle, Take, Ready;
    match e
    case Call(s', cb) => if CanCall(st, s', cb) { EmitKeepsReady(st.tables, s', cb, s); }
    case Finish(s', outcome) => SettleKeepsReady(st.tables, s', outcome, s);
    case Handle =>
      if CanHandle(st) && st.mailbox[0].Ask? && st.mailbox[0].request.session != s {
        TakeKeepsReady(st.tables, st.mailbox[0].request.worker, st.mailbox[0].request.session, s);
      }
    case _ =>
  }

  lemma EmitKeepsReady(t: Tables, s': SessionId, cb: Callback, s: SessionId)
    requires cb.Fits() && Ready(t, s)
    ensures Ready(Emit(t, s', cb).0, s)
  {
  }

  lemma SettleKeepsReady(t: Tables, s': SessionId, outcome: Result<i32>, s: SessionId)
    requires Ready(t, s)
    ensures Ready(Settle(t, s', outcome).0, s)
  {
  }

  lemma TakeKeepsReady(t: Tables, w: WorkerId, s': SessionId, s: SessionId)
    requires Ready(t, s) && s' != s
    ensures Ready(Take(t, s').0, s) && Ready(Read(t, w, s').0, s)
  {
  }

  /**
   A blocked reader is never forgotten: when no message is on the way and its buffer has not been
   answered, it is parked, there is nothing it could be given, and the exits due have been received.
   */
  lemma BlockedReaderIsParked(events: seq<Event>, w: WorkerId)
    requires w in Reached(events).workers && w !in Reached(events).early
    requires Reached(events).workers[w].waiting.Some? && !Reached(events).workers[w].Released()
    requires Reached(events).transit == [] && Reached(events).mailbox == []
    ensures var st := Reached(events);
            var req := st.workers[w].waiting.value;
            && req.session in st.sessions
            && req.op.BlockingRead? && WaiterOf(st.tables, req.session) == Some(Waiter(w, req.session))
            && !Ready(st.tables, req.session)
            && (SessionFits(req.session) ==> st.sessions[req.session].delivered == st.sessions[req.session].emitted
                                             && |st.sessions[req.session].exits| == ExitsDue(st.sessions[req.session]))
  {
    hide LoadWord, AnswerOk;
    ReachedInv(events);
    var st := Reached(events);
    var k := st.workers[w];
    assert WorkerOk(st, w);
    var s := k.waiting.value.session;
    assert SessionOk(s, ViewOf(st, s));
    assert k.stage.Sent? ==> InTransit(st, w, k.stage.request);
    assert k.stage.Queued? ==> InMailbox(st, w, k.stage.message);
  }

  /**
   Why a request and its status reset must count as one step: a reset that comes after the answer
   hides it, and no message is left that could ever bring the reader another one.
   */
  lemma LateResetStrandsReader(events: seq<Event>, w: WorkerId)
    requires w !in Reached(events).early && HasAnswer(Reached(events), w)
    ensures var st := Reached(events);
            var k := st.workers[w];
            && !k.(buffer := StoreWord(k.buffer, STATUS, WAITING)).Released()
            && (forall i :: 0 <= i < |st.transit| ==> st.transit[i].worker != w)
            && (forall i :: 0 <= i < |st.mailbox| ==> st.mailbox[i].Worker() != w)
            && (forall s :: s in st.tables.pending ==> st.tables.pending[s].worker != w)
  {
    hide Inv, StageOk, LoadWord, StoreWord, Apply, TransitOk, MailboxOk;
    ReachedInv(events);
    var st := Reached(events);
    WordRoundTrip(st.workers[w].buffer, STATUS, WAITING, STATUS);
    ReleasedIsAnswered(st, w);
    NothingOnTheWay(st, w);
    forall s | s in st.tables.pending ensures st.tables.pending[s].worker != w {
      ParkedEntry(st, s);
    }
  }

  lemma ReleasedIsAnswered(st: World, w: WorkerId)
    requires Inv(st) && w !in st.early && HasAnswer(st, w)
    ensures StageOf(st, w).Answered? && TransitOk(st) && MailboxOk(st)
  {
    assert WorkerOk(st, w);
  }
}
