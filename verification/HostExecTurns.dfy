/** The invariant of the host_exec protocol holds in every reachable state. */
module HostExecTurns {
  import opened Words
  import opened ResponseBuffer
  import opened HostExec
  import opened HostExecSystem
  import opened HostExecSafety
  import opened HostExecSteps

  // ---- The worker's steps ----

  lemma OwnStage(st: World, w: WorkerId)
    requires WorkersOk(st) && w in st.workers && w !in st.early
    ensures WorkerOk(st, w)
  {
  }

  lemma OwnSession(st: World, s: SessionId)
    requires SessionsOk(st) && OwnedOk(st) && s in st.sessions
    ensures st.sessions[s].owner in st.workers
    ensures st.sessions[s].owner !in st.early ==> SessionOk(s, ViewOf(st, s))
    ensures EntryOf(st.tables, s).Parkable()
    ensures EntryOf(st.tables, s).waiter.Some? ==> EntryOf(st.tables, s).waiter.value == Waiter(st.sessions[s].owner, s)
  {
  }

  lemma IssueKeepsInv(st: World, w: WorkerId, op: Op, s: SessionId)
    requires Inv(st) && CanIssue(st, w, s)
    ensures Inv(DoIssue(st, w, op, s))
  {
    hide SessionsOk, WorkersOk, OwnedOk, SessionOk, TransitOk, MailboxOk, EntryOf, LoadWord, StoreWord;
    var st' := DoIssue(st, w, op, s);
    var req := Request(op, w, s);
    WordRoundTrip(st.workers[w].buffer, STATUS, WAITING, STATUS);
    OwnSession(st, s);
    if w !in st.early {
      OwnStage(st, w);
      RequestMovesOn(s, ViewOf(st, s), Sent(req));
    }
    SendKeepsTransit(st, st', w, req);
    MailboxUntouched(st, st', w);
    TouchKeepsInv(st, st', w, s);
  }

  /** A wake with a nonzero status word. */
  lemma WakeKeepsInv(st: World, w: WorkerId, seen: Buffer)
    requires Inv(st) && CanWake(st, w) && st.workers[w].Released() && w !in st.early
    ensures Inv(DoWake(st, w, seen))
  {
    hide SessionsOk, WorkersOk, OwnedOk, SessionOk, TransitOk, MailboxOk, EntryOf, LoadWord, Log, AnswerOk;
    var st' := DoWake(st, w, seen);
    var k := st.workers[w];
    var s := k.waiting.value.session;
    OwnStage(st, w);
    OwnSession(st, s);
    WakeKeepsSession(s, ViewOf(st, s), k);
    LogKeepsOwner(st.sessions[s], k);
    TransitUntouched(st, st', w);
    MailboxUntouched(st, st', w);
    TouchKeepsInv(st, st', w, s);
  }

  lemma LogKeepsOwner(r: Session, k: Worker)
    requires k.waiting.Some?
    ensures var r' := Log(r, k);
            r'.owner == r.owner && r'.code == r.code && r'.wasParked == r.wasParked && r'.emitted == r.emitted
  {
    hide DecodePoll, Decode;
  }

  /** A wake of a worker that returns early, or has done so before. */
  lemma EarlyWakeKeepsInv(st: World, w: WorkerId, seen: Buffer)
    requires Inv(st) && CanWake(st, w) && (w in st.early || !st.workers[w].Released())
    requires Owns(st, w, st.workers[w].waiting.value.session)
    ensures Inv(DoWake(st, w, seen))
  {
    hide SessionsOk, WorkersOk, OwnedOk, SessionOk, TransitOk, MailboxOk, EntryOf, LoadWord, Log, AnswerOk;
    var cut := st.(early := st.early + {w});
    ForgettingKeepsInv(st, w);
    var st' := DoWake(st, w, seen);
    var s := st.workers[w].waiting.value.session;
    OwnSession(st, s);
    LogKeepsOwner(st.sessions[s], Loaded(st.workers[w], seen));
    assert st'.early == cut.early;
    TransitUntouched(cut, st', w);
    MailboxUntouched(cut, st', w);
    TouchKeepsInv(cut, st', w, s);
  }

  /** Asking less of one worker keeps the invariant. */
  lemma ForgettingKeepsInv(st: World, w: WorkerId)
    requires Inv(st)
    ensures Inv(st.(early := st.early + {w}))
  {
    hide SessionOk, EntryOf, StageOk;
    var cut := st.(early := st.early + {w});
    assert forall x, y :: Owns(cut, x, y) == Owns(st, x, y);
    forall s | s in cut.sessions && cut.sessions[s].owner !in cut.early
      ensures SessionOk(s, ViewOf(cut, s))
    {
      assert ViewOf(cut, s) == ViewOf(st, s);
    }
    forall x | x in cut.workers && x !in cut.early
      ensures WorkerOk(cut, x)
    {
      assert WorkerOk(st, x);
    }
    ForgettingKeepsChannels(st, w);
  }

  lemma ForgettingKeepsChannels(st: World, w: WorkerId)
    requires TransitOk(st) && MailboxOk(st)
    ensures TransitOk(st.(early := st.early + {w})) && MailboxOk(st.(early := st.early + {w}))
  {
    var cut := st.(early := st.early + {w});
    assert forall x, r :: InTransit(cut, x, r) == InTransit(st, x, r);
    assert forall x, m :: InMailbox(cut, x, m) == InMailbox(st, x, m);
  }

  lemma StartKeepsInv(st: World, w: WorkerId)
    requires Inv(st) && CanStart(st, w)
    ensures Inv(DoStart(st, w))
  {
    hide SessionsOk, TransitOk, MailboxOk, WorkersOk, OwnedOk;
    StartKeepsSessions(st, w);
    StartKeepsWorkers(st, w);
    StartKeepsOwned(st, w);
    SameChannels(st, DoStart(st, w));
  }

  lemma StartKeepsSessions(st: World, w: WorkerId)
    requires SessionsOk(st) && WorkersOk(st) && CanStart(st, w)
    ensures SessionsOk(DoStart(st, w))
  {
    hide EntryOf, StageOk, SessionOk;
    var st' := DoStart(st, w);
    assert w !in st.early ==> WorkerOk(st, w);
    FreshSessionOk(st.nextId, w);
    assert forall s :: s in st.sessions ==> ViewOf(st', s) == ViewOf(st, s);
  }

  lemma StartKeepsWorkers(st: World, w: WorkerId)
    requires SessionsOk(st) && WorkersOk(st) && CanStart(st, w)
    ensures WorkersOk(DoStart(st, w))
  {
    hide EntryOf, StageOk, SessionOk, ViewOf;
    var st' := DoStart(st, w);
    forall w' | w' in st'.workers && w' !in st'.early
      ensures WorkerOk(st', w')
    {
      assert WorkerOk(st, w');
    }
  }

  lemma StartKeepsOwned(st: World, w: WorkerId)
    requires SessionsOk(st) && OwnedOk(st) && CanStart(st, w)
    ensures OwnedOk(DoStart(st, w))
  {
    hide EntryOf, SessionOk, ViewOf;
    assert forall x, y :: Owns(st, x, y) ==> Owns(DoStart(st, w), x, y);
  }

  lemma FreshSessionOk(s: SessionId, w: WorkerId)
    ensures SessionOk(s, View(Session(w, None, false, [], [], [], false, []), Entry([], None, None), Free))
  {
  }

  lemma SameChannels(st: World, st': World)
    requires TransitOk(st) && MailboxOk(st)
    requires st'.workers == st.workers && st'.transit == st.transit && st'.mailbox == st.mailbox && st'.early == st.early
    ensures TransitOk(st') && MailboxOk(st')
  {
    assert forall x, r :: InTransit(st', x, r) == InTransit(st, x, r);
    assert forall x, m :: InMailbox(st', x, m) == InMailbox(st, x, m);
  }

  lemma LaunchKeepsInv(st: World, w: WorkerId, buffer: Buffer)
    requires Inv(st) && w !in st.workers
    ensures Inv(SetWorker(st, w, Worker(buffer, None, false, Free)))
  {
    hide EntryOf, StageOk, SessionOk;
    var st' := SetWorker(st, w, Worker(buffer, None, false, Free));
    assert forall s :: s in st.sessions ==> ViewOf(st', s) == ViewOf(st, s);
    assert forall x, y :: Owns(st, x, y) ==> Owns(st', x, y);
    forall w' | w' in st.workers && w' !in st.early
      ensures WorkerOk(st', w')
    {
      assert WorkerOk(st, w');
    }
    LaunchKeepsChannels(st, w, buffer);
  }

  lemma LaunchKeepsChannels(st: World, w: WorkerId, buffer: Buffer)
    requires TransitOk(st) && MailboxOk(st) && OwnedOk(st) && w !in st.workers
    ensures TransitOk(SetWorker(st, w, Worker(buffer, None, false, Free)))
    ensures MailboxOk(SetWorker(st, w, Worker(buffer, None, false, Free)))
  {
    hide EntryOf;
    var st' := SetWorker(st, w, Worker(buffer, None, false, Free));
    assert forall x, r :: InTransit(st', x, r) == InTransit(st, x, r);
    assert forall x, m :: InMailbox(st', x, m) == InMailbox(st, x, m);
  }

  // ---- The scheduler's steps ----

  lemma NotifyKeepsInv(st: World)
    requires Inv(st) && st.notifying.Some?
    ensures Inv(DoNotify(st))
  {
    hide EntryOf, SessionOk, StageOk, LoadWord, TransitOk, MailboxOk;
    var st' := DoNotify(st);
    assert forall s :: s in st.sessions ==> ViewOf(st', s) == ViewOf(st, s);
    assert forall x, y :: Owns(st, x, y) ==> Owns(st', x, y);
    forall w | w in st'.workers && w !in st'.early
      ensures WorkerOk(st', w)
    {
      assert WorkerOk(st, w);
      SameStageOk(st.workers[w], st'.workers[w]);
    }
    NotifyKeepsChannels(st);
  }

  /** Whether a notify has come is no part of a request's progress. */
  lemma SameStageOk(k: Worker, k': Worker)
    requires k'.buffer == k.buffer && k'.waiting == k.waiting && k'.stage == k.stage
    ensures k.waiting.Some? ==> StageOk(k.waiting.value, k) == StageOk(k.waiting.value, k')
  {
  }

  lemma NotifyKeepsChannels(st: World)
    requires TransitOk(st) && MailboxOk(st) && st.notifying.Some?
    ensures TransitOk(DoNotify(st)) && MailboxOk(DoNotify(st))
  {
    var st' := DoNotify(st);
    assert forall w :: w in st.workers ==> st'.workers[w].stage == st.workers[w].stage;
    assert forall w, r :: InTransit(st', w, r) == InTransit(st, w, r);
    assert forall w, m :: InMailbox(st', w, m) == InMailbox(st, w, m);
  }

  lemma ArriveKeepsInv(st: World, at: nat)
    requires Inv(st) && at < |st.transit|
    ensures Inv(DoArrive(st, at))
  {
    hide SessionsOk, WorkersOk, OwnedOk, SessionOk, TransitOk, MailboxOk, EntryOf, LoadWord;
    var st' := DoArrive(st, at);
    var req := st.transit[at];
    var (w, s) := (req.worker, req.session);
    InTransitMeansSent(st, at);
    OwnSession(st, s);
    if w !in st.early {
      OwnStage(st, w);
      RequestMovesOn(s, ViewOf(st, s), Queued(Ask(req)));
    }
    LeaveKeepsTransit(st, st', w, at);
    EnterKeepsMailbox(st, st', w, Ask(req));
    TouchKeepsInv(st, st', w, s);
  }

  lemma InTransitMeansSent(st: World, at: nat)
    requires TransitOk(st) && OwnedOk(st) && at < |st.transit|
    ensures var r := st.transit[at];
            Owns(st, r.worker, r.session) && (r.worker !in st.early ==> st.workers[r.worker].stage == Sent(r))
  {
    assert st.transit[at].worker !in st.early ==> StageOf(st, st.transit[at].worker) == Sent(st.transit[at]);
  }

  lemma FrontMeansQueued(st: World)
    requires MailboxOk(st) && OwnedOk(st) && st.mailbox != []
    ensures var m := st.mailbox[0];
            Owns(st, m.Worker(), m.Session()) && (m.Worker() !in st.early ==> st.workers[m.Worker()].stage == Queued(m))
  {
    assert st.mailbox[0].Worker() !in st.early ==> StageOf(st, st.mailbox[0].Worker()) == Queued(st.mailbox[0]);
  }

  /** Handling the front message ends its worker's turn in the mailbox. */
  lemma HandleKeepsChannels(st: World, st': World, w: WorkerId)
    requires TransitOk(st) && MailboxOk(st) && OwnedOk(st) && OnlyWorker(st, st', w)
    requires st.mailbox != [] && st.mailbox[0].Worker() == w
    requires st'.transit == st.transit && st'.mailbox == st.mailbox[1..]
    requires w !in st.early ==> !st'.workers[w].stage.Sent? && !st'.workers[w].stage.Queued?
    ensures TransitOk(st') && MailboxOk(st')
  {
    hide TransitOk, MailboxOk, OwnedOk;
    FrontMeansQueued(st);
    TransitUntouched(st, st', w);
    PopKeepsMailbox(st, st', w);
  }

  lemma HandleTakeKeepsInv(st: World, req: Request, tables: Tables, reply: Reply)
    requires Inv(st) && st.mailbox != [] && st.mailbox[0] == Ask(req) && req.worker in st.workers && !req.op.Poll?
    requires Take(st.tables, req.session) == (tables, Some(reply))
    ensures Inv(Respond(st.(tables := tables, mailbox := st.mailbox[1..]), req.worker, req.session, Replied(reply)))
  {
    hide SessionsOk, WorkersOk, OwnedOk, SessionOk, TransitOk, MailboxOk, Take, EntryOf, StoreResponse, LoadWord, AnswerOk;
    var st1 := st.(tables := tables, mailbox := st.mailbox[1..]);
    var st' := Respond(st1, req.worker, req.session, Replied(reply));
    FrontMeansQueued(st);
    OwnSession(st, req.session);
    TakeEffect(st.tables, req.session);
    if req.worker !in st.early {
      OwnStage(st, req.worker);
      var v := ViewOf(st, req.session);
      TakenIsSendable(req.session, v, reply);
      TakeKeepsSession(req.session, v, ViewOf(st', req.session), reply);
      RespondKeepsWorker(st1, req.worker, req.session, Replied(reply));
    }
    HandleKeepsChannels(st, st', req.worker);
    TouchKeepsInv(st, st', req.worker, req.session);
  }

  lemma TakenIsSendable(s: SessionId, v: View, reply: Reply)
    requires SessionOk(s, v)
    requires if v.entry.queue != [] then reply == Data(v.entry.queue[0].msgType, v.entry.queue[0].data) else reply.ExitCode?
    ensures Sendable(reply)
  {
  }

  /** The three answers that take nothing: park, "no data", and the answer to a poll. */
  lemma HandleQuietKeepsInv(st: World, req: Request, st': World)
    requires Inv(st) && st.mailbox != [] && st.mailbox[0] == Ask(req) && req.worker in st.workers
    requires st' == HandleAsk(st.(mailbox := st.mailbox[1..]), req)
    requires req.op.Poll? || Take(st.tables, req.session).1.None?
    ensures Inv(st')
  {
    hide SessionsOk, WorkersOk, OwnedOk, SessionOk, TransitOk, MailboxOk, Take, EntryOf, HandleAsk, LoadWord, AnswerOk;
    FrontMeansQueued(st);
    OwnSession(st, req.session);
    if req.worker !in st.early { OwnStage(st, req.worker); }
    QuietFrame(st, req, st');
    if req.worker !in st.early {
      QuietKeepsOwn(st, req, st');
    }
    HandleKeepsChannels(st, st', req.worker);
    TouchKeepsInv(st, st', req.worker, req.session);
  }

  /** What such an answer leaves alone. */
  lemma QuietFrame(st: World, req: Request, st': World)
    requires st.mailbox != [] && st.mailbox[0] == Ask(req) && req.worker in st.workers
    requires st' == HandleAsk(st.(mailbox := st.mailbox[1..]), req)
    requires req.op.Poll? || Take(st.tables, req.session).1.None?
    requires EntryOf(st.tables, req.session).Parkable()
    requires EntryOf(st.tables, req.session).waiter.Some? ==> EntryOf(st.tables, req.session).waiter.value == Waiter(req.worker, req.session)
    ensures OnlyWorker(st, st', req.worker) && st'.sessions == st.sessions && st'.nextId == st.nextId
    ensures st'.transit == st.transit && st'.mailbox == st.mailbox[1..]
    ensures var stage := st'.workers[req.worker].stage; About(stage, req.session) && !stage.Sent? && !stage.Queued?
    ensures SameElsewhere(st.tables, st'.tables, req.session)
    ensures var e := EntryOf(st'.tables, req.session);
            e.Parkable() && (e.waiter.Some? ==> e.waiter.value == Waiter(req.worker, req.session))
  {
    hide Take, EntryOf, StoreResponse;
    TakeEffect(st.tables, req.session);
    QuietEntries(st.tables, req);
  }

  lemma QuietKeepsOwn(st: World, req: Request, st': World)
    requires Inv(st) && st.mailbox != [] && st.mailbox[0] == Ask(req) && req.worker in st.workers && req.worker !in st.early
    requires st' == HandleAsk(st.(mailbox := st.mailbox[1..]), req)
    requires req.op.Poll? || Take(st.tables, req.session).1.None?
    ensures req.session in st'.sessions && SessionOk(req.session, ViewOf(st', req.session)) && WorkerOk(st', req.worker)
  {
    hide SessionsOk, WorkersOk, OwnedOk, SessionOk, TransitOk, MailboxOk, Take, EntryOf, StoreResponse, LoadWord, AnswerOk;
    FrontMeansQueued(st);
    OwnStage(st, req.worker);
    OwnSession(st, req.session);
    TakeEffect(st.tables, req.session);
    QuietEntries(st.tables, req);
    QuietReplyKeepsSession(req.session, ViewOf(st, req.session), ViewOf(st', req.session));
    if !req.op.BlockingRead? {
      RespondKeepsWorker(st.(mailbox := st.mailbox[1..]), req.worker, req.session,
                         if req.op.Poll? then PollIs(Ready(st.tables, req.session)) else NoData);
    }
  }

  lemma QuietEntries(t: Tables, req: Request)
    ensures var e := EntryOf(t, req.session);
            && Ready(t, req.session) == (e.queue != [] || e.result.Some?)
            && var parked := t.(pending := t.pending[req.session := Waiter(req.worker, req.session)]);
               EntryOf(parked, req.session) == e.(waiter := Some(Waiter(req.worker, req.session)))
               && SameElsewhere(t, parked, req.session)
  {
  }

  lemma HandleCompletionKeepsInv(st: World, c: Completion)
    requires Inv(st) && st.mailbox != [] && st.mailbox[0] == Complete(c) && c.worker in st.workers
    ensures Inv(Respond(st.(mailbox := st.mailbox[1..]), c.worker, c.session, Replied(ReplyTo(c))))
  {
    hide SessionsOk, WorkersOk, OwnedOk, TransitOk, MailboxOk, EntryOf, StoreResponse, LoadWord, AnswerOk,
         ParkOk, StreamOk, ExitOk, PromiseOk, ReplyTo;
    var st1 := st.(mailbox := st.mailbox[1..]);
    var st' := Respond(st1, c.worker, c.session, Replied(ReplyTo(c)));
    FrontMeansQueued(st);
    OwnSession(st, c.session);
    if c.worker !in st.early {
      OwnStage(st, c.worker);
      assert InFlight(ViewOf(st, c.session).stage, c.session) == Some(ReplyTo(c));
      CompletionKeepsSession(c.session, ViewOf(st, c.session), c);
      RespondKeepsWorker(st1, c.worker, c.session, Replied(ReplyTo(c)));
    }
    HandleKeepsChannels(st, st', c.worker);
    TouchKeepsInv(st, st', c.worker, c.session);
  }

  lemma HandleKeepsInv(st: World)
    requires Inv(st) && CanHandle(st)
    ensures Inv(DoHandle(st))
  {
    hide Inv, Take, StoreResponse, ReplyTo;
    match st.mailbox[0]
    case Complete(c) =>
      HandleCompletionKeepsInv(st, c);
    case Ask(req) =>
      var (tables, reply) := Take(st.tables, req.session);
      if req.op.Poll? || reply.None? {
        HandleQuietKeepsInv(st, req, DoHandle(st));
      } else {
        HandleTakeKeepsInv(st, req, tables, reply.value);
      }
  }

  // ---- The handler's steps ----

  /** A handler's step that may answer a parked read of `s`. */
  lemma HandlerStepKeepsInv(st: World, s: SessionId, record: Session, tables: Tables, sent: Option<Completion>)
    requires Inv(st) && s in st.sessions && record.owner == st.sessions[s].owner
    requires SameElsewhere(st.tables, tables, s) && EntryOf(tables, s).waiter.None?
    requires sent.Some? <==> EntryOf(st.tables, s).waiter.Some?
    requires sent.Some? ==> sent.value.worker == record.owner && sent.value.session == s
    requires record.owner !in st.early && record.owner in st.workers ==>
               SessionOk(s, View(record, EntryOf(tables, s),
                                 if sent.Some? then Queued(Complete(sent.value)) else st.workers[record.owner].stage))
    ensures Inv(Enqueue(SetSession(st, s, record).(tables := tables), sent))
  {
    hide SessionsOk, WorkersOk, OwnedOk, SessionOk, TransitOk, MailboxOk, EntryOf, LoadWord, AnswerOk;
    var w := record.owner;
    var st' := Enqueue(SetSession(st, s, record).(tables := tables), sent);
    OwnSession(st, s);
    if w !in st.early {
      OwnStage(st, w);
      WaiterMeansParked(st, s);
    }
    if sent.Some? {
      TransitUntouched(st, st', w);
      EnterKeepsMailbox(st, st', w, Complete(sent.value));
    } else {
      SameChannels(st, st');
    }
    TouchKeepsInv(st, st', w, s);
  }

  lemma WaiterMeansParked(st: World, s: SessionId)
    requires SessionsOk(st) && s in st.sessions && st.sessions[s].owner !in st.early
    ensures EntryOf(st.tables, s).waiter.Some? <==> StageOf(st, st.sessions[s].owner) == Parked(s)
    ensures EntryOf(st.tables, s).waiter.Some? ==> EntryOf(st.tables, s).waiter.value == Waiter(st.sessions[s].owner, s)
  {
    assert SessionOk(s, ViewOf(st, s));
  }

  lemma CallKeepsInv(st: World, s: SessionId, cb: Callback)
    requires Inv(st) && CanCall(st, s, cb)
    ensures Inv(DoCall(st, s, cb))
  {
    hide SessionsOk, WorkersOk, OwnedOk, TransitOk, MailboxOk, SessionOk, EntryOf, Emit;
    OwnSession(st, s);
    EmitEffect(st.tables, s, cb);
    if st.sessions[s].owner !in st.early {
      CallKeepsSession(s, ViewOf(st, s), cb);
    }
    var r := st.sessions[s];
    var (tables, sent) := Emit(st.tables, s, cb);
    HandlerStepKeepsInv(st, s, r.(emitted := r.emitted + [cb.Message()]), tables, sent);
  }

  lemma FinishKeepsInv(st: World, s: SessionId, outcome: Result<i32>)
    requires Inv(st) && CanFinish(st, s)
    ensures Inv(DoFinish(st, s, outcome))
  {
    hide SessionsOk, WorkersOk, OwnedOk, TransitOk, MailboxOk, SessionOk, EntryOf, Settle, ReplyTo;
    OwnSession(st, s);
    SettleEffect(st.tables, s, outcome);
    var (tables, sent) := Settle(st.tables, s, outcome);
    if st.sessions[s].owner !in st.early {
      FinishKeepsSession(s, ViewOf(st, s), outcome, sent);
    }
    HandlerStepKeepsInv(st, s, Settled(st.sessions[s], outcome, sent), tables, sent);
  }

  // ---- Every run ----

  /** What a waiting worker asked for is a session of its own, whether or not it ever returned early. */
  predicate WaitsForOwn(st: World) {
    forall w :: w in st.workers && st.workers[w].waiting.Some? ==>
      st.workers[w].waiting.value.worker == w && Owns(st, w, st.workers[w].waiting.value.session)
  }

  predicate SameWaits(st: World, st': World) {
    && st'.workers.Keys == st.workers.Keys && st'.sessions.Keys == st.sessions.Keys
    && (forall w :: w in st.workers ==> st'.workers[w].waiting == st.workers[w].waiting)
    && (forall s :: s in st.sessions ==> st'.sessions[s].owner == st.sessions[s].owner)
  }

  lemma HandleKeepsWaits(st: World)
    requires CanHandle(st)
    ensures SameWaits(st, DoHandle(st))
  {
    hide StoreResponse, Take, Read, Ready, ReplyTo;
  }

  lemma EnqueueKeepsWaits(st: World, sent: Option<Completion>)
    ensures SameWaits(st, Enqueue(st, sent))
  {
  }

  lemma ApplyKeepsWaits(st: World, e: Event)
    requires WaitsForOwn(st) && (st.nextId < ID_LIMIT ==> st.nextId !in st.sessions)
    ensures WaitsForOwn(Apply(st, e))
  {
    hide Log, StoreResponse, StoreWord, LoadWord, Emit, Settle, DoHandle, Enqueue;
    match e
    case Wake(w, seen) =>
      if CanWake(st, w) {
        LogKeepsOwner(st.sessions[st.workers[w].waiting.value.session], Loaded(st.workers[w], seen));
      }
    case Handle => if CanHandle(st) { HandleKeepsWaits(st); }
    case Call(s, cb) =>
      if CanCall(st, s, cb) {
        var r := st.sessions[s];
        var (tables, sent) := Emit(st.tables, s, cb);
        EnqueueKeepsWaits(SetSession(st, s, r.(emitted := r.emitted + [cb.Message()])).(tables := tables), sent);
      }
    case Finish(s, outcome) =>
      if CanFinish(st, s) {
        var (tables, sent) := Settle(st.tables, s, outcome);
        EnqueueKeepsWaits(SetSession(st, s, Settled(st.sessions[s], outcome, sent)).(tables := tables), sent);
      }
    case _ =>
  }

  lemma ApplyKeepsInv(st: World, e: Event)
    requires Inv(st) && WaitsForOwn(st)
    ensures Inv(Apply(st, e))
  {
    hide Inv, DoStart, DoIssue, DoWake, DoArrive, DoHandle, DoNotify, DoCall, DoFinish;
    match e
    case Launch(w, buffer) => if w !in st.workers { LaunchKeepsInv(st, w, buffer); }
    case Start(w) => if CanStart(st, w) { StartKeepsInv(st, w); }
    case Issue(w, op, s) => if CanIssue(st, w, s) { IssueKeepsInv(st, w, op, s); }
    case Arrive(at) => if at < |st.transit| { ArriveKeepsInv(st, at); }
    case Handle => if CanHandle(st) { HandleKeepsInv(st); }
    case Notify => if st.notifying.Some? { NotifyKeepsInv(st); }
    case Wake(w, seen) =>
      if CanWake(st, w) {
        if w !in st.early && st.workers[w].Released() { WakeKeepsInv(st, w, seen); } else { EarlyWakeKeepsInv(st, w, seen); }
      }
    case Call(s, cb) => if CanCall(st, s, cb) { CallKeepsInv(st, s, cb); }
    case Finish(s, outcome) => if CanFinish(st, s) { FinishKeepsInv(st, s, outcome); }
  }

  lemma {:induction false} ReachedInv(events: seq<Event>)
    ensures Inv(Reached(events)) && WaitsForOwn(Reached(events))
  {
    hide Inv, Apply, WaitsForOwn;
    if events != [] {
      var st := Reached(events[..|events| - 1]);
      ReachedInv(events[..|events| - 1]);
      NextIdIsFresh(st);
      ApplyKeepsInv(st, events[|events| - 1]);
      ApplyKeepsWaits(st, events[|events| - 1]);
    } else {
      EmptyInv();
    }
  }

  lemma NextIdIsFresh(st: World)
    requires Inv(st)
    ensures st.nextId < ID_LIMIT ==> st.nextId !in st.sessions
  {
  }

  lemma EmptyInv()
    ensures Inv(Empty) && WaitsForOwn(Empty)
  {
  }
}
