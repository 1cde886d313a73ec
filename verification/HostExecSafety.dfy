/** The inductive invariant of the host_exec protocol, and its parts that only depend on one session or one worker. */
module HostExecSafety {
  import opened Words
  import opened ResponseBuffer
  import opened HostExec
  import opened HostExecSystem

  // ---- One session ----

  /** What concerns one session: its record, its table entries, and where its reader's request is. */
  datatype View = View(record: Session, entry: Entry, stage: Stage)

  function StageOf(st: World, w: WorkerId): Stage { if w in st.workers then st.workers[w].stage else Free }

  function ViewOf(st: World, s: SessionId): View
    requires s in st.sessions
  {
    View(st.sessions[s], EntryOf(st.tables, s), StageOf(st, st.sessions[s].owner))
  }

  /** The reply on its way to the reader: a completion in the mailbox, or one in the reader's buffer. */
  function InFlight(stage: Stage, s: SessionId): Option<Reply> {
    match stage
    case Queued(Complete(c)) => if c.session == s then Some(ReplyTo(c)) else None
    case Answered(s', Replied(r)) => if s' == s then Some(r) else None
    case _ => None
  }

  function ChunksOf(r: Option<Reply>): seq<Chunk> {
    if r.Some? && r.value.Data? then [Chunk(r.value.msgType, r.value.data)] else []
  }

  function ExitsOf(r: Option<Reply>): seq<i32> {
    if r.Some? && r.value.ExitCode? then [r.value.code] else []
  }

  predicate Sendable(r: Reply) {
    r.Data? ==> r.msgType != EXIT && |r.data| <= MAX_DATA
  }

  /** All exits the reader got or is about to get. */
  function ExitReports(v: View, s: SessionId): seq<i32> { v.record.exits + ExitsOf(InFlight(v.stage, s)) }

  /** The exit a later read would still get. */
  function StoredExit(v: View): seq<i32> { if v.entry.result.Some? then [v.entry.result.value] else [] }

  /** A settled session reports its exit once, or twice if a read was parked when it settled. */
  function ExitsDue(r: Session): nat { if r.code.None? then 0 else if r.wasParked then 2 else 1 }

  predicate ParkOk(s: SessionId, v: View) {
    && (v.entry.waiter.Some? <==> v.stage == Parked(s))
    && (v.entry.waiter.Some? ==> v.entry.waiter.value == Waiter(v.record.owner, s))
    && v.entry.Parkable()
  }

  predicate DataOk(s: SessionId, v: View) {
    && (forall i :: 0 <= i < |v.entry.queue| ==> Sendable(Data(v.entry.queue[i].msgType, v.entry.queue[i].data)))
    && (InFlight(v.stage, s).Some? ==> Sendable(InFlight(v.stage, s).value))
  }

  /** Nothing is lost, duplicated or reordered. */
  predicate StreamOk(s: SessionId, v: View) {
    SessionFits(s) ==> v.record.emitted == v.record.delivered + ChunksOf(InFlight(v.stage, s)) + v.entry.queue
  }

  predicate ExitOk(s: SessionId, v: View) {
    && (v.entry.result.Some? ==> v.record.code == v.entry.result)
    && (v.record.code.None? ==> ExitReports(v, s) == [])
    && (forall i :: 0 <= i < |ExitReports(v, s)| ==> v.record.code == Some(ExitReports(v, s)[i]))
    && (ExitReports(v, s) != [] ==> v.entry.queue == [] && ChunksOf(InFlight(v.stage, s)) == [])
    && |ExitReports(v, s)| + |StoredExit(v)| <= ExitsDue(v.record)
    && (SessionFits(s) ==> |ExitReports(v, s)| + |StoredExit(v)| == ExitsDue(v.record))
  }

  predicate HasNews(v: View) { v.entry.queue != [] || v.entry.result.Some? }

  /** A reader that was told there is something will find it. */
  predicate PromiseOk(s: SessionId, v: View) {
    && (v.record.promised ==> HasNews(v) || (v.stage.Answered? && InFlight(v.stage, s).Some?))
    && (v.stage == Answered(s, PollIs(true)) ==> HasNews(v))
    && (v.stage == Answered(s, NoData) ==> !v.record.promised)
  }

  predicate SessionOk(s: SessionId, v: View) {
    ParkOk(s, v) && DataOk(s, v) && StreamOk(s, v) && ExitOk(s, v) && PromiseOk(s, v)
  }

  // ---- One worker ----

  /** The buffer says what the scheduler answered. */
  predicate AnswerOk(req: Request, buf: Buffer, r: Response) {
    match r
    case Replied(reply) =>
      && !req.op.Poll?
      && DecodeTryRead(buf) == Got(OutputOf(reply))
      && DecodeRead(buf, req.session) == (if SessionFits(req.session) then Got(OutputOf(reply)) else SessionMismatch)
      && ReplyOf(OutputOf(reply)) == reply
    case NoData => req.op.TryRead? && DecodeTryRead(buf) == Nothing
    case PollIs(ready) => req.op.Poll? && DecodePoll(buf) == ready
  }

  predicate StageOk(req: Request, k: Worker) {
    match k.stage
    case Free => false
    case Sent(r) => r == req && !k.Released()
    case Queued(Ask(r)) => r == req && !k.Released()
    case Queued(Complete(c)) => req.op.BlockingRead? && c.worker == req.worker && c.session == req.session && !k.Released()
    case Parked(s) => req.op.BlockingRead? && s == req.session && !k.Released()
    case Answered(s, r) => s == req.session && k.Released() && AnswerOk(req, k.buffer, r)
  }

  predicate WorkerOk(st: World, w: WorkerId)
    requires w in st.workers
  {
    var k := st.workers[w];
    && (k.waiting.None? <==> k.stage.Free?)
    && (k.waiting.Some? ==>
          var req := k.waiting.value;
          req.worker == w && req.session in st.sessions && st.sessions[req.session].owner == w && StageOk(req, k))
  }

  // ---- The channels ----

  /** A worker that never returned early has at most one request in transit, and the history says so. */
  predicate TransitOk(st: World) {
    && (forall i :: 0 <= i < |st.transit| && st.transit[i].worker !in st.early ==>
          StageOf(st, st.transit[i].worker) == Sent(st.transit[i]))
    && (forall i, j :: 0 <= i < j < |st.transit| && st.transit[i].worker == st.transit[j].worker ==>
          st.transit[i].worker in st.early)
    && (forall w :: w in st.workers && w !in st.early && st.workers[w].stage.Sent? ==>
          InTransit(st, w, st.workers[w].stage.request))
  }

  predicate InTransit(st: World, w: WorkerId, r: Request) { r.worker == w && r in st.transit }

  /** The same for the mailbox. */
  predicate MailboxOk(st: World) {
    && (forall i :: 0 <= i < |st.mailbox| && st.mailbox[i].Worker() !in st.early ==>
          StageOf(st, st.mailbox[i].Worker()) == Queued(st.mailbox[i]))
    && (forall i, j :: 0 <= i < j < |st.mailbox| && st.mailbox[i].Worker() == st.mailbox[j].Worker() ==>
          st.mailbox[i].Worker() in st.early)
    && (forall w :: w in st.workers && w !in st.early && st.workers[w].stage.Queued? ==>
          InMailbox(st, w, st.workers[w].stage.message))
  }

  predicate InMailbox(st: World, w: WorkerId, m: Message) { m.Worker() == w && m in st.mailbox }

  // ---- All of them ----

  /** Every message, and every parked read, is its session's own reader's, and a read is parked only for want of news. */
  predicate OwnedOk(st: World) {
    && (forall i :: 0 <= i < |st.transit| ==> Owns(st, st.transit[i].worker, st.transit[i].session))
    && (forall i :: 0 <= i < |st.mailbox| ==> Owns(st, st.mailbox[i].Worker(), st.mailbox[i].Session()))
    && (forall s :: EntryOf(st.tables, s).Parkable())
    && (forall s :: s in st.sessions && EntryOf(st.tables, s).waiter.Some? ==>
          EntryOf(st.tables, s).waiter.value == Waiter(st.sessions[s].owner, s))
  }

  predicate Owns(st: World, w: WorkerId, s: SessionId) { s in st.sessions && st.sessions[s].owner == w && w in st.workers }

  predicate SessionsOk(st: World) {
    && (forall s :: s in st.sessions ==>
          s < st.nextId && st.sessions[s].owner in st.workers
          && (st.sessions[s].owner !in st.early ==> SessionOk(s, ViewOf(st, s))))
    && (forall s :: s !in st.sessions ==> EntryOf(st.tables, s) == Entry([], None, None))
  }

  predicate WorkersOk(st: World) {
    forall w :: w in st.workers && w !in st.early ==> WorkerOk(st, w)
  }

  /** The protocol is in order for every worker that never returned early, whatever the others did. */
  predicate Inv(st: World) {
    SessionsOk(st) && WorkersOk(st) && TransitOk(st) && MailboxOk(st) && OwnedOk(st)
  }

  // ---- Frames ----

  /** The request this stage is about, if any, is for session `s`. */
  predicate About(stage: Stage, s: SessionId) {
    match stage
    case Free => true
    case Sent(r) => r.session == s
    case Queued(Ask(r)) => r.session == s
    case Queued(Complete(c)) => c.session == s
    case Parked(s') => s' == s
    case Answered(s', _) => s' == s
  }

  /** A step of worker `w` on its session `s` leaves every other session and worker as it was. */
  predicate OnlyTouches(st: World, st': World, w: WorkerId, s: SessionId) {
    && Owns(st, w, s) && st'.early == st.early
    && st'.workers.Keys == st.workers.Keys && st'.sessions.Keys == st.sessions.Keys
    && st'.nextId >= st.nextId && st'.sessions[s].owner == w
    && (forall w' :: w' in st.workers && w' != w ==> st'.workers[w'] == st.workers[w'])
    && (forall s' :: s' in st.sessions && s' != s ==> st'.sessions[s'] == st.sessions[s'])
    && SameElsewhere(st.tables, st'.tables, s)
    && (w in st.early || st'.workers[w] == st.workers[w] || (About(st.workers[w].stage, s) && About(st'.workers[w].stage, s)))
  }

  lemma OtherStageKeepsSession(s: SessionId, v: View, stage: Stage, other: SessionId)
    requires SessionOk(s, v) && s != other && About(v.stage, other) && About(stage, other)
    ensures SessionOk(s, v.(stage := stage))
  {
    assert InFlight(v.stage, s) == None && InFlight(stage, s) == None;
  }

  lemma TouchKeepsSession(st: World, st': World, w: WorkerId, s: SessionId, other: SessionId)
    requires OnlyTouches(st, st', w, s) && other in st.sessions && other != s
    requires SessionOk(other, ViewOf(st, other)) && st.sessions[other].owner !in st.early
    ensures SessionOk(other, ViewOf(st', other))
  {
    hide SessionOk, EntryOf, About;
    var v := ViewOf(st, other);
    assert EntryOf(st'.tables, other) == v.entry;
    if st.sessions[other].owner == w && st'.workers[w] != st.workers[w] {
      OtherStageKeepsSession(other, v, st'.workers[w].stage, s);
    }
  }

  lemma TouchKeepsSessions(st: World, st': World, w: WorkerId, s: SessionId)
    requires SessionsOk(st) && OnlyTouches(st, st', w, s) && (w !in st.early ==> SessionOk(s, ViewOf(st', s)))
    ensures SessionsOk(st')
  {
    hide SessionOk, EntryOf, About, ViewOf;
    forall s' | s' in st'.sessions && st'.sessions[s'].owner !in st'.early
      ensures SessionOk(s', ViewOf(st', s'))
    {
      if s' != s {
        TouchKeepsSession(st, st', w, s, s');
      }
    }
    assert forall s' :: s' !in st'.sessions ==> EntryOf(st'.tables, s') == EntryOf(st.tables, s');
  }

  lemma TouchKeepsWorkers(st: World, st': World, w: WorkerId, s: SessionId)
    requires WorkersOk(st) && OnlyTouches(st, st', w, s) && (w !in st.early ==> WorkerOk(st', w))
    ensures WorkersOk(st')
  {
    hide StageOk, EntryOf, About;
    forall w' | w' in st'.workers && w' !in st'.early
      ensures WorkerOk(st', w')
    {
      if w' != w {
        assert WorkerOk(st, w');
      }
    }
  }

  /** Messages that were not there before are worker `w`'s, about session `s`. */
  predicate OnlySends(st: World, st': World, w: WorkerId, s: SessionId) {
    && (forall i :: 0 <= i < |st'.transit| ==>
          st'.transit[i] in st.transit || (st'.transit[i].worker == w && st'.transit[i].session == s))
    && (forall i :: 0 <= i < |st'.mailbox| ==>
          st'.mailbox[i] in st.mailbox || (st'.mailbox[i].Worker() == w && st'.mailbox[i].Session() == s))
  }

  lemma TouchKeepsOwned(st: World, st': World, w: WorkerId, s: SessionId)
    requires OwnedOk(st) && OnlyTouches(st, st', w, s) && OnlySends(st, st', w, s)
    requires EntryOf(st'.tables, s).Parkable()
    requires EntryOf(st'.tables, s).waiter.Some? ==> EntryOf(st'.tables, s).waiter.value == Waiter(w, s)
    ensures OwnedOk(st')
  {
    hide EntryOf, About;
    assert forall x, y :: Owns(st, x, y) ==> Owns(st', x, y);
    assert forall r :: r in st.transit ==> Owns(st, r.worker, r.session);
    assert forall m :: m in st.mailbox ==> Owns(st, m.Worker(), m.Session());
    forall x ensures EntryOf(st'.tables, x).Parkable() {
      assert x != s ==> EntryOf(st'.tables, x) == EntryOf(st.tables, x);
    }
  }
}
