/**
 The host_exec session protocol as a distributed step system: workers that block on their shared
 buffer, requests in transit to the scheduler, the scheduler's mailbox and tables, and the
 JavaScript handler's callbacks. The scheduler stores an answer and wakes the worker in two steps,
 between which workers may run; nothing else on the scheduler's thread can.
 */
module HostExecSystem {
  import opened Words
  import opened ResponseBuffer
  import opened HostExec

  datatype Op = BlockingRead | TryRead | Poll

  datatype Request = Request(op: Op, worker: WorkerId, session: SessionId)

  /** What the scheduler's mailbox holds. */
  datatype Message = Ask(request: Request) | Complete(completion: Completion) {
    function Worker(): WorkerId { if Ask? then request.worker else completion.worker }

    function Session(): SessionId { if Ask? then request.session else completion.session }
  }

  /** What the scheduler wrote into a worker's buffer. */
  datatype Response = Replied(reply: Reply) | NoData | PollIs(ready: bool)

  /** History: how far a worker's request has come. No step depends on it. */
  datatype Stage =
    | Free
    | Sent(request: Request)
    | Queued(message: Message)
    | Parked(session: SessionId)
    | Answered(session: SessionId, response: Response)

  /** `woken`: a notify has reached the worker's current wait. */
  datatype Worker = Worker(buffer: Buffer, waiting: Option<Request>, woken: bool, stage: Stage) {
    /** The status word is not zero. */
    predicate Released() { LoadWord(buffer, STATUS) != WAITING }
  }

  /**
   `code` is the exit code once the promise has settled. The rest is history: whether a read was
   parked at that moment, the messages the handler produced, the messages and exits the reader got,
   whether its last poll said there is something, and every output it got, in order.
   */
  datatype Session = Session(
    owner: WorkerId, code: Option<i32>, wasParked: bool,
    emitted: seq<Chunk>, delivered: seq<Chunk>, exits: seq<i32>, promised: bool,
    received: seq<Output>)

  /**
   `notifying` is the worker whose answer has been stored and whose notify comes next. History:
   `early` holds the workers that ever returned from their wait with their status word still zero.
   */
  datatype World = World(
    workers: map<WorkerId, Worker>, sessions: map<SessionId, Session>, tables: Tables,
    transit: seq<Request>, mailbox: seq<Message>, nextId: nat, notifying: Option<WorkerId>, early: set<WorkerId>)

  datatype Event =
    | Launch(w: WorkerId, buffer: Buffer)
    | Start(w: WorkerId)
    | Issue(w: WorkerId, op: Op, s: SessionId)
    | Arrive(at: nat)
    | Handle
    | Notify
    | Wake(w: WorkerId, seen: Buffer)
    | Call(s: SessionId, callback: Callback)
    | Finish(s: SessionId, outcome: Result<i32>)

  const ID_LIMIT: nat := 0x1_0000_0000_0000_0000

  const Empty: World := World(map[], map[], Tables(map[], map[], map[]), [], [], 0, None, {})

  // ---- The worker's half (src/runtime.rs) ----

  function SetWorker(st: World, w: WorkerId, k: Worker): World { st.(workers := st.workers[w := k]) }

  function SetSession(st: World, s: SessionId, r: Session): World { st.(sessions := st.sessions[s := r]) }

  /** host_exec_start: the shared counter names the session, and the caller becomes its reader. */
  predicate CanStart(st: World, w: WorkerId) {
    w in st.workers && st.workers[w].waiting.None? && st.nextId < ID_LIMIT
  }

  function DoStart(st: World, w: WorkerId): World
    requires CanStart(st, w)
  {
    SetSession(st, st.nextId, Session(w, None, false, [], [], [], false, [])).(nextId := st.nextId + 1)
  }

  /** A read or poll is posted and the status word reset, in one step; then the worker blocks. */
  predicate CanIssue(st: World, w: WorkerId, s: SessionId) {
    w in st.workers && st.workers[w].waiting.None? && s in st.sessions && st.sessions[s].owner == w && st.nextId < ID_LIMIT
  }

  function DoIssue(st: World, w: WorkerId, op: Op, s: SessionId): World
    requires CanIssue(st, w, s)
  {
    var req := Request(op, w, s);
    SetWorker(st, w, Worker(StoreWord(st.workers[w].buffer, STATUS, WAITING), Some(req), false, Sent(req)))
      .(transit := st.transit + [req], nextId := st.nextId + 1)
  }

  /** Atomics.wait returns at once if the status word is not zero, and on any notify; nobody looks again. */
  predicate CanWake(st: World, w: WorkerId) {
    && w in st.workers && st.workers[w].waiting.Some?
    && (st.workers[w].Released() || st.workers[w].woken)
    && st.workers[w].waiting.value.session in st.sessions
  }

  /**
   The buffer as the worker loads it. With a nonzero status word its answer is complete and stays;
   with a zero one its loads may interleave with the stores of an answer and see anything.
   */
  function Loaded(k: Worker, seen: Buffer): Worker { if k.Released() then k else k.(buffer := seen) }

  /** What the released worker makes of its buffer. */
  function Decode(k: Worker): Answer
    requires k.waiting.Some?
  {
    if k.waiting.value.op.BlockingRead? then DecodeRead(k.buffer, k.waiting.value.session) else DecodeTryRead(k.buffer)
  }

  /** Enter in the log what the reader just got. */
  function Log(r: Session, k: Worker): Session
    requires k.waiting.Some?
  {
    if k.waiting.value.op.Poll? then r.(promised := DecodePoll(k.buffer))
    else
      match Decode(k)
      case Got(output) =>
        var r' := r.(promised := false, received := r.received + [output]);
        (match ReplyOf(output)
         case Data(msgType, data) => r'.(delivered := r.delivered + [Chunk(msgType, data)])
         case ExitCode(code) => r'.(exits := r.exits + [code]))
      case _ => r.(promised := false)
  }

  function DoWake(st: World, w: WorkerId, seen: Buffer): World
    requires CanWake(st, w)
  {
    var k := st.workers[w];
    var s := k.waiting.value.session;
    SetSession(SetWorker(st, w, k.(waiting := None, woken := false, stage := Free)), s, Log(st.sessions[s], Loaded(k, seen)))
      .(early := if k.Released() then st.early else st.early + {w})
  }

  // ---- The scheduler's half (src/tasks/scheduler.rs) ----

  /** The scheduler's thread is between messages, not between a store and its notify. */
  predicate SchedulerFree(st: World) { st.notifying.None? }

  /** `postMessage` delivers requests in any order; the mailbox is first in, first out. */
  function DoArrive(st: World, at: nat): World
    requires at < |st.transit|
  {
    var req := st.transit[at];
    var st' := st.(transit := st.transit[..at] + st.transit[at + 1..], mailbox := st.mailbox + [Ask(req)]);
    if req.worker in st.workers then SetWorker(st', req.worker, st.workers[req.worker].(stage := Queued(Ask(req)))) else st'
  }

  function StoreResponse(buf: Buffer, s: SessionId, r: Response): Buffer {
    match r
    case Replied(reply) => StoreReply(buf, s, reply)
    case NoData => StoreStatus(buf, s, NOT_READY)
    case PollIs(ready) => StoreStatus(buf, s, if ready then READY else NOT_READY)
  }

  /** The stores of an answer, the status word last. */
  function Respond(st: World, w: WorkerId, s: SessionId, r: Response): World
    requires w in st.workers
  {
    SetWorker(st, w, st.workers[w].(buffer := StoreResponse(st.workers[w].buffer, s, r), stage := Answered(s, r)))
      .(notifying := Some(w))
  }

  /** `Atomics.notify`: whichever wait the worker is in by now returns. */
  function DoNotify(st: World): World
    requires st.notifying.Some?
  {
    var w := st.notifying.value;
    var st' := st.(notifying := None);
    if w in st.workers && st.workers[w].waiting.Some? then SetWorker(st', w, st.workers[w].(woken := true)) else st'
  }

  predicate CanHandle(st: World) {
    st.mailbox != [] && st.mailbox[0].Worker() in st.workers
  }

  function HandleAsk(st: World, req: Request): World
    requires req.worker in st.workers
  {
    match req.op
    case BlockingRead =>
      var (tables, reply) := Read(st.tables, req.worker, req.session);
      if reply.Some? then Respond(st.(tables := tables), req.worker, req.session, Replied(reply.value))
      else SetWorker(st.(tables := tables), req.worker, st.workers[req.worker].(stage := Parked(req.session)))
    case TryRead =>
      var (tables, reply) := Take(st.tables, req.session);
      Respond(st.(tables := tables), req.worker, req.session, if reply.Some? then Replied(reply.value) else NoData)
    case Poll =>
      Respond(st, req.worker, req.session, PollIs(Ready(st.tables, req.session)))
  }

  function DoHandle(st: World): World
    requires CanHandle(st)
  {
    var st' := st.(mailbox := st.mailbox[1..]);
    match st.mailbox[0]
    case Ask(req) => HandleAsk(st', req)
    case Complete(c) => Respond(st', c.worker, c.session, Replied(ReplyTo(c)))
  }

  /** The completion a callback sent, if any, goes to the back of the mailbox. */
  function Enqueue(st: World, sent: Option<Completion>): World {
    if sent.None? then st
    else
      var c := sent.value;
      var st' := st.(mailbox := st.mailbox + [Complete(c)]);
      if c.worker in st.workers then SetWorker(st', c.worker, st.workers[c.worker].(stage := Queued(Complete(c)))) else st'
  }

  // ---- The handler's half ----

  /** The handler calls back only before its promise settles. */
  predicate CanCall(st: World, s: SessionId, cb: Callback) {
    s in st.sessions && st.sessions[s].code.None? && cb.Fits()
  }

  function DoCall(st: World, s: SessionId, cb: Callback): World
    requires CanCall(st, s, cb)
  {
    var (tables, sent) := Emit(st.tables, s, cb);
    var r := st.sessions[s];
    Enqueue(SetSession(st, s, r.(emitted := r.emitted + [cb.Message()])).(tables := tables), sent)
  }

  predicate CanFinish(st: World, s: SessionId) {
    s in st.sessions && st.sessions[s].code.None?
  }

  function Settled(r: Session, outcome: Result<i32>, sent: Option<Completion>): Session {
    r.(code := Some(CodeOf(outcome)), wasParked := sent.Some?)
  }

  function DoFinish(st: World, s: SessionId, outcome: Result<i32>): World
    requires CanFinish(st, s)
  {
    var (tables, sent) := Settle(st.tables, s, outcome);
    Enqueue(SetSession(st, s, Settled(st.sessions[s], outcome, sent)).(tables := tables), sent)
  }

  // ---- Runs ----

  function Apply(st: World, e: Event): World {
    match e
    case Launch(w, buffer) => if w in st.workers then st else SetWorker(st, w, Worker(buffer, None, false, Free))
    case Start(w) => if CanStart(st, w) then DoStart(st, w) else st
    case Issue(w, op, s) => if CanIssue(st, w, s) then DoIssue(st, w, op, s) else st
    case Wake(w, seen) => if CanWake(st, w) then DoWake(st, w, seen) else st
    case Notify => if st.notifying.Some? then DoNotify(st) else st
    case Arrive(at) => if SchedulerFree(st) && at < |st.transit| then DoArrive(st, at) else st
    case Handle => if SchedulerFree(st) && CanHandle(st) then DoHandle(st) else st
    case Call(s, cb) => if SchedulerFree(st) && CanCall(st, s, cb) then DoCall(st, s, cb) else st
    case Finish(s, outcome) => if SchedulerFree(st) && CanFinish(st, s) then DoFinish(st, s, outcome) else st
  }

  function Reached(events: seq<Event>): World {
    if events == [] then Empty else Apply(Reached(events[..|events| - 1]), events[|events| - 1])
  }
}
