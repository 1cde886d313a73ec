/**
 When a notify comes late. The scheduler wakes a worker only after it has stored the answer; a worker
 that sees the status word change first may already be waiting for its next answer by then. Concrete
 runs show what the code does with that, with a second exit report, and with a large session id.
 */
module HostExecRace {
  import opened Words
  import opened ResponseBuffer
  import opened HostExec
  import opened HostExecSystem
  import opened HostExecSafety
  import opened HostExecSteps
  import opened HostExecTurns
  import opened HostExecTheorems

  lemma ReachedThen(events: seq<Event>, e: Event)
    ensures Reached(events + [e]) == Apply(Reached(events), e)
  {
    assert (events + [e])[..|events + [e]| - 1] == events;
  }

  // ---- Which runs have early wakes ----

  /** No request of `w` is issued between the store and the notify of its previous answer. */
  predicate Prompt(events: seq<Event>, w: WorkerId) {
    forall n :: 0 <= n < |events| && events[n].Issue? && events[n].w == w && CanIssue(Reached(events[..n]), w, events[n].s) ==>
      Reached(events[..n]).notifying != Some(w)
  }

  /** A notify, given or about to be, goes with a nonzero status word. */
  predicate NotifyOk(st: World, w: WorkerId) {
    w in st.workers && st.workers[w].waiting.Some? && (st.workers[w].woken || st.notifying == Some(w)) ==>
      st.workers[w].Released()
  }

  lemma RespondReleases(st: World, w: WorkerId, s: SessionId, r: Response)
    requires w in st.workers
    ensures Respond(st, w, s, r).workers[w].Released()
  {
    hide LoadWord, StoreWord, StoreReply;
    match r
    case Replied(reply) => StoredReply(st.workers[w].buffer, s, reply);
    case NoData => WordRoundTrip(StoreWord(st.workers[w].buffer, SESSION, ToI32(s)), STATUS, NOT_READY, STATUS);
    case PollIs(ready) =>
      WordRoundTrip(StoreWord(st.workers[w].buffer, SESSION, ToI32(s)), STATUS, if ready then READY else NOT_READY, STATUS);
  }

  /** Handling a message stores an answer whole, or none. */
  lemma HandleReleases(st: World, w: WorkerId)
    requires CanHandle(st) && SchedulerFree(st) && NotifyOk(st, w)
    ensures NotifyOk(DoHandle(st), w)
  {
    hide LoadWord, StoreResponse, Take, Read, Ready, ReplyTo;
    var m := st.mailbox[0];
    var st1 := st.(mailbox := st.mailbox[1..]);
    match m
    case Complete(c) => RespondReleases(st1, c.worker, c.session, Replied(ReplyTo(c)));
    case Ask(req) =>
      match req.op {
        case BlockingRead =>
          var (tables, reply) := Read(st.tables, req.worker, req.session);
          if reply.Some? {
            RespondReleases(st1.(tables := tables), req.worker, req.session, Replied(reply.value));
          }
        case TryRead =>
          var (tables, reply) := Take(st.tables, req.session);
          RespondReleases(st1.(tables := tables), req.worker, req.session, if reply.Some? then Replied(reply.value) else NoData);
        case Poll => RespondReleases(st1, req.worker, req.session, PollIs(Ready(st.tables, req.session)));
      }
  }

  lemma NotifyStep(st: World, e: Event, w: WorkerId)
    requires NotifyOk(st, w)
    requires e.Issue? && e.w == w && CanIssue(st, w, e.s) ==> st.notifying != Some(w)
    ensures NotifyOk(Apply(st, e), w)
    ensures w in Apply(st, e).early ==> w in st.early
  {
    hide LoadWord, StoreWord, StoreResponse, Emit, Settle, Log, DoHandle;
    EarlyStep(st, e);
    if e.Handle? && SchedulerFree(st) && CanHandle(st) {
      HandleReleases(st, w);
    }
  }

  /** If every notify comes before the worker's next request, the worker never returns early. */
  lemma {:induction false} PromptWorkersAreNeverEarly(events: seq<Event>, w: WorkerId)
    requires Prompt(events, w)
    ensures w !in Reached(events).early && NotifyOk(Reached(events), w)
  {
    hide Apply, NotifyOk, CanIssue;
    if events != [] {
      var front := events[..|events| - 1];
      assert forall n :: 0 <= n < |front| ==> front[..n] == events[..n] && front[n] == events[n];
      PromptWorkersAreNeverEarly(front, w);
      NotifyStep(Reached(front), events[|events| - 1], w);
    } else {
      NothingToNotify(w);
    }
  }

  lemma NothingToNotify(w: WorkerId)
    ensures NotifyOk(Empty, w)
  {
  }

  /** If a request is issued before the notify of the previous answer, that notify can wake the worker early. */
  lemma LateNotifyWakesEarly(events: seq<Event>, w: WorkerId, op: Op, s: SessionId, seen: Buffer)
    requires CanIssue(Reached(events), w, s) && Reached(events).notifying == Some(w)
    ensures w in Reached(events + [Issue(w, op, s)] + [Notify] + [Wake(w, seen)]).early
  {
    hide LoadWord, StoreWord, Log, Reached;
    var st := Reached(events);
    ReachedThen(events, Issue(w, op, s));
    ReachedThen(events + [Issue(w, op, s)], Notify);
    ReachedThen(events + [Issue(w, op, s)] + [Notify], Wake(w, seen));
    WordRoundTrip(st.workers[w].buffer, STATUS, WAITING, STATUS);
  }

  // ---- What an early wake returns ----

  /** Resetting the status word leaves the rest of an answer readable. */
  lemma ResetKeepsAnswer(buf: Buffer, s: SessionId)
    ensures DecodeRead(StoreWord(buf, STATUS, WAITING), s) == DecodeRead(buf, s)
  {
    hide LoadWord, StoreWord, LoadData;
    WordRoundTrip(buf, STATUS, WAITING, SESSION);
    WordRoundTrip(buf, STATUS, WAITING, MSG_TYPE);
    WordRoundTrip(buf, STATUS, WAITING, VALUE);
    forall n: nat ensures LoadData(StoreWord(buf, STATUS, WAITING), n) == LoadData(buf, n) {
      WordLeavesData(buf, STATUS, WAITING, n);
    }
  }

  /** Log `reply` once more. */
  function Again(r: Session, reply: Option<Reply>): Session {
    r.(delivered := r.delivered + ChunksOf(reply), exits := r.exits + ExitsOf(reply), promised := false,
       received := if reply.Some? then r.received + [OutputOf(reply.value)] else r.received)
  }

  /**
   A blocking reader that has its answer before the notify, and reads again, is woken by that notify
   and logs the same answer a second time, whatever it is.
   */
  lemma LateNotifyRepeatsTheAnswer(events: seq<Event>, w: WorkerId, s: SessionId) returns (more: seq<Event>)
    requires var st := Reached(events);
             && w !in st.early && HasAnswer(st, w) && st.notifying == Some(w) && st.nextId < ID_LIMIT
             && st.workers[w].waiting == Some(Request(BlockingRead, w, s)) && SessionFits(s)
    ensures var st := Reached(events);
            && Owns(st, w, s) && UnderWay(st, s).Some?
            && s in Reached(events + more).sessions
            && Reached(events + more).sessions[s] == Again(Again(st.sessions[s], UnderWay(st, s)), UnderWay(st, s))
  {
    hide Inv, WaitsForOwn, Apply, Reached, LoadWord, StoreWord, DecodeRead, DecodeTryRead, DecodePoll, StageOk, AnswerOk;
    var st := Reached(events);
    var k := st.workers[w];
    var read := Issue(w, BlockingRead, s);
    var again := Wake(w, StoreWord(k.buffer, STATUS, WAITING));
    more := [Wake(w, k.buffer), read, Notify, again];
    OwnAnswer(events, w);
    var one := events + [Wake(w, k.buffer)];
    ReachedThen(events, Wake(w, k.buffer));
    ReachedThen(one, read);
    ReachedThen(one + [read], Notify);
    ReachedThen(one + [read] + [Notify], again);
    assert events + more == one + [read] + [Notify] + [again];
    FirstWake(st, w, s);
    ReadAgain(Reached(one), w, s, k.buffer);
    ResetKeepsAnswer(k.buffer, s);
  }

  /** What a guarded blocking wake decodes is the reply under way. */
  lemma OwnAnswer(events: seq<Event>, w: WorkerId)
    requires var st := Reached(events);
             && w !in st.early && HasAnswer(st, w)
             && st.workers[w].waiting.value.op.BlockingRead? && SessionFits(st.workers[w].waiting.value.session)
    ensures var st := Reached(events); var s := st.workers[w].waiting.value.session;
            && Owns(st, w, s) && UnderWay(st, s).Some?
            && DecodeRead(st.workers[w].buffer, s) == Got(OutputOf(UnderWay(st, s).value))
            && ReplyOf(OutputOf(UnderWay(st, s).value)) == UnderWay(st, s).value
  {
    hide LoadWord, DecodeRead, DecodeTryRead, DecodePoll, SessionOk, ReplyOf, OutputOf;
    ReachedInv(events);
    WakeIsOwnIffReleased(events, w);
    OwnRequest(Reached(events), w);
  }

  /** The first, guarded wake. */
  lemma FirstWake(st: World, w: WorkerId, s: SessionId)
    requires HasAnswer(st, w) && Owns(st, w, s) && UnderWay(st, s).Some?
    requires st.workers[w].waiting == Some(Request(BlockingRead, w, s))
    requires DecodeRead(st.workers[w].buffer, s) == Got(OutputOf(UnderWay(st, s).value))
    requires ReplyOf(OutputOf(UnderWay(st, s).value)) == UnderWay(st, s).value
    ensures var k := st.workers[w];
            Apply(st, Wake(w, k.buffer)) ==
              SetSession(SetWorker(st, w, Worker(k.buffer, None, false, Free)), s, Again(st.sessions[s], UnderWay(st, s)))
  {
    hide LoadWord, DecodeRead, DecodeTryRead, DecodePoll, ReplyOf, OutputOf, InFlight;
    var r := st.sessions[s];
    assert r.delivered + [] == r.delivered && r.exits + [] == r.exits;
  }

  /** The next read, the late notify, and a wake that decodes the buffer as it still is. */
  lemma ReadAgain(st: World, w: WorkerId, s: SessionId, buffer: Buffer)
    requires Owns(st, w, s) && st.workers[w] == Worker(buffer, None, false, Free)
    requires st.notifying == Some(w) && st.nextId < ID_LIMIT
    ensures var reset := StoreWord(buffer, STATUS, WAITING);
            var k := Worker(reset, Some(Request(BlockingRead, w, s)), true, Sent(Request(BlockingRead, w, s)));
            var st' := Apply(Apply(Apply(st, Issue(w, BlockingRead, s)), Notify), Wake(w, reset));
            s in st'.sessions && st'.sessions[s] == Log(st.sessions[s], k)
  {
    hide LoadWord, StoreWord, Log;
    WordRoundTrip(buffer, STATUS, WAITING, STATUS);
  }

  // ---- Concrete runs ----

  ghost const Zeros: Buffer := seq(BUFFER_SIZE, _ => 0)

  const Hello: Chunk := Chunk(STDOUT, [7])

  /** One idle worker that has started `n` sessions, and nothing else yet. */
  predicate Started(st: World, n: nat) {
    && st.workers.Keys == {0} && st.workers[0].waiting.None? && !st.workers[0].woken
    && st.tables == Tables(map[], map[], map[]) && st.transit == [] && st.mailbox == []
    && st.nextId == n && st.notifying.None? && st.early == {}
    && (0 < n <= ID_LIMIT ==> n - 1 in st.sessions && st.sessions[n - 1] == Session(0, None, false, [], [], [], false, []))
  }

  lemma {:induction false} StartSessions(n: nat) returns (events: seq<Event>)
    requires n <= ID_LIMIT
    ensures Started(Reached(events), n)
  {
    hide Reached;
    if n == 0 {
      var none: seq<Event> := [];
      ReachedThen(none, Launch(0, Zeros));
      assert Reached(none) == Empty by { NothingReached(); }
      events := none + [Launch(0, Zeros)];
    } else {
      var before := StartSessions(n - 1);
      ReachedThen(before, Start(0));
      events := before + [Start(0)];
    }
  }

  lemma NothingReached()
    ensures Reached([]) == Empty
  {
  }

  /** The handler has called back once on the last of these sessions. */
  predicate CalledBack(st: World, s: SessionId) {
    && st.workers.Keys == {0} && st.workers[0].waiting.None? && !st.workers[0].woken
    && st.tables == Tables(map[s := [Hello]], map[], map[]) && st.transit == [] && st.mailbox == []
    && st.nextId == s + 1 && st.notifying.None? && st.early == {}
    && s in st.sessions && st.sessions[s] == Session(0, None, false, [Hello], [], [], false, [])
  }

  lemma CallBack(st: World, s: SessionId)
    requires Started(st, s + 1)
    ensures CalledBack(Apply(st, Call(s, OnStdout([7]))), s)
  {
    assert OnStdout([7]).Message() == Hello && [] + [Hello] == [Hello];
    assert Emit(st.tables, s, OnStdout([7])) == (Tables(map[s := [Hello]], map[], map[]), None);
  }

  /** The worker's read of that session has been answered, and the notify is still to come. */
  predicate ReadAnswered(st: World, s: SessionId) {
    && HasAnswer(st, 0) && st.workers[0].waiting == Some(Request(BlockingRead, 0, s))
    && st.notifying == Some(0) && st.nextId == s + 2 && st.early == {}
    && s in st.sessions && st.sessions[s].owner == 0
    && st.sessions[s].emitted == [Hello] && st.sessions[s].delivered == []
    && QueueOf(st.tables, s) == []
  }

  lemma ReadAnswer(st: World, s: SessionId)
    requires CalledBack(st, s) && s + 1 < ID_LIMIT
    ensures ReadAnswered(Apply(Apply(Apply(st, Issue(0, BlockingRead, s)), Arrive(0)), Handle), s)
  {
    hide LoadWord, StoreWord, StoreResponse;
    var req := Request(BlockingRead, 0, s);
    var arrived := Apply(Apply(st, Issue(0, BlockingRead, s)), Arrive(0));
    assert arrived.transit == [] && arrived.mailbox == [Ask(req)] && arrived.tables == st.tables;
    var left := Tables(map[s := []], map[], map[]);
    assert Read(arrived.tables, 0, s) == (left, Some(Data(STDOUT, [7]))) by {
      assert map[s := [Hello]][s := []] == map[s := []];
    }
    RespondReleases(arrived.(mailbox := [], tables := left), 0, s, Replied(Data(STDOUT, [7])));
  }

  lemma AnsweredRun(s: SessionId) returns (events: seq<Event>)
    requires s + 1 < ID_LIMIT
    ensures ReadAnswered(Reached(events), s)
  {
    hide Reached, Apply, Started, CalledBack, ReadAnswered;
    events := StartSessions(s + 1);
    CallBack(Reached(events), s);
    ReachedThen(events, Call(s, OnStdout([7])));
    events := events + [Call(s, OnStdout([7]))];
    ReadAnswer(Reached(events), s);
    ReachedThen(events, Issue(0, BlockingRead, s));
    events := events + [Issue(0, BlockingRead, s)];
    ReachedThen(events, Arrive(0));
    events := events + [Arrive(0)];
    ReachedThen(events, Handle);
    events := events + [Handle];
  }

  /** With a late notify the reader gets twice what the handler produced once. */
  lemma StreamCanRepeatAMessage()
    ensures exists events :: 0 in Reached(events).sessions
              && Reached(events).sessions[0].emitted == [Hello] && Reached(events).sessions[0].delivered == [Hello, Hello]
  {
    hide Reached, HasAnswer;
    var events := AnsweredRun(0);
    var st := Reached(events);
    StreamIsOrdered(events, 0);
    assert ChunksOf(UnderWay(st, 0)) == [Hello];
    var more := LateNotifyRepeatsTheAnswer(events, 0, 0);
    assert Reached(events + more).sessions[0].delivered == [] + [Hello] + [Hello];
  }

  /** Every session id that does not fit can be reached, and a blocking read of it then fails though its answer is there. */
  lemma LargeSessionIdsMismatch(s: SessionId)
    requires !SessionFits(s)
    ensures exists events, w :: w !in Reached(events).early && HasAnswer(Reached(events), w)
              && Reached(events).workers[w].waiting == Some(Request(BlockingRead, w, s))
              && Decode(Reached(events).workers[w]) == SessionMismatch
  {
    hide Reached, Decode;
    var events := AnsweredRun(s);
    ReadsSucceedIffIdFits(events, 0);
    assert Decode(Reached(events).workers[0]) == SessionMismatch;
  }

  /** The one worker's read of the one session, settled while parked, has been answered. */
  predicate Reading(st: World, s: SessionId, code: i32, nextId: nat) {
    && st.workers.Keys == {0} && st.workers[0].waiting == Some(Request(BlockingRead, 0, s)) && st.workers[0].Released()
    && s in st.sessions && st.sessions[s].owner == 0 && st.sessions[s].code == Some(code) && st.sessions[s].wasParked
    && st.tables.queues == map[] && st.tables.pending == map[] && st.transit == [] && st.mailbox == []
    && st.nextId == nextId && st.early == {}
  }

  /** The one worker's read of its one session is parked. */
  predicate ReadParked(st: World) {
    && st.workers.Keys == {0} && st.workers[0].waiting == Some(Request(BlockingRead, 0, 0))
    && 0 in st.sessions && st.sessions[0] == Session(0, None, false, [], [], [], false, [])
    && st.tables == Tables(map[], map[], map[0 := Waiter(0, 0)]) && st.transit == [] && st.mailbox == []
    && st.nextId == 2 && st.notifying.None? && st.early == {}
  }

  lemma Park(st: World)
    requires Started(st, 1)
    ensures ReadParked(Apply(Apply(Apply(st, Issue(0, BlockingRead, 0)), Arrive(0)), Handle))
  {
    hide LoadWord, StoreWord, StoreResponse;
    var arrived := Apply(Apply(st, Issue(0, BlockingRead, 0)), Arrive(0));
    assert arrived.transit == [] && arrived.mailbox == [Ask(Request(BlockingRead, 0, 0))] && arrived.tables == st.tables;
  }

  /** The promise settles and the completion is handled. */
  lemma FinishParked(st: World, code: i32)
    requires ReadParked(st)
    ensures var st' := Apply(Apply(st, Finish(0, Ok(code))), Handle);
            && Reading(st', 0, code, 2) && st'.notifying == Some(0) && st'.tables.results == map[0 := code]
  {
    hide LoadWord, StoreWord, StoreResponse, ReplyTo, PackExit;
    var finished := Apply(st, Finish(0, Ok(code)));
    var c := Completion(0, 0, EXIT, PackExit(code));
    assert finished.mailbox == [Complete(c)];
    assert finished.tables == Tables(map[], map[0 := code], map[]) by {
      assert map[0 := Waiter(0, 0)] - {0} == map[];
    }
    RespondReleases(finished.(mailbox := []), 0, 0, Replied(ReplyTo(c)));
  }

  /** The reader has taken its first answer and been notified. */
  predicate Between(st: World, code: i32) {
    && st.workers.Keys == {0} && st.workers[0].waiting.None? && 0 in st.sessions
    && st.sessions[0].owner == 0 && st.sessions[0].code == Some(code) && st.sessions[0].wasParked
    && st.tables == Tables(map[], map[0 := code], map[]) && st.transit == [] && st.mailbox == []
    && st.nextId == 2 && st.notifying.None? && st.early == {}
  }

  lemma TakeFirst(st: World, code: i32)
    requires Reading(st, 0, code, 2) && st.notifying == Some(0) && st.tables.results == map[0 := code]
    ensures Between(Apply(Apply(st, Wake(0, Zeros)), Notify), code)
  {
    hide LoadWord, Log;
    LogKeepsOwner(st.sessions[0], Loaded(st.workers[0], Zeros));
  }

  /** The worker takes the answer, is notified, and reads again. */
  lemma ReadOnceMore(st: World, code: i32)
    requires Between(st, code)
    ensures var st' := Apply(Apply(Apply(st, Issue(0, BlockingRead, 0)), Arrive(0)), Handle);
            Reading(st', 0, code, 3) && st'.tables.results == map[]
  {
    hide LoadWord, StoreWord, StoreResponse;
    var req := Request(BlockingRead, 0, 0);
    var arrived := Apply(Apply(st, Issue(0, BlockingRead, 0)), Arrive(0));
    assert arrived.transit == [] && arrived.mailbox == [Ask(req)] && arrived.tables == st.tables;
    var left := Tables(map[], map[], map[]);
    assert Read(arrived.tables, 0, 0) == (left, Some(ExitCode(code))) by {
      assert map[0 := code] - {0} == map[];
      assert arrived.tables.queues - {0} == map[];
    }
    RespondReleases(arrived.(mailbox := [], tables := left), 0, 0, Replied(ExitCode(code)));
  }

  lemma LastWake(st: World, code: i32)
    requires Reading(st, 0, code, 3)
    ensures var st' := Apply(st, Wake(0, Zeros));
            && Orderly(st', 0) && st'.tables == st.tables && StageOf(st', 0) == Free
            && st'.sessions[0].owner == 0 && st'.sessions[0].code == Some(code) && st'.sessions[0].wasParked
  {
    hide LoadWord, Log;
    LogKeepsOwner(st.sessions[0], Loaded(st.workers[0], Zeros));
  }

  /** A run in which the reader is told the exit code, any code, twice. */
  lemma ExitCanBeReportedTwice(code: i32)
    ensures exists events :: 0 in Reached(events).sessions && Reached(events).sessions[0].exits == [code, code]
  {
    hide Reached, Apply, Started, Reading, Between, ReadParked;
    var events := StartSessions(1);
    Park(Reached(events));
    FinishParked(Apply(Apply(Apply(Reached(events), Issue(0, BlockingRead, 0)), Arrive(0)), Handle), code);
    events := Extend(events, [Issue(0, BlockingRead, 0), Arrive(0), Handle, Finish(0, Ok(code)), Handle]);
    TakeFirst(Reached(events), code);
    ReadOnceMore(Apply(Apply(Reached(events), Wake(0, Zeros)), Notify), code);
    events := Extend(events, [Wake(0, Zeros), Notify, Issue(0, BlockingRead, 0), Arrive(0), Handle]);
    LastWake(Reached(events), code);
    ReachedThen(events, Wake(0, Zeros));
    events := events + [Wake(0, Zeros)];
    ExitIsCounted(events, 0);
    ExitComesLast(events, 0);
    var exits := Reached(events).sessions[0].exits;
    assert exits + [] == exits;
    assert exits == [code, code];
  }

  /** Five more steps. */
  lemma Extend(events: seq<Event>, more: seq<Event>) returns (all: seq<Event>)
    requires |more| == 5
    ensures Reached(all) == Apply(Apply(Apply(Apply(Apply(Reached(events), more[0]), more[1]), more[2]), more[3]), more[4])
  {
    hide Apply, Reached;
    all := events;
    ReachedThen(all, more[0]);
    all := all + [more[0]];
    ReachedThen(all, more[1]);
    all := all + [more[1]];
    ReachedThen(all, more[2]);
    all := all + [more[2]];
    ReachedThen(all, more[3]);
    all := all + [more[3]];
    ReachedThen(all, more[4]);
    all := all + [more[4]];
  }
}
