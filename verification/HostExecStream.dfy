/**
 What the reader of a session gets, in terms of what its handler did: one output per callback, of
 that callback's kind and with its bytes, and then the exit code the promise settled with.
 */
module HostExecStream {
  import opened Words
  import opened ResponseBuffer
  import opened HostExec
  import opened HostExecSystem
  import opened HostExecSafety
  import opened HostExecSteps
  import opened HostExecTurns
  import opened HostExecTheorems

  // ---- What the handler did, read off the events ----

  /** The outcome the promise of `s` settled with: the first one, once the session is there. */
  function SettledWith(events: seq<Event>, s: SessionId): Option<Result<i32>> {
    if events == [] then None else
    var (front, e) := (events[..|events| - 1], events[|events| - 1]);
    var before := SettledWith(front, s);
    if before.Some? then before
    else if e.Finish? && e.s == s && Reached(front).notifying.None? && s in Reached(front).sessions then Some(e.outcome)
    else None
  }

  /** The callbacks the handler of `s` made before its promise settled, oldest first. */
  function Calls(events: seq<Event>, s: SessionId): seq<Callback> {
    if events == [] then [] else
    var (front, e) := (events[..|events| - 1], events[|events| - 1]);
    if e.Call? && e.s == s && e.callback.Fits() && SettledWith(front, s).None?
       && Reached(front).notifying.None? && s in Reached(front).sessions
    then Calls(front, s) + [e.callback]
    else Calls(front, s)
  }

  // ---- The record of a session follows its events ----

  function ChunkOutput(c: Chunk): Output { OutputOf(Data(c.msgType, c.data)) }

  function Outputs(chunks: seq<Chunk>): seq<Output> {
    seq(|chunks|, i requires 0 <= i < |chunks| => ChunkOutput(chunks[i]))
  }

  /** One output for each callback, in order. */
  ghost predicate Follow(calls: seq<Callback>, outputs: seq<Output>) {
    |outputs| == |calls| && forall i :: 0 <= i < |calls| ==> Carries(calls[i], outputs[i])
  }

  function ExitOutputs(codes: seq<i32>): seq<Output> {
    seq(|codes|, i requires 0 <= i < |codes| => Exit(codes[i]))
  }

  /** The record says what happened to the promise and which callbacks were made. */
  ghost predicate Recorded(r: Session, outcome: Option<Result<i32>>, calls: seq<Callback>) {
    && r.code == (match outcome case None => None case Some(Ok(code)) => Some(code) case Some(Err) => Some(1))
    && Follow(calls, Outputs(r.emitted))
  }

  /** What a step does to the record of a session that is there before it. */
  lemma RecordStep(st: World, e: Event, s: SessionId)
    requires s in st.sessions && (st.nextId < ID_LIMIT ==> st.nextId != s)
    ensures s in Apply(st, e).sessions
    ensures var (r, r') := (st.sessions[s], Apply(st, e).sessions[s]);
            && r'.owner == r.owner
            && r'.code == (if e.Finish? && e.s == s && st.notifying.None? && r.code.None? then Some(CodeOf(e.outcome)) else r.code)
            && r'.emitted == (if e.Call? && e.s == s && st.notifying.None? && r.code.None? && e.callback.Fits()
                              then r.emitted + [e.callback.Message()] else r.emitted)
            && (r'.received, r'.delivered, r'.exits) ==
               (if e.Wake? && CanWake(st, e.w) && st.workers[e.w].waiting.value.session == s
                then var logged := Log(r, Loaded(st.workers[e.w], e.seen)); (logged.received, logged.delivered, logged.exits)
                else (r.received, r.delivered, r.exits))
  {
    hide Log, StoreResponse, StoreWord, LoadWord, Emit, Settle, Take, Read, Ready, ReplyTo;
    if e.Wake? && CanWake(st, e.w) {
      LogKeepsOwner(st.sessions[st.workers[e.w].waiting.value.session], Loaded(st.workers[e.w], e.seen));
    }
  }

  /** A session that appears is fresh. */
  lemma FreshRecord(st: World, e: Event, s: SessionId)
    requires s !in st.sessions && s in Apply(st, e).sessions
    ensures var r := Apply(st, e).sessions[s];
            r.code == None && r.emitted == [] && r.received == [] && r.delivered == [] && r.exits == []
    ensures !e.Finish? && !e.Call?
  {
    hide Log, StoreResponse, StoreWord, LoadWord, Emit, Settle, Take, Read, Ready, ReplyTo;
  }

  lemma NextIdIsNoSession(events: seq<Event>, s: SessionId)
    requires s in Reached(events).sessions
    ensures Reached(events).nextId < ID_LIMIT ==> Reached(events).nextId != s
  {
    hide Inv, WaitsForOwn, Reached;
    ReachedInv(events);
    NextIdIsFresh(Reached(events));
  }

  lemma OneMoreFollows(calls: seq<Callback>, emitted: seq<Chunk>, cb: Callback)
    requires Follow(calls, Outputs(emitted)) && cb.Fits()
    ensures Follow(calls + [cb], Outputs(emitted + [cb.Message()]))
  {
    hide Carries, OutputOf;
    MessageCarries(cb);
    assert Outputs(emitted + [cb.Message()]) == Outputs(emitted) + [ChunkOutput(cb.Message())];
  }

  /** In every run the record of a session says what happened to its promise and which callbacks were made. */
  lemma {:induction false} RecordsFollow(events: seq<Event>, s: SessionId)
    ensures s in Reached(events).sessions ==> Recorded(Reached(events).sessions[s], SettledWith(events, s), Calls(events, s))
    ensures s !in Reached(events).sessions ==> SettledWith(events, s).None? && Calls(events, s) == []
  {
    hide Apply, Follow;
    if events != [] {
      var (front, e) := (events[..|events| - 1], events[|events| - 1]);
      var st := Reached(front);
      RecordsFollow(front, s);
      if s in st.sessions {
        NextIdIsNoSession(front, s);
        RecordStep(st, e, s);
        if Calls(events, s) != Calls(front, s) {
          OneMoreFollows(Calls(front, s), st.sessions[s].emitted, e.callback);
        }
      } else if s in Apply(st, e).sessions {
        FreshRecord(st, e, s);
        NothingFollows();
      }
    }
  }

  lemma NothingFollows()
    ensures Follow([], Outputs([]))
  {
  }

  // ---- What the reader gets, and in which order ----

  /** The outputs received are the messages delivered and then the exits. */
  ghost predicate InOrder(received: seq<Output>, delivered: seq<Chunk>, exits: seq<i32>) {
    received == Outputs(delivered) + ExitOutputs(exits)
  }

  ghost predicate ReceivedOk(r: Session) {
    InOrder(r.received, r.delivered, r.exits)
  }

  lemma LoggedInOrder(s: SessionId, v: View, k: Worker)
    requires SessionOk(s, v) && k.waiting.Some? && k.waiting.value.session == s
    requires k.stage == v.stage && StageOk(k.waiting.value, k) && k.Released() && ReceivedOk(v.record)
    ensures ReceivedOk(Log(v.record, k))
  {
    hide DecodeRead, DecodeTryRead, DecodePoll, OutputOf, ReplyOf, ParkOk, DataOk, StreamOk, PromiseOk;
    if !k.waiting.value.op.Poll? && Decode(k).Got? {
      var output := Decode(k).output;
      assert InFlight(v.stage, s) == Some(ReplyOf(output)) && OutputOf(ReplyOf(output)) == output;
      match ReplyOf(output)
      case Data(msgType, data) =>
        var c := Chunk(msgType, data);
        assert v.record.exits == [];
        assert Outputs(v.record.delivered + [c]) == Outputs(v.record.delivered) + [output];
      case ExitCode(code) =>
        IsExit(output);
        assert ExitOutputs(v.record.exits + [code]) == ExitOutputs(v.record.exits) + [output];
    }
  }

  lemma IsExit(output: Output)
    requires ReplyOf(output).ExitCode?
    ensures output == Exit(ReplyOf(output).code)
  {
  }

  lemma WakeKeepsOrder(st: World, w: WorkerId, seen: Buffer)
    requires Inv(st) && WaitsForOwn(st) && CanWake(st, w) && st.workers[w].Released() && w !in st.early
    requires ReceivedOk(st.sessions[st.workers[w].waiting.value.session])
    ensures var s := st.workers[w].waiting.value.session;
            && st.sessions[s].owner == w && ReceivedOk(Log(st.sessions[s], Loaded(st.workers[w], seen)))
  {
    hide SessionsOk, WorkersOk, TransitOk, MailboxOk, OwnedOk, SessionOk, Log, ReceivedOk, LoadWord, AnswerOk;
    var s := st.workers[w].waiting.value.session;
    OwnStage(st, w);
    OwnSession(st, s);
    LoggedInOrder(s, ViewOf(st, s), st.workers[w]);
  }

  lemma {:induction false} ReceivedInOrder(events: seq<Event>, s: SessionId)
    requires Orderly(Reached(events), s)
    ensures ReceivedOk(Reached(events).sessions[s])
  {
    hide Apply, Inv, WaitsForOwn, InOrder, Log, LoadWord, CanWake;
    if events != [] {
      var (front, e) := (events[..|events| - 1], events[|events| - 1]);
      var st := Reached(front);
      if s in st.sessions {
        ReachedInv(front);
        NextIdIsNoSession(front, s);
        RecordStep(st, e, s);
        EarlyStep(st, e);
        ReceivedInOrder(front, s);
        OwnWakeKeepsOrder(st, e, s);
      } else {
        FreshRecord(st, e, s);
        NothingReceived(Apply(st, e).sessions[s]);
      }
    }
  }

  /** The last step of the induction, once the effect of the event on the record is known. */
  lemma OwnWakeKeepsOrder(st: World, e: Event, s: SessionId)
    requires Inv(st) && WaitsForOwn(st) && Orderly(st, s) && ReceivedOk(st.sessions[s])
    requires e.Wake? && CanWake(st, e.w) && !st.workers[e.w].Released() ==> e.w != st.sessions[s].owner
    ensures e.Wake? && CanWake(st, e.w) && st.workers[e.w].waiting.value.session == s ==>
              ReceivedOk(Log(st.sessions[s], Loaded(st.workers[e.w], e.seen)))
  {
    hide Inv, ReceivedOk, Log, LoadWord;
    if e.Wake? && CanWake(st, e.w) && st.workers[e.w].waiting.value.session == s {
      assert Owns(st, e.w, s);
      WakeKeepsOrder(st, e.w, e.seen);
    }
  }

  lemma NothingReceived(r: Session)
    requires r.received == [] && r.delivered == [] && r.exits == []
    ensures ReceivedOk(r)
  {
  }

  /** The outputs of the messages on their way to the reader of `s`: under way, then queued. */
  function Coming(st: World, s: SessionId): seq<Output>
    requires s in st.sessions
  {
    Outputs(ChunksOf(UnderWay(st, s)) + QueueOf(st.tables, s))
  }

  /** The exit a settled promise leads to: its own code, or 1 for a rejection. */
  function ExitFor(outcome: Result<i32>): Output {
    match outcome
    case Ok(code) => Exit(code)
    case Err => Exit(1)
  }

  lemma OrderFollowsCalls(calls: seq<Callback>, emitted: seq<Chunk>, received: seq<Output>, delivered: seq<Chunk>,
                          exits: seq<i32>, coming: seq<Chunk>)
    requires Follow(calls, Outputs(emitted)) && InOrder(received, delivered, exits) && emitted == delivered + coming
    requires exits != [] ==> delivered == emitted
    ensures forall i :: 0 <= i < |received| && i < |calls| ==> Carries(calls[i], received[i])
    ensures forall i :: |calls| <= i < |received| ==> i - |calls| < |exits| && received[i] == Exit(exits[i - |calls|])
    ensures |Outputs(coming)| == if |received| < |calls| then |calls| - |received| else 0
    ensures forall i :: 0 <= i < |Outputs(coming)| ==> Carries(calls[|received| + i], Outputs(coming)[i])
  {
    hide Carries, OutputOf;
    assert Outputs(emitted) == Outputs(delivered) + Outputs(coming);
  }

  /**
   What the reader of a session gets, over every run: the outputs it received, one for each of the
   handler's callbacks and carrying what the callback was given, in the order of the calls; then
   nothing but exits with the code the promise settled with. The callbacks it has not received yet
   are the ones on their way, in order.
   */
  lemma ReaderGetsTheCalls(events: seq<Event>, s: SessionId)
    requires Orderly(Reached(events), s) && SessionFits(s)
    ensures var st := Reached(events);
            var (received, calls, outcome) := (st.sessions[s].received, Calls(events, s), SettledWith(events, s));
            && (forall i :: 0 <= i < |received| && i < |calls| ==> Carries(calls[i], received[i]))
            && (forall i :: |calls| <= i < |received| ==> outcome.Some? && received[i] == ExitFor(outcome.value))
            && |Coming(st, s)| == (if |received| < |calls| then |calls| - |received| else 0)
            && (forall i :: 0 <= i < |Coming(st, s)| ==> Carries(calls[|received| + i], Coming(st, s)[i]))
  {
    hide Apply, Reached, Carries, Follow, InOrder, Outputs, UnderWay, Calls, SettledWith;
    var st := Reached(events);
    var (r, calls, outcome) := (st.sessions[s], Calls(events, s), SettledWith(events, s));
    RecordsFollow(events, s);
    StreamIsOrdered(events, s);
    ExitComesLast(events, s);
    ReceivedInOrder(events, s);
    assert r.exits != [] ==> r.exits + ExitsOf(UnderWay(st, s)) != [];
    OrderFollowsCalls(calls, r.emitted, r.received, r.delivered, r.exits, ChunksOf(UnderWay(st, s)) + QueueOf(st.tables, s));
    if |calls| < |r.received| {
      var first := r.received[|calls|];
      assert first == Exit((r.exits + ExitsOf(UnderWay(st, s)))[0]) && outcome.Some?;
    }
    forall i | |calls| <= i < |r.received|
      ensures outcome.Some? && r.received[i] == ExitFor(outcome.value)
    {
      var (k, output) := (i - |calls|, r.received[i]);
      assert output == Exit(r.exits[k]) && r.code == Some((r.exits + ExitsOf(UnderWay(st, s)))[k]);
    }
  }

  /**
   Every exit received, under way or still stored is the code the promise was resolved with, or 1 if
   it was rejected; there is none before it settled.
   */
  lemma ExitsAreTheSettledOne(events: seq<Event>, s: SessionId, code: i32)
    requires Orderly(Reached(events), s)
    requires var st := Reached(events);
             || code in st.sessions[s].exits || UnderWay(st, s) == Some(ExitCode(code))
             || (s in st.tables.results && st.tables.results[s] == code)
    ensures SettledWith(events, s).Some?
    ensures match SettledWith(events, s).value case Ok(value) => code == value case Err => code == 1
  {
    hide Apply, Follow;
    RecordsFollow(events, s);
    ExitComesLast(events, s);
    StoredExitIsTheCode(events, s);
    var st := Reached(events);
    var exits := st.sessions[s].exits + ExitsOf(UnderWay(st, s));
    assert s !in st.tables.results || st.tables.results[s] != code ==> code in exits;
  }

  lemma StoredExitIsTheCode(events: seq<Event>, s: SessionId)
    requires Orderly(Reached(events), s)
    ensures var st := Reached(events); s in st.tables.results ==> st.sessions[s].code == Some(st.tables.results[s])
  {
    ReachedInv(events);
    assert SessionOk(s, ViewOf(Reached(events), s));
  }

  // ---- What a request is answered with ----

  /** The answer a take leads to: the front of the queue, else the exit code. */
  function NextOutput(t: Tables, s: SessionId): Option<Output> {
    if QueueOf(t, s) != [] then Some(ChunkOutput(QueueOf(t, s)[0]))
    else if s in t.results then Some(Exit(t.results[s]))
    else None
  }

  /**
   What a request leads to when the scheduler handles it. A poll is told whether there is anything
   and takes nothing. Both reads get the next output if there is one; otherwise a non-blocking read
   is told so, and a blocking read is parked without an answer.
   */
  lemma RequestsAreAnswered(events: seq<Event>)
    requires var st := Reached(events); SchedulerFree(st) && st.mailbox != [] && st.mailbox[0].Ask?
    requires Reached(events).mailbox[0].Worker() !in Reached(events).early
    ensures var st := Reached(events); var st' := Apply(st, Handle);
            var Request(op, w, s) := st.mailbox[0].request; var next := NextOutput(st.tables, s);
            && w in st.workers && w in st'.workers
            && var buffer := st'.workers[w].buffer;
               match op {
                 case Poll =>
                   st'.tables == st.tables && st'.notifying == Some(w) && DecodePoll(buffer) == next.Some?
                 case TryRead =>
                   && st'.notifying == Some(w)
                   && DecodeTryRead(buffer) == (if next.Some? then Got(next.value) else Nothing)
                   && (next.None? ==> st'.tables == st.tables)
                 case BlockingRead =>
                   if next.Some? then
                     st'.notifying == Some(w)
                     && DecodeRead(buffer, s) == (if SessionFits(s) then Got(next.value) else SessionMismatch)
                   else
                     st'.notifying == None && buffer == st.workers[w].buffer && WaiterOf(st'.tables, s) == Some(Waiter(w, s))
               }
  {
    hide SessionsOk, WorkersOk, TransitOk, MailboxOk, OwnedOk, SessionOk, StoreResponse, DecodeRead, DecodeTryRead, DecodePoll,
         WaitsForOwn;
    ReachedInv(events);
    var st := Reached(events);
    FrontMeansQueued(st);
    var Request(op, w, s) := st.mailbox[0].request;
    OwnSession(st, s);
    TakeEffect(st.tables, s);
    var reply := Take(st.tables, s).1;
    if op.Poll? {
      ReleasedOnce(st.workers[w].buffer, s, PollIs(Ready(st.tables, s)));
    } else if reply.Some? {
      TakenIsSendable(s, ViewOf(st, s), reply.value);
      ReleasedOnce(st.workers[w].buffer, s, Replied(reply.value));
    } else {
      ReleasedOnce(st.workers[w].buffer, s, NoData);
      assert reply == None && Take(st.tables, s).0 == st.tables;
    }
  }
}
