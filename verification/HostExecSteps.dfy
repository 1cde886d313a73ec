/** Every step of the host_exec protocol keeps the invariant. */
module HostExecSteps {
  import opened Words
  import opened ResponseBuffer
  import opened HostExec
  import opened HostExecSystem
  import opened HostExecSafety

  // ---- What each step does to one session ----

  /** The request moves on towards the scheduler. */
  lemma RequestMovesOn(s: SessionId, v: View, stage: Stage)
    requires SessionOk(s, v) && (v.stage.Free? || v.stage.Sent?) && About(stage, s)
    requires stage.Sent? || (stage.Queued? && stage.message.Ask?)
    ensures SessionOk(s, v.(stage := stage))
  {
    assert InFlight(v.stage, s) == None && InFlight(stage, s) == None;
  }

  /** A read or a non-blocking read takes the front of the queue, else the exit code. */
  lemma TakeKeepsSession(s: SessionId, v: View, v': View, reply: Reply)
    requires SessionOk(s, v) && v.stage.Queued? && v.stage.message.Ask?
    requires v' == View(v.record, v'.entry, Answered(s, Replied(reply)))
    requires if v.entry.queue != []
             then v'.entry == v.entry.(queue := v.entry.queue[1..]) && reply == Data(v.entry.queue[0].msgType, v.entry.queue[0].data)
             else v.entry.result.Some? && v'.entry == v.entry.(result := None) && reply == ExitCode(v.entry.result.value)
    ensures SessionOk(s, v')
  {
    assert InFlight(v.stage, s) == None && InFlight(v'.stage, s) == Some(reply);
    if v.entry.queue != [] {
      assert v.entry.queue == ChunksOf(Some(reply)) + v'.entry.queue;
    } else {
      assert ExitReports(v, s) == v.record.exits;
      assert ExitReports(v', s) == v.record.exits + [reply.code];
    }
  }

  /** A read that finds nothing parks, a non-blocking one is told so, and a poll is told the truth. */
  lemma QuietReplyKeepsSession(s: SessionId, v: View, v': View)
    requires SessionOk(s, v) && v.stage.Queued? && v.stage.message.Ask?
    requires v'.record == v.record
    requires || (v'.stage == Parked(s) && v'.entry == v.entry.(waiter := Some(Waiter(v.record.owner, s))) && !HasNews(v))
             || (v'.stage == Answered(s, NoData) && v'.entry == v.entry && !HasNews(v))
             || (v'.stage == Answered(s, PollIs(HasNews(v))) && v'.entry == v.entry)
    ensures SessionOk(s, v')
  {
    assert InFlight(v.stage, s) == None && InFlight(v'.stage, s) == None;
    assert ExitReports(v', s) == ExitReports(v, s);
  }

  /** A completion is written to the reader's buffer. */
  lemma CompletionKeepsSession(s: SessionId, v: View, c: Completion)
    requires SessionOk(s, v) && v.stage == Queued(Complete(c)) && c.session == s
    ensures SessionOk(s, v.(stage := Answered(s, Replied(ReplyTo(c)))))
  {
    var v' := v.(stage := Answered(s, Replied(ReplyTo(c))));
    assert InFlight(v'.stage, s) == InFlight(v.stage, s);
    assert ExitReports(v', s) == ExitReports(v, s);
  }

  /** The reader logs exactly what was in flight. */
  lemma WakeKeepsSession(s: SessionId, v: View, k: Worker)
    requires SessionOk(s, v) && k.waiting.Some? && k.waiting.value.session == s
    requires k.stage == v.stage && StageOk(k.waiting.value, k) && k.Released()
    ensures SessionOk(s, View(Log(v.record, k), v.entry, Free))
  {
    hide DecodeRead, DecodeTryRead, DecodePoll;
    var v' := View(Log(v.record, k), v.entry, Free);
    var r := v.stage.response;
    assert InFlight(v'.stage, s) == None;
    assert v.stage == Answered(s, r);
    match r
    case Replied(reply) =>
      assert InFlight(v.stage, s) == Some(reply);
      if Decode(k).Got? {
        assert v'.record.delivered == v.record.delivered + ChunksOf(Some(reply));
        assert ExitReports(v', s) == ExitReports(v, s);
      } else {
        assert !SessionFits(s) && v'.record == v.record.(promised := false);
        assert ExitReports(v, s) == ExitReports(v', s) + ExitsOf(Some(reply));
        assert forall i :: 0 <= i < |ExitReports(v', s)| ==> ExitReports(v', s)[i] == ExitReports(v, s)[i];
      }
    case _ =>
      assert InFlight(v.stage, s) == None;
      assert ExitReports(v', s) == ExitReports(v, s);
  }

  /** A callback's message goes to the parked read, or to the back of the queue. */
  lemma CallKeepsSession(s: SessionId, v: View, cb: Callback)
    requires SessionOk(s, v) && cb.Fits() && v.record.code.None?
    ensures var record := v.record.(emitted := v.record.emitted + [cb.Message()]);
            SessionOk(s, if v.entry.waiter.Some?
                         then View(record, Entry([], None, None), Queued(Complete(CompletionOf(v.entry.waiter.value, cb.Message()))))
                         else View(record, v.entry.(queue := v.entry.queue + [cb.Message()]), v.stage))
  {
    if v.entry.waiter.Some? {
      ForwardedAsItself(v.entry.waiter.value, cb);
      assert InFlight(v.stage, s) == None;
    }
  }

  /** The exit code goes to the parked read, who has got everything by then, and stays in the table. */
  lemma FinishKeepsSession(s: SessionId, v: View, outcome: Result<i32>, c: Option<Completion>)
    requires SessionOk(s, v) && v.record.code.None?
    requires c.Some? <==> v.entry.waiter.Some?
    requires c.Some? ==> c.value.session == s && ReplyTo(c.value) == ExitCode(CodeOf(outcome))
    ensures SessionOk(s, View(Settled(v.record, outcome, c), Entry(v.entry.queue, Some(CodeOf(outcome)), None),
                              if c.Some? then Queued(Complete(c.value)) else v.stage))
  {
    var code := CodeOf(outcome);
    var v' := View(Settled(v.record, outcome, c), Entry(v.entry.queue, Some(code), None),
                   if c.Some? then Queued(Complete(c.value)) else v.stage);
    if c.Some? {
      assert InFlight(v.stage, s) == None && InFlight(v'.stage, s) == Some(ExitCode(code));
      assert ExitReports(v', s) == [code];
    } else {
      assert ExitReports(v', s) == [];
    }
  }

  // ---- What each step does to the channels ----

  predicate OnlyWorker(st: World, st': World, w: WorkerId) {
    && w in st.workers && st'.workers.Keys == st.workers.Keys && st'.early == st.early
    && (forall w' :: w' in st.workers && w' != w ==> st'.workers[w'] == st.workers[w'])
  }

  lemma TransitUntouched(st: World, st': World, w: WorkerId)
    requires TransitOk(st) && OnlyWorker(st, st', w) && st'.transit == st.transit
    requires w !in st.early ==> !st.workers[w].stage.Sent? && !st'.workers[w].stage.Sent?
    ensures TransitOk(st')
  {
  }

  lemma MailboxUntouched(st: World, st': World, w: WorkerId)
    requires MailboxOk(st) && OnlyWorker(st, st', w) && st'.mailbox == st.mailbox
    requires w !in st.early ==> !st.workers[w].stage.Queued? && !st'.workers[w].stage.Queued?
    ensures MailboxOk(st')
  {
  }

  lemma SendKeepsTransit(st: World, st': World, w: WorkerId, req: Request)
    requires TransitOk(st) && OnlyWorker(st, st', w) && req.worker == w && st'.transit == st.transit + [req]
    requires w !in st.early ==> st.workers[w].stage.Free? && st'.workers[w].stage == Sent(req)
    ensures TransitOk(st')
  {
    forall w' | w' in st'.workers && w' !in st'.early && st'.workers[w'].stage.Sent?
      ensures InTransit(st', w', st'.workers[w'].stage.request)
    {
      if w' == w { assert st'.transit[|st.transit|] == req; }
      else { assert InTransit(st, w', st.workers[w'].stage.request); }
    }
  }

  lemma LeaveKeepsTransit(st: World, st': World, w: WorkerId, at: nat)
    requires TransitOk(st) && OnlyWorker(st, st', w) && at < |st.transit| && st.transit[at].worker == w
    requires w !in st.early ==> !st'.workers[w].stage.Sent?
    requires st'.transit == st.transit[..at] + st.transit[at + 1..]
    ensures TransitOk(st')
  {
    forall i | 0 <= i < |st'.transit| && st'.transit[i].worker !in st'.early
      ensures StageOf(st', st'.transit[i].worker) == Sent(st'.transit[i])
    {
      assert st'.transit[i] == st.transit[if i < at then i else i + 1];
    }
    forall w' | w' in st'.workers && w' !in st'.early && st'.workers[w'].stage.Sent?
      ensures InTransit(st', w', st'.workers[w'].stage.request)
    {
      var r := st.workers[w'].stage.request;
      assert InTransit(st, w', r);
      var i :| 0 <= i < |st.transit| && st.transit[i] == r;
      assert st'.transit[if i < at then i else i - 1] == r;
    }
  }

  lemma EnterKeepsMailbox(st: World, st': World, w: WorkerId, m: Message)
    requires MailboxOk(st) && OnlyWorker(st, st', w) && m.Worker() == w && st'.mailbox == st.mailbox + [m]
    requires w !in st.early ==> !st.workers[w].stage.Queued? && st'.workers[w].stage == Queued(m)
    ensures MailboxOk(st')
  {
    forall w' | w' in st'.workers && w' !in st'.early && st'.workers[w'].stage.Queued?
      ensures InMailbox(st', w', st'.workers[w'].stage.message)
    {
      if w' == w { assert st'.mailbox[|st.mailbox|] == m; }
      else { assert InMailbox(st, w', st.workers[w'].stage.message); }
    }
  }

  lemma PopKeepsMailbox(st: World, st': World, w: WorkerId)
    requires MailboxOk(st) && OnlyWorker(st, st', w) && st.mailbox != [] && st.mailbox[0].Worker() == w
    requires w !in st.early ==> !st'.workers[w].stage.Queued?
    requires st'.mailbox == st.mailbox[1..]
    ensures MailboxOk(st')
  {
    forall i | 0 <= i < |st'.mailbox| && st'.mailbox[i].Worker() !in st'.early
      ensures StageOf(st', st'.mailbox[i].Worker()) == Queued(st'.mailbox[i])
    {
      assert st.mailbox[0].Worker() != st.mailbox[i + 1].Worker();
    }
    forall w' | w' in st'.workers && w' !in st'.early && st'.workers[w'].stage.Queued?
      ensures InMailbox(st', w', st'.workers[w'].stage.message)
    {
      assert InMailbox(st, w', st.workers[w'].stage.message);
      assert st.workers[w'].stage.message != st.mailbox[0];
    }
  }

  // ---- The steps ----

  lemma ReleasedOnce(buf: Buffer, s: SessionId, r: Response)
    requires r.Replied? ==> Sendable(r.reply)
    ensures LoadWord(StoreResponse(buf, s, r), STATUS) != WAITING
    ensures r.Replied? ==>
      var b := StoreResponse(buf, s, r);
      && DecodeTryRead(b) == Got(OutputOf(r.reply))
      && DecodeRead(b, s) == (if SessionFits(s) then Got(OutputOf(r.reply)) else SessionMismatch)
      && ReplyOf(OutputOf(r.reply)) == r.reply
    ensures r.NoData? ==> DecodeTryRead(StoreResponse(buf, s, r)) == Nothing
    ensures r.PollIs? ==> DecodePoll(StoreResponse(buf, s, r)) == r.ready
  {
    hide DecodeOutput, LoadWord, StoreWord, StoreReply, DecodeRead, DecodeTryRead;
    match r
    case Replied(reply) =>
      OutputRoundTrip(buf, s, reply);
      ReadRoundTrip(buf, s, reply);
      TryReadRoundTrip(buf, s, reply);
      OutputDeterminesReply(reply);
    case NoData =>
      TryReadRoundTrip(buf, s, ExitCode(0));
      WordRoundTrip(StoreWord(buf, SESSION, ToI32(s)), STATUS, NOT_READY, STATUS);
    case PollIs(ready) =>
      PollRoundTrip(buf, s, ready);
      WordRoundTrip(StoreWord(buf, SESSION, ToI32(s)), STATUS, if ready then READY else NOT_READY, STATUS);
  }

  /** The scheduler answers worker `w`'s request for `s`. */
  lemma RespondKeepsWorker(st: World, w: WorkerId, s: SessionId, r: Response)
    requires w in st.workers && WorkerOk(st, w) && st.workers[w].waiting.Some?
    requires var req := st.workers[w].waiting.value;
             && req.session == s
             && (r.Replied? ==> Sendable(r.reply) && !req.op.Poll?)
             && (r.NoData? ==> req.op.TryRead?) && (r.PollIs? ==> req.op.Poll?)
    ensures WorkerOk(Respond(st, w, s, r), w)
  {
    hide StoreResponse, DecodeRead, DecodeTryRead, DecodePoll, LoadWord;
    ReleasedOnce(st.workers[w].buffer, s, r);
  }

  /**
   Assembly: a step of worker `w` about its session `s` keeps the invariant if it keeps the channels
   and, unless `w` has returned early, the parts about `w` and `s`.
   */
  lemma TouchKeepsInv(st: World, st': World, w: WorkerId, s: SessionId)
    requires Inv(st) && OnlyTouches(st, st', w, s) && OnlySends(st, st', w, s)
    requires w !in st.early ==> SessionOk(s, ViewOf(st', s)) && WorkerOk(st', w)
    requires TransitOk(st') && MailboxOk(st') && EntryOf(st'.tables, s).Parkable()
    requires EntryOf(st'.tables, s).waiter.Some? ==> EntryOf(st'.tables, s).waiter.value == Waiter(w, s)
    ensures Inv(st')
  {
    hide SessionOk, WorkerOk, OnlyTouches, OnlySends, EntryOf, TransitOk, MailboxOk;
    assert SessionsOk(st') by { hide *; TouchKeepsSessions(st, st', w, s); }
    assert WorkersOk(st') by { TouchKeepsWorkers(st, st', w, s); }
    assert OwnedOk(st') by { TouchKeepsOwned(st, st', w, s); }
  }
}
