/**
 The scheduler's three host_exec tables (src/tasks/scheduler.rs): output queues, parked reads and
 exit results, and the callbacks and requests that update them.
 */
module HostExec {
  import opened Words
  import opened SharedBytes
  import opened ResponseBuffer

  type WorkerId = nat
  type SessionId = u64

  const SPAWN_REQUEST: u32 := 10
  const SPAWN_STDIN: u32 := 11
  const SPAWN_CLOSE_STDIN: u32 := 12
  const SPAWN_KILL: u32 := 13

  /** An entry of an output queue. */
  datatype Chunk = Chunk(msgType: u32, data: Bytes)

  /** The value of PENDING_READS: whom to answer, and for which session. */
  datatype Waiter = Waiter(worker: WorkerId, session: SessionId)

  /** `SchedulerMessage::HostExecReadComplete`. */
  datatype Completion = Completion(worker: WorkerId, session: SessionId, msgType: u32, data: Bytes)

  datatype Tables = Tables(queues: map<SessionId, seq<Chunk>>, results: map<SessionId, i32>, pending: map<SessionId, Waiter>)

  /** What the JavaScript handler may call while its promise is unsettled. */
  datatype Callback =
    | OnStdout(data: Bytes)
    | OnStderr(data: Bytes)
    | RequestSpawn(json: Bytes)
    | SpawnWriteStdin(child: u64, data: Bytes)
    | SpawnCloseStdin(child: u64)
    | SpawnKill(child: u64, signal: u32)
  {
    /** Callbacks that answer a parked read directly; the others always go through the queue. */
    predicate Direct() { OnStdout? || OnStderr? }

    predicate Fits() {
      match this
      case OnStdout(d) => |d| <= MAX_DATA
      case OnStderr(d) => |d| <= MAX_DATA
      case RequestSpawn(j) => |j| <= MAX_DATA
      case SpawnWriteStdin(_, d) => 8 + |d| <= MAX_DATA
      case _ => true
    }

    /** The message this callback produces. */
    function Message(): Chunk
      requires Fits()
    {
      match this
      case OnStdout(d) => Chunk(STDOUT, d)
      case OnStderr(d) => Chunk(STDERR, d)
      case RequestSpawn(j) => Chunk(SPAWN_REQUEST, j)
      case SpawnWriteStdin(c, d) => Chunk(SPAWN_STDIN, LeBytes(c, 8) + d)
      case SpawnCloseStdin(c) => Chunk(SPAWN_CLOSE_STDIN, LeBytes(c, 8))
      case SpawnKill(c, sig) => Chunk(SPAWN_KILL, LeBytes(c, 8) + LeBytes(sig, 4))
    }
  }

  /** `to_le_bytes`. */
  function LeBytes(v: nat, n: nat): (b: seq<byte>)
    ensures |b| == n
  {
    if n == 0 then [] else [v % 0x100] + LeBytes(v / 0x100, n - 1)
  }

  function FromLeBytes(b: seq<byte>): nat {
    if b == [] then 0 else b[0] + 0x100 * FromLeBytes(b[1..])
  }

  function Pow256(n: nat): nat {
    if n == 0 then 1 else 0x100 * Pow256(n - 1)
  }

  lemma {:induction false} LeRoundTrip(v: nat, n: nat)
    requires v < Pow256(n)
    ensures FromLeBytes(LeBytes(v, n)) == v
  {
    if n > 0 {
      LeRoundTrip(v / 0x100, n - 1);
      assert LeBytes(v, n)[1..] == LeBytes(v / 0x100, n - 1);
    }
  }

  /** An exit code packed for the mailbox, and unpacked when the completion is handled. */
  function PackExit(code: i32): Bytes { LeBytes(ToU32(code), 4) }

  function UnpackExit(data: seq<byte>): i32
    requires |data| >= 4
  {
    ToI32(FromLeBytes(data[..4]))
  }

  lemma ExitCodeRoundTrip(code: i32)
    ensures UnpackExit(PackExit(code)) == code
  {
    assert Pow256(4) == 0x1_0000_0000;
    LeRoundTrip(ToU32(code), 4);
    assert PackExit(code)[..4] == PackExit(code);
  }

  // ---- Specification functions ----

  function QueueOf(t: Tables, s: SessionId): seq<Chunk> { if s in t.queues then t.queues[s] else [] }

  function ResultOf(t: Tables, s: SessionId): Option<i32> { if s in t.results then Some(t.results[s]) else None }

  function WaiterOf(t: Tables, s: SessionId): Option<Waiter> { if s in t.pending then Some(t.pending[s]) else None }

  function Push(t: Tables, s: SessionId, c: Chunk): Tables { t.(queues := t.queues[s := QueueOf(t, s) + [c]]) }

  function CompletionOf(w: Waiter, c: Chunk): Completion { Completion(w.worker, w.session, c.msgType, c.data) }

  /** onStdout and onStderr: answer the parked read, or queue. */
  function SendOrQueue(t: Tables, s: SessionId, c: Chunk): (Tables, Option<Completion>) {
    if s in t.pending then (t.(pending := t.pending - {s}), Some(CompletionOf(t.pending[s], c)))
    else (Push(t, s, c), None)
  }

  /** The spawn family: queue, then give the parked read, if any, the front of the queue. */
  function QueueThenWake(t: Tables, s: SessionId, c: Chunk): (Tables, Option<Completion>) {
    var pushed := Push(t, s, c);
    if s in t.pending then
      (pushed.(pending := t.pending - {s}, queues := pushed.queues[s := pushed.queues[s][1..]]),
       Some(CompletionOf(t.pending[s], pushed.queues[s][0])))
    else (pushed, None)
  }

  function Emit(t: Tables, s: SessionId, cb: Callback): (Tables, Option<Completion>)
    requires cb.Fits()
  {
    if cb.Direct() then SendOrQueue(t, s, cb.Message()) else QueueThenWake(t, s, cb.Message())
  }

  /** The exit code a settled promise reports: a rejection counts as 1. */
  function CodeOf(outcome: Result<i32>): i32 { if outcome.Ok? then outcome.value else 1 }

  /** The promise settles: keep the result, and answer the parked read, if any. */
  function Settle(t: Tables, s: SessionId, outcome: Result<i32>): (Tables, Option<Completion>) {
    var code := CodeOf(outcome);
    (t.(results := t.results[s := code], pending := t.pending - {s}),
     if s in t.pending then Some(CompletionOf(t.pending[s], Chunk(EXIT, PackExit(code)))) else None)
  }

  /** What both kinds of read consume: the front of the queue, else the result. */
  function Take(t: Tables, s: SessionId): (Tables, Option<Reply>) {
    var q := QueueOf(t, s);
    if q != [] then (t.(queues := t.queues[s := q[1..]]), Some(Data(q[0].msgType, q[0].data)))
    else if s in t.results then
      (t.(results := t.results - {s}, queues := t.queues - {s}), Some(ExitCode(t.results[s])))
    else (t, None)
  }

  /** `HostExecRead`: take, or park. */
  function Read(t: Tables, w: WorkerId, s: SessionId): (Tables, Option<Reply>) {
    var (t', reply) := Take(t, s);
    if reply.Some? then (t', reply) else (t'.(pending := t'.pending[s := Waiter(w, s)]), None)
  }

  /** `HostExecPoll`. */
  predicate Ready(t: Tables, s: SessionId) {
    QueueOf(t, s) != [] || s in t.results
  }

  /** `HostExecReadComplete`. */
  function ReplyTo(c: Completion): Reply {
    if c.msgType == EXIT && |c.data| >= 4 then ExitCode(UnpackExit(c.data)) else Data(c.msgType, c.data)
  }

  /** A completion, if there is one, goes to the back of the mailbox. */
  function Append(mailbox: seq<Completion>, sent: Option<Completion>): seq<Completion> {
    if sent.Some? then mailbox + [sent.value] else mailbox
  }

  // ---- The tables as the scheduler thread updates them ----

  class HostExecTables {
    var outputQueues: map<SessionId, seq<Chunk>>
    var results: map<SessionId, i32>
    var pendingReads: map<SessionId, Waiter>
    /** Completions sent to the scheduler's own mailbox, oldest first. */
    var mailbox: seq<Completion>

    function AsTables(): Tables
      reads this
    {
      Tables(outputQueues, results, pendingReads)
    }

    constructor ()
      ensures AsTables() == Tables(map[], map[], map[]) && mailbox == []
    {
      outputQueues, results, pendingReads, mailbox := map[], map[], map[], [];
    }

    method PushBack(s: SessionId, c: Chunk)
      modifies this`outputQueues
      ensures AsTables() == Push(old(AsTables()), s, c)
    {
      if s !in outputQueues {
        outputQueues := outputQueues[s := []];
      }
      outputQueues := outputQueues[s := outputQueues[s] + [c]];
      assert outputQueues == old(outputQueues)[s := QueueOf(old(AsTables()), s) + [c]];
    }

    method PopFront(s: SessionId) returns (c: Option<Chunk>)
      modifies this`outputQueues
      ensures var q := QueueOf(old(AsTables()), s);
              if q == [] then c == None && AsTables() == old(AsTables())
              else c == Some(q[0]) && outputQueues == old(outputQueues)[s := q[1..]]
    {
      if s !in outputQueues || outputQueues[s] == [] {
        return None;
      }
      c := Some(outputQueues[s][0]);
      outputQueues := outputQueues[s := outputQueues[s][1..]];
    }

    method RemovePending(s: SessionId) returns (w: Option<Waiter>)
      modifies this`pendingReads
      ensures w == WaiterOf(old(AsTables()), s) && pendingReads == old(pendingReads) - {s}
    {
      w := if s in pendingReads then Some(pendingReads[s]) else None;
      pendingReads := pendingReads - {s};
    }

    /** The onStdout and onStderr closures. */
    method OnOutput(s: SessionId, c: Chunk)
      modifies this
      ensures (AsTables(), mailbox) ==
              (SendOrQueue(old(AsTables()), s, c).0, Append(old(mailbox), SendOrQueue(old(AsTables()), s, c).1))
    {
      var w := RemovePending(s);
      if w.Some? {
        mailbox := mailbox + [CompletionOf(w.value, c)];
      } else {
        assert pendingReads == old(pendingReads);
        PushBack(s, c);
      }
    }

    /** The requestSpawn, spawnWriteStdin, spawnCloseStdin and spawnKill closures, once they have built their message. */
    method OnSpawnMessage(s: SessionId, c: Chunk)
      modifies this
      ensures (AsTables(), mailbox) ==
              (QueueThenWake(old(AsTables()), s, c).0, Append(old(mailbox), QueueThenWake(old(AsTables()), s, c).1))
    {
      PushBack(s, c);
      var w := RemovePending(s);
      if w.Some? {
        var front := PopFront(s);
        if front.Some? {
          mailbox := mailbox + [CompletionOf(w.value, front.value)];
        }
      } else {
        assert pendingReads == old(pendingReads);
      }
    }

    method OnCallback(s: SessionId, cb: Callback)
      requires cb.Fits()
      modifies this
      ensures (AsTables(), mailbox) == (Emit(old(AsTables()), s, cb).0, Append(old(mailbox), Emit(old(AsTables()), s, cb).1))
    {
      if cb.Direct() {
        OnOutput(s, cb.Message());
      } else {
        OnSpawnMessage(s, cb.Message());
      }
    }

    /** The task that awaits the handler's promise. */
    method OnSettled(s: SessionId, outcome: Result<i32>)
      modifies this
      ensures (AsTables(), mailbox) ==
              (Settle(old(AsTables()), s, outcome).0, Append(old(mailbox), Settle(old(AsTables()), s, outcome).1))
    {
      var code := CodeOf(outcome);
      results := results[s := code];
      var w := RemovePending(s);
      if w.Some? {
        mailbox := mailbox + [CompletionOf(w.value, Chunk(EXIT, PackExit(code)))];
      }
    }

    /** `HostExecTryRead`, and the first half of a blocking read. */
    method TakeNext(s: SessionId) returns (reply: Option<Reply>)
      modifies this`outputQueues, this`results
      ensures (AsTables(), reply) == Take(old(AsTables()), s)
    {
      var front := PopFront(s);
      if front.Some? {
        return Some(Data(front.value.msgType, front.value.data));
      }
      if s in results {
        reply := Some(ExitCode(results[s]));
        results := results - {s};
        outputQueues := outputQueues - {s};
      } else {
        reply := None;
      }
    }

    /** A blocking read is answered, or parked. */
    method HostExecRead(w: WorkerId, s: SessionId) returns (reply: Option<Reply>)
      modifies this
      ensures (AsTables(), reply) == Read(old(AsTables()), w, s) && mailbox == old(mailbox)
    {
      reply := TakeNext(s);
      if reply.None? {
        pendingReads := pendingReads[s := Waiter(w, s)];
      }
    }

    method HostExecPoll(s: SessionId) returns (ready: bool)
      ensures ready == Ready(AsTables(), s)
    {
      var hasQueued := s in outputQueues && outputQueues[s] != [];
      ready := hasQueued || s in results;
    }
  }

  // ---- What each operation does to one session, and that it leaves the others alone ----

  /** Everything the tables hold about session `s`. */
  datatype Entry = Entry(queue: seq<Chunk>, result: Option<i32>, waiter: Option<Waiter>) {
    /** A parked read means there was nothing to answer it with. */
    predicate Parkable() { waiter.Some? ==> queue == [] && result.None? }
  }

  function EntryOf(t: Tables, s: SessionId): Entry {
    Entry(QueueOf(t, s), ResultOf(t, s), WaiterOf(t, s))
  }

  predicate SameElsewhere(t: Tables, t': Tables, s: SessionId) {
    forall other :: other != s ==> EntryOf(t', other) == EntryOf(t, other)
  }

  /** Direct or through the queue, one message goes to the parked read, or to the back of the queue. */
  lemma EmitEffect(t: Tables, s: SessionId, cb: Callback)
    requires cb.Fits() && EntryOf(t, s).Parkable()
    ensures var e := EntryOf(t, s);
            var (t', sent) := Emit(t, s, cb);
            && SameElsewhere(t, t', s)
            && if e.waiter.Some?
               then EntryOf(t', s) == Entry([], None, None) && sent == Some(CompletionOf(e.waiter.value, cb.Message()))
               else EntryOf(t', s) == e.(queue := e.queue + [cb.Message()]) && sent == None
    ensures Carries(cb, OutputOf(Data(cb.Message().msgType, cb.Message().data)))
  {
    MessageCarries(cb);
    hide Carries;
    var pushed := Push(t, s, cb.Message());
    if s in t.pending {
      assert pushed.queues[s] == [cb.Message()];
    }
  }

  lemma SettleEffect(t: Tables, s: SessionId, outcome: Result<i32>)
    ensures var e := EntryOf(t, s);
            var (t', sent) := Settle(t, s, outcome);
            && SameElsewhere(t, t', s)
            && EntryOf(t', s) == Entry(e.queue, Some(CodeOf(outcome)), None)
            && CodeOf(outcome) == (match outcome case Ok(code) => code case Err => 1)
            && (e.waiter.None? ==> sent == None)
            && (e.waiter.Some? ==> sent.Some? && sent.value.worker == e.waiter.value.worker
                                   && sent.value.session == e.waiter.value.session
                                   && ReplyTo(sent.value) == ExitCode(CodeOf(outcome)))
  {
    ExitCodeRoundTrip(CodeOf(outcome));
  }

  lemma TakeEffect(t: Tables, s: SessionId)
    ensures var e := EntryOf(t, s);
            var (t', reply) := Take(t, s);
            && SameElsewhere(t, t', s)
            && if e.queue != []
               then EntryOf(t', s) == e.(queue := e.queue[1..]) && reply == Some(Data(e.queue[0].msgType, e.queue[0].data))
               else if e.result.Some?
               then EntryOf(t', s) == e.(result := None) && reply == Some(ExitCode(e.result.value))
               else t' == t && reply == None
  {
  }

  /** The four and eight byte little-endian numbers. */
  function Little4(b: seq<byte>): nat
    requires |b| == 4
  {
    var (b0: nat, b1: nat, b2: nat, b3: nat) := (b[0], b[1], b[2], b[3]);
    b0 + 0x100 * b1 + 0x1_0000 * b2 + 0x100_0000 * b3
  }

  function Little8(b: seq<byte>): nat
    requires |b| == 8
  {
    Little4(b[..4]) + 0x1_0000_0000 * Little4(b[4..])
  }

  lemma FourBytes(b: seq<byte>)
    requires |b| >= 4
    ensures FromLeBytes(b) == Little4(b[..4]) + 0x1_0000_0000 * FromLeBytes(b[4..])
  {
    assert b[1..][1..] == b[2..] && b[2..][1..] == b[3..] && b[3..][1..] == b[4..];
  }

  lemma LittleRoundTrip(v: u64, sig: u32)
    ensures Little8(LeBytes(v, 8)) == v && Little4(LeBytes(sig, 4)) == sig
  {
    hide LeBytes;
    LeRoundTrip(v, 8);
    LeRoundTrip(sig, 4);
    FourBytes(LeBytes(v, 8));
    FourBytes(LeBytes(v, 8)[4..]);
    FourBytes(LeBytes(sig, 4));
    assert LeBytes(v, 8)[4..][..4] == LeBytes(v, 8)[4..];
    assert LeBytes(sig, 4)[..4] == LeBytes(sig, 4);
  }

  /** What the reader must get for a callback: the kind, the child, the signal and the bytes it was given. */
  predicate Carries(cb: Callback, o: Output) {
    match cb
    case OnStdout(d) => o == Stdout(d)
    case OnStderr(d) => o == Stderr(d)
    case RequestSpawn(json) => o == Raw(10, json)
    case SpawnWriteStdin(child, d) =>
      o.Raw? && o.msgType == 11 && |o.data| >= 8 && Little8(o.data[..8]) == child && o.data[8..] == d
    case SpawnCloseStdin(child) => o.Raw? && o.msgType == 12 && |o.data| == 8 && Little8(o.data) == child
    case SpawnKill(child, signal) =>
      o.Raw? && o.msgType == 13 && |o.data| == 12 && Little8(o.data[..8]) == child && Little4(o.data[8..]) == signal
  }

  lemma MessageCarries(cb: Callback)
    requires cb.Fits()
    ensures Carries(cb, OutputOf(Data(cb.Message().msgType, cb.Message().data)))
  {
    hide LeBytes, Little8, Little4;
    var data := cb.Message().data;
    match cb
    case SpawnWriteStdin(child, d) =>
      LittleRoundTrip(child, 0);
      assert data[..8] == LeBytes(child, 8) && data[8..] == d;
    case SpawnCloseStdin(child) => LittleRoundTrip(child, 0);
    case SpawnKill(child, signal) =>
      LittleRoundTrip(child, signal);
      assert data[..8] == LeBytes(child, 8) && data[8..] == LeBytes(signal, 4);
    case _ =>
  }

  /** A message forwarded to a parked read is answered as itself. */
  lemma ForwardedAsItself(w: Waiter, cb: Callback)
    requires cb.Fits()
    ensures ReplyTo(CompletionOf(w, cb.Message())) == Data(cb.Message().msgType, cb.Message().data)
    ensures cb.Message().msgType != EXIT && |cb.Message().data| <= MAX_DATA
  {
  }
}
