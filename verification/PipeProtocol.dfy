/**
 One pipe under full interleaving (src/pipes/mod.rs). The writer, the reader and the
 transmit ends are programs that request one atomic memory operation at a time
 (`Request`) and continue with the value it returned (`Resume`); any order of their
 steps is a run.
 */
module PipeProtocol {
  import opened Words
  import opened Ring
  import opened PipeMemory
  import PipePool

  const MAX_WAIT_ITERATIONS: nat := 200
  const MAX_ENDS: nat := 0x8000_0000

  // ---- Program counters ----

  datatype WriteGoal = Put(src: seq<byte>) | PollWritable

  datatype Writer =
    | WriterIdle
    | CheckClosed(src: seq<byte>)                     // write_data: load closed
    | LoadWrite(goal: WriteGoal)                      // free_space: load write_pos
    | LoadRead(goal: WriteGoal, w: nat)               // free_space: load read_pos
    | Reload(src: seq<byte>, free: nat)               // load write_pos again
    | Fill(src: seq<byte>, w: nat, n: nat, i: nat)    // store byte i, or publish when i == n
    | PollClosed                                      // poll_write_ready: no space, load closed
    | WriterTrapped                                   // an unsigned subtraction underflowed

  datatype WriteResult = NoWrite | Wrote(n: nat) | WriteWouldBlock | BrokenPipe | Writable(n: nat) | WritePending

  datatype ReadGoal = Take(len: nat, blocking: bool) | PollReadable(tries: nat)

  /** `stamp` is the number of publications at the moment write_pos was loaded. */
  datatype Reader =
    | ReaderIdle
    | AvailWrite(goal: ReadGoal)                              // data_available: load write_pos
    | AvailRead(goal: ReadGoal, w: nat, stamp: nat)           // data_available: load read_pos
    | EmptyClosed(goal: ReadGoal, stamp: nat)                 // nothing available: load closed
    | Recheck(len: nat, stamp: nat)                           // read_blocking: load closed again
    | ReloadRead(len: nat, avail: nat)                        // load read_pos again
    | Drain(len: nat, r: nat, n: nat, i: nat, out: seq<byte>) // load byte i, or advance when i == n
    | ReaderTrapped

  datatype ReadResult = NoRead | Took(bytes: seq<byte>) | Eof | ReadWouldBlock | Readable(n: nat) | ReadPending

  /** A transmit end; `via` is the live end whose offset and size it was made from, replaced on arrival if `replace`. */
  datatype End =
    | Attaching(via: nat, replace: bool)   // from_pool_offset: about to add to tx_count
    | Live
    | Dropping                             // drop: about to subtract from tx_count
    | Closing                              // drop: was the last one, about to store closed
    | Gone(closer: bool)
  {
    predicate Counted() { Live? || Dropping? }
    predicate Closer() { Closing? || (Gone? && closer) }
  }

  /**
   Everything about a pipe that is not in shared memory. `accepted`, `delivered`, `commits`,
   `advances`, `room` and `stock` only record history: the bytes of every successful write and
   read, how many of each there were, and what each side has been promised (the answer of its last poll
   or the state at the start of its current call).
   */
  datatype Agents = Agents(
    capacity: nat, init: nat,
    writer: Writer, writerEnd: nat, reader: Reader, ends: map<nat, End>, shut: bool,
    accepted: seq<byte>, delivered: seq<byte>, commits: nat, advances: nat, room: nat, stock: nat,
    wrote: WriteResult, took: ReadResult)

  datatype Event =
    | Initialize
    | CallWrite(end: nat, src: seq<byte>)
    | CallPollWrite(end: nat)
    | StepWriter
    | CallRead(len: nat, blocking: bool)
    | CallPollRead
    | StepReader
    | Shut
    | Attach(via: nat, end: nat, replace: bool)
    | Drop(end: nat)
    | StepEnd(end: nat)

  function NewAgents(capacity: nat): Agents {
    Agents(capacity, 0, WriterIdle, 0, ReaderIdle, map[0 := Live], false, [], [], 0, 0, 0, 0, NoWrite, NoRead)
  }

  predicate Shaped(a: Agents) {
    && 0 < a.capacity <= PipePool.PIPE_POOL_SIZE && a.init <= 5
    && (a.writer.Fill? ==> a.writer.w <= a.capacity && a.writer.i <= a.writer.n <= |a.writer.src|)
    && (a.reader.Drain? ==> a.reader.r <= a.capacity && a.reader.i <= a.reader.n)
  }

  // ---- What each program does next ----

  function WriterRequest(w: Writer, capacity: nat): Op
    requires 0 < capacity <= PipePool.PIPE_POOL_SIZE
    requires w.Fill? ==> w.w <= capacity && w.i <= w.n <= |w.src|
  {
    match w
    case CheckClosed(_) => Load(Closed)
    case LoadWrite(_) => Load(WritePos)
    case LoadRead(_, _) => Load(ReadPos)
    case Reload(_, _) => Load(WritePos)
    case Fill(src, pos, n, i) =>
      if i < n then StoreByte(ChunkSlot(pos, n, i, capacity), src[i]) else Store(WritePos, NewPos(pos, n, capacity))
    case PollClosed => Load(Closed)
    case _ => Skip
  }

  function ReaderRequest(r: Reader, capacity: nat): Op
    requires 0 < capacity <= PipePool.PIPE_POOL_SIZE
    requires r.Drain? ==> r.r <= capacity && r.i <= r.n
  {
    match r
    case AvailWrite(_) => Load(WritePos)
    case AvailRead(_, _, _) => Load(ReadPos)
    case EmptyClosed(_, _) => Load(Closed)
    case Recheck(_, _) => Load(Closed)
    case ReloadRead(_, _) => Load(ReadPos)
    case Drain(_, pos, n, i, _) =>
      if i < n then LoadByte(ChunkSlot(pos, n, i, capacity)) else Store(ReadPos, NewPos(pos, n, capacity))
    case _ => Skip
  }

  function EndRequest(ends: map<nat, End>, end: nat): Op {
    if end !in ends then Skip else
    match ends[end]
    case Attaching(_, _) => FetchAdd(TxCount, 1)
    case Dropping => FetchAdd(TxCount, -1)
    case Closing => Store(Closed, 1)
    case _ => Skip
  }

  function Request(a: Agents, e: Event): Op
    requires Shaped(a)
  {
    if e.Initialize? then
      match a.init
      case 0 => Store(WritePos, 0)
      case 1 => Store(ReadPos, 0)
      case 2 => Store(Closed, 0)
      case 3 => Store(Notify, 0)
      case 4 => Store(TxCount, 1)
      case _ => Skip
    else if a.init < 5 then Skip
    else
      match e
      case StepWriter => WriterRequest(a.writer, a.capacity)
      case StepReader => ReaderRequest(a.reader, a.capacity)
      case StepEnd(end) => EndRequest(a.ends, end)
      case Shut => Store(Closed, 1)
      case _ => Skip
  }

  /** `free_space` in unsigned arithmetic: None if a subtraction would underflow. */
  function CheckedFree(w: nat, r: nat, capacity: nat): Option<nat> {
    if w >= r then (if capacity >= w - r + 1 then Some(capacity - (w - r) - 1) else None)
    else Some(r - w - 1)
  }

  /** `data_available` in unsigned arithmetic. */
  function CheckedAvailable(w: nat, r: nat, capacity: nat): Option<nat> {
    if w >= r then Some(w - r)
    else if capacity >= r then Some(capacity - r + w)
    else None
  }

  function ResumeWriter(a: Agents, v: u32): (a': Agents)
    requires Shaped(a)
    ensures Shaped(a') && a'.capacity == a.capacity
  {
    match a.writer
    case CheckClosed(src) =>
      if v != 0 then a.(writer := WriterIdle, wrote := BrokenPipe)
      else if src == [] then a.(writer := WriterIdle, wrote := Wrote(0))
      else a.(writer := LoadWrite(Put(src)))
    case LoadWrite(goal) => a.(writer := LoadRead(goal, v))
    case LoadRead(goal, w) =>
      (match CheckedFree(w, v, a.capacity)
       case None => a.(writer := WriterTrapped)
       case Some(free) =>
         if goal.PollWritable? then
           if free > 0 then a.(writer := WriterIdle, wrote := Writable(free), room := free)
           else a.(writer := PollClosed)
         else if free == 0 then a.(writer := WriterIdle, wrote := WriteWouldBlock)
         else a.(writer := Reload(goal.src, free)))
    case Reload(src, free) =>
      if v > a.capacity then a.(writer := WriterTrapped)
      else a.(writer := Fill(src, v, Min(|src|, free), 0))
    case Fill(src, w, n, i) =>
      if i < n then a.(writer := Fill(src, w, n, i + 1))
      else a.(writer := WriterIdle, wrote := Wrote(n), accepted := a.accepted + src[..n], commits := a.commits + 1, room := 0)
    case PollClosed =>
      a.(writer := WriterIdle, wrote := if v != 0 then BrokenPipe else WritePending)
    case _ => a
  }

  function ResumeReader(a: Agents, v: u32): (a': Agents)
    requires Shaped(a)
    ensures Shaped(a') && a'.capacity == a.capacity
  {
    match a.reader
    case AvailWrite(goal) => a.(reader := AvailRead(goal, v, a.commits))
    case AvailRead(goal, w, stamp) =>
      (match CheckedAvailable(w, v, a.capacity)
       case None => a.(reader := ReaderTrapped)
       case Some(avail) =>
         if avail == 0 then a.(reader := EmptyClosed(goal, stamp))
         else if goal.PollReadable? then a.(reader := ReaderIdle, took := Readable(avail), stock := avail)
         else a.(reader := ReloadRead(goal.len, avail)))
    case EmptyClosed(goal, stamp) =>
      (match goal
       case Take(len, blocking) =>
         if v != 0 then a.(reader := ReaderIdle, took := Eof)
         else if blocking then a.(reader := Recheck(len, stamp))
         else a.(reader := ReaderIdle, took := ReadWouldBlock)
       case PollReadable(tries) =>
         if v != 0 then a.(reader := ReaderIdle, took := Readable(0))
         else if tries + 1 < MAX_WAIT_ITERATIONS then a.(reader := AvailWrite(PollReadable(tries + 1)))
         else a.(reader := ReaderIdle, took := ReadPending))
    case Recheck(len, stamp) =>
      if v != 0 then a.(reader := ReaderIdle, took := Eof)
      else a.(reader := AvailWrite(Take(len, true)))   // after Atomics.wait, however it returns
    case ReloadRead(len, avail) =>
      if v > a.capacity then a.(reader := ReaderTrapped)
      else a.(reader := Drain(len, v, Min(len, avail), 0, []))
    case Drain(len, r, n, i, out) =>
      if i < n then a.(reader := Drain(len, r, n, i + 1, out + [v % 0x100]))
      else a.(reader := ReaderIdle, took := Took(out), delivered := a.delivered + out, advances := a.advances + 1, stock := 0)
    case _ => a
  }

  /** A transmit end that is not borrowed: no write is running on it, no other end is being made from it. */
  predicate Unborrowed(a: Agents, end: nat) {
    && end in a.ends && a.ends[end].Live?
    && !(a.writer != WriterIdle && a.writerEnd == end)
    && forall e :: e in a.ends && a.ends[e].Attaching? ==> a.ends[e].via != end
  }

  function ResumeEnd(a: Agents, end: nat, v: u32): (a': Agents)
    requires Shaped(a)
    ensures Shaped(a') && a'.capacity == a.capacity
  {
    if end !in a.ends then a else
    match a.ends[end]
    case Attaching(via, replace) =>
      a.(ends := if replace then a.ends[end := Live][via := Dropping] else a.ends[end := Live])
    case Dropping => a.(ends := a.ends[end := if v == 1 then Closing else Gone(false)])
    case Closing => a.(ends := a.ends[end := Gone(true)])
    case _ => a
  }

  function FreeNow(m: Mem, a: Agents): nat {
    if m.writePos < a.capacity && m.readPos < a.capacity then FreeSpace(m.writePos, m.readPos, a.capacity) else 0
  }

  function AvailableNow(m: Mem, a: Agents): nat {
    if m.writePos < a.capacity && m.readPos < a.capacity then Available(m.writePos, m.readPos, a.capacity) else 0
  }

  function Resume(m: Mem, a: Agents, e: Event, v: u32): (a': Agents)
    requires Shaped(a)
    ensures Shaped(a') && a'.capacity == a.capacity
  {
    if e.Initialize? then (if a.init < 5 then a.(init := a.init + 1) else a)
    else if a.init < 5 then a
    else
      match e
      case CallWrite(end, src) =>
        if a.writer == WriterIdle && Unborrowed(a, end)
        then a.(writer := CheckClosed(src), writerEnd := end, room := FreeNow(m, a)) else a
      case CallPollWrite(end) =>
        if a.writer == WriterIdle && Unborrowed(a, end)
        then a.(writer := LoadWrite(PollWritable), writerEnd := end, room := FreeNow(m, a)) else a
      case StepWriter => ResumeWriter(a, v)
      case CallRead(len, blocking) =>
        if a.reader == ReaderIdle
        then a.(reader := AvailWrite(Take(len, blocking)), stock := AvailableNow(m, a)) else a
      case CallPollRead =>
        if a.reader == ReaderIdle
        then a.(reader := AvailWrite(PollReadable(0)), stock := AvailableNow(m, a)) else a
      case StepReader => ResumeReader(a, v)
      case Shut => a.(shut := true)
      case Attach(via, end, replace) =>
        if Unborrowed(a, via) && end !in a.ends && |a.ends| < MAX_ENDS
        then a.(ends := a.ends[end := Attaching(via, replace)]) else a
      case Drop(end) =>
        if Unborrowed(a, end) then a.(ends := a.ends[end := Dropping]) else a
      case StepEnd(end) => ResumeEnd(a, end, v)
      case Initialize => a
  }

  /** One step of the pipe: the access and the continuation are a single atomic action. */
  function Next(m: Mem, a: Agents, e: Event): (r: (Mem, Agents))
    requires Shaped(a)
    ensures Shaped(r.1) && |r.0.data| == |m.data| && r.1.capacity == a.capacity
  {
    var (m', v) := Exec(m, Request(a, e));
    (m', Resume(m, a, e, v))
  }

  /** `Next` for a step of the writer of an initialised pipe. */
  function WriterNext(m: Mem, a: Agents): (Mem, Agents)
    requires Shaped(a)
  {
    var (m', v) := Exec(m, WriterRequest(a.writer, a.capacity));
    (m', ResumeWriter(a, v))
  }

  /** `Next` for a step of the reader of an initialised pipe. */
  function ReaderNext(m: Mem, a: Agents): (Mem, Agents)
    requires Shaped(a)
  {
    var (m', v) := Exec(m, ReaderRequest(a.reader, a.capacity));
    (m', ResumeReader(a, v))
  }

  /** The state a run reaches from a freshly allocated region with arbitrary contents. */
  function Reached(garbage: Mem, events: seq<Event>): (r: (Mem, Agents))
    requires 0 < |garbage.data| <= PipePool.PIPE_POOL_SIZE
    ensures Shaped(r.1) && |r.0.data| == r.1.capacity == |garbage.data|
  {
    if events == [] then (garbage, NewAgents(|garbage.data|)) else
    var (m, a) := Reached(garbage, events[..|events| - 1]);
    Next(m, a, events[|events| - 1])
  }
}
