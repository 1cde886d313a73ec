/** The promises of src/pipes/mod.rs, for every run of a pipe. */
module PipeTheorems {
  import opened Words
  import opened Ring
  import opened PipeMemory
  import opened PipeProtocol
  import opened PipeSafety
  import opened PipeEnds
  import PipePool

  // ---- The ring refines a byte queue ----

  /** The abstract specification: a step of a byte queue with logs of what went in and what came out. */
  ghost predicate QueueStep(q: seq<byte>, q': seq<byte>, a: Agents, a': Agents, e: Event) {
    || (q' == q && a'.accepted == a.accepted && a'.delivered == a.delivered)
    || (exists bytes: seq<byte> ::
          e.StepWriter? && bytes != [] && q' == q + bytes
          && a'.accepted == a.accepted + bytes && a'.delivered == a.delivered && a'.wrote == Wrote(|bytes|))
    || (exists bytes: seq<byte> ::
          e.StepReader? && q == bytes + q'
          && a'.accepted == a.accepted && a'.delivered == a.delivered + bytes && a'.took == Took(bytes))
  }

  lemma WriterRefines(m: Mem, a: Agents)
    requires RingInv(m, a) && Placed(WriterNext(m, a).0, WriterNext(m, a).1)
    ensures QueueStep(Queue(m), Queue(WriterNext(m, a).0), a, WriterNext(m, a).1, StepWriter)
  {
    if !a.writer.Fill? {
      WriterLoad(m, a);
    } else if a.writer.i < a.writer.n {
      WriterStore(m, a);
    } else {
      WriterPublish(m, a);
      var bytes := a.writer.src[..a.writer.n];
      assert bytes != [] && |bytes| == a.writer.n;
    }
  }

  lemma ReaderRefines(m: Mem, a: Agents)
    requires RingInv(m, a) && Placed(ReaderNext(m, a).0, ReaderNext(m, a).1)
    ensures QueueStep(Queue(m), Queue(ReaderNext(m, a).0), a, ReaderNext(m, a).1, StepReader)
  {
    if !a.reader.Drain? {
      ReaderLoad(m, a);
    } else if a.reader.i < a.reader.n {
      ReaderCopy(m, a);
    } else {
      ReaderAdvance(m, a);
    }
  }

  /** Steps other than the two data paths do not touch positions, data or logs. */
  lemma OtherStepsFrame(m: Mem, a: Agents, e: Event)
    requires Shaped(a) && a.init == 5 && !e.StepWriter? && !e.StepReader?
    ensures var (m', a') := Next(m, a, e);
            && m'.data == m.data && m'.writePos == m.writePos && m'.readPos == m.readPos
            && a'.accepted == a.accepted && a'.delivered == a.delivered && a'.commits == a.commits && a'.advances == a.advances
            && a'.wrote == a.wrote && a'.took == a.took && a'.init == 5
  {
  }

  /** In every reachable state, every step of every program is a step of the byte queue. */
  lemma PipeRefinesQueue(garbage: Mem, events: seq<Event>, e: Event)
    requires 0 < |garbage.data| <= PipePool.PIPE_POOL_SIZE
    requires Reached(garbage, events).1.init == 5
    ensures var (m, a) := Reached(garbage, events);
            var (m', a') := Next(m, a, e);
            && Placed(m, a) && Placed(m', a')
            && QueueStep(Queue(m), Queue(m'), a, a', e)
  {
    ReachedInv(garbage, events);
    var (m, a) := Reached(garbage, events);
    NextKeepsInv(m, a, e);
    StepRefinesQueue(m, a, e);
  }

  lemma StepRefinesQueue(m: Mem, a: Agents, e: Event)
    requires Inv(m, a) && a.init == 5 && Placed(Next(m, a, e).0, Next(m, a, e).1)
    ensures QueueStep(Queue(m), Queue(Next(m, a, e).0), a, Next(m, a, e).1, e)
  {
    if e.StepWriter? {
      WriterRefines(m, a);
    } else if e.StepReader? {
      ReaderRefines(m, a);
    } else {
      OtherStepsFrame(m, a, e);
    }
  }

  /**
   Conservation: whatever the interleaving, what was accepted is what was delivered followed by
   what is in the ring, the ring never holds more than capacity - 1 bytes, and no unsigned
   subtraction has underflowed.
   */
  lemma NothingLostOrInvented(garbage: Mem, events: seq<Event>)
    requires 0 < |garbage.data| <= PipePool.PIPE_POOL_SIZE
    requires Reached(garbage, events).1.init == 5
    ensures var (m, a) := Reached(garbage, events);
            && Placed(m, a) && a.accepted == a.delivered + Queue(m)
            && |Queue(m)| <= a.capacity - 1
            && a.writer != WriterTrapped && a.reader != ReaderTrapped
  {
    ReachedInv(garbage, events);
    var (m, a) := Reached(garbage, events);
    SpaceAndDataPartition(m.data, m.writePos, m.readPos);
  }

  /** The slots of a half-finished write and of a half-finished read are inside the buffer and disjoint, across both chunks. */
  lemma HalfFinishedTransfersAreDisjoint(garbage: Mem, events: seq<Event>, i: nat, j: nat)
    requires 0 < |garbage.data| <= PipePool.PIPE_POOL_SIZE
    requires var (m, a) := Reached(garbage, events);
             a.init == 5 && a.writer.Fill? && a.reader.Drain? && i < a.writer.n && j < a.reader.n
    ensures var a := Reached(garbage, events).1;
            && ChunkSlot(a.writer.w, a.writer.n, i, a.capacity) < a.capacity
            && ChunkSlot(a.reader.r, a.reader.n, j, a.capacity) < a.capacity
            && ChunkSlot(a.writer.w, a.writer.n, i, a.capacity) != ChunkSlot(a.reader.r, a.reader.n, j, a.capacity)
  {
    ReachedInv(garbage, events);
    var (m, a) := Reached(garbage, events);
    SpaceAndDataPartition(m.data, m.writePos, m.readPos);
    ChunkSlotIsSlot(a.writer.w, a.writer.n, i, a.capacity);
    ChunkSlotIsSlot(a.reader.r, a.reader.n, j, a.capacity);
    FreeAndFullSlotsDisjoint(m.writePos, m.readPos, a.capacity, i, j);
  }

  // ---- What a call may answer ----

  /**
   What a write or a write poll may answer. A write takes no more than fits and no less than
   was promised; it reports a full pipe only if it is full and nothing was promised, and a
   broken pipe only if the pipe is closed.
   */
  ghost predicate GoodWriteAnswer(m: Mem, a: Agents, a': Agents)
    requires Placed(m, a)
  {
    match a'.wrote
    case Wrote(n) =>
      && (a.writer.CheckClosed? || a.writer.Fill?)
      && (a.writer.CheckClosed? ==> n == 0 && a.writer.src == [] && m.closed == 0)
      && (a.writer.Fill? ==> 0 < n <= Free(m) && Min(|a.writer.src|, a.room) <= n <= |a.writer.src|
                             && a'.accepted == a.accepted + a.writer.src[..n])
    case WriteWouldBlock => Free(m) == 0 && a.room == 0
    case BrokenPipe => m.closed != 0
    case Writable(n) => 0 < n == Free(m) && a.room <= n
    case WritePending => a.room == 0 && m.closed == 0
    case NoWrite => false
  }

  lemma WriteAnswers(garbage: Mem, events: seq<Event>)
    requires 0 < |garbage.data| <= PipePool.PIPE_POOL_SIZE
    requires var (m, a) := Reached(garbage, events);
             a.init == 5 && a.writer != WriterIdle && Next(m, a, StepWriter).1.writer == WriterIdle
    ensures var (m, a) := Reached(garbage, events);
            Placed(m, a) && GoodWriteAnswer(m, a, Next(m, a, StepWriter).1)
  {
    ReachedInv(garbage, events);
    var (m, a) := Reached(garbage, events);
    WriteAnswersFrom(m, a);
    assert Next(m, a, StepWriter) == WriterNext(m, a);
  }

  lemma WriteAnswersFrom(m: Mem, a: Agents)
    requires Placed(m, a) && QueueInv(m, a) && WriterInv(m, a)
    requires a.writer != WriterIdle && WriterNext(m, a).1.writer == WriterIdle
    ensures GoodWriteAnswer(m, a, WriterNext(m, a).1)
  {
  }

  /**
   What a read or a read poll may answer. A read returns the front of the queue, at least as
   much of it as was promised; end of file and would-block are possible only if nothing was
   promised. End of file loses nothing if and only if no write was published since this
   round loaded write_pos.
   */
  ghost predicate GoodReadAnswer(m: Mem, a: Agents, a': Agents)
    requires Placed(m, a)
  {
    match a'.took
    case Took(bytes) =>
      && a.reader.Drain? && bytes <= Queue(m) && Min(a.reader.len, a.stock) <= |bytes| <= a.reader.len
      && (bytes == [] ==> a.reader.len == 0)
    case Eof =>
      && (a.reader.EmptyClosed? || a.reader.Recheck?) && m.closed != 0 && a.stock == 0
      && (a.accepted == a.delivered <==> a.commits == a.reader.stamp)
    case ReadWouldBlock => m.closed == 0 && a.stock == 0
    case Readable(n) => a.stock <= n <= Avail(m) && (n == 0 ==> m.closed != 0)
    case ReadPending => m.closed == 0 && a.stock == 0
    case NoRead => false
  }

  lemma ReadAnswers(garbage: Mem, events: seq<Event>)
    requires 0 < |garbage.data| <= PipePool.PIPE_POOL_SIZE
    requires var (m, a) := Reached(garbage, events);
             a.init == 5 && a.reader != ReaderIdle && Next(m, a, StepReader).1.reader == ReaderIdle
    ensures var (m, a) := Reached(garbage, events);
            Placed(m, a) && GoodReadAnswer(m, a, Next(m, a, StepReader).1)
  {
    ReachedInv(garbage, events);
    var (m, a) := Reached(garbage, events);
    ReadAnswersFrom(m, a);
    assert Next(m, a, StepReader) == ReaderNext(m, a);
  }

  lemma ReadAnswersFrom(m: Mem, a: Agents)
    requires RingInv(m, a)
    requires a.reader != ReaderIdle && ReaderNext(m, a).1.reader == ReaderIdle
    ensures GoodReadAnswer(m, a, ReaderNext(m, a).1)
  {
    hide Contents, Slot, NewPos;
    SpaceAndDataPartition(m.data, m.writePos, m.readPos);
    if a.reader.Drain? {
      ReaderAdvance(m, a);
    } else if a.reader.EmptyClosed? || a.reader.Recheck? {
      assert Exec(m, ReaderRequest(a.reader, a.capacity)) == (m, m.closed);
      assert a.accepted == a.delivered <==> Queue(m) == [];
    } else if a.reader.AvailRead? {
      ReaderLoadReadPos(m, a);
    }
  }
}
