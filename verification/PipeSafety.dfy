/** What every interleaving of a pipe keeps, and what its calls may therefore answer. */
module PipeSafety {
  import opened Words
  import opened Ring
  import opened PipeMemory
  import opened PipeProtocol

  /** The queue the shared memory stands for. */
  ghost function Queue(m: Mem): seq<byte>
    requires m.writePos < |m.data| && m.readPos < |m.data|
  {
    Contents(m.data, m.writePos, m.readPos)
  }

  ghost predicate Placed(m: Mem, a: Agents) {
    Shaped(a) && |m.data| == a.capacity && m.writePos < a.capacity && m.readPos < a.capacity
  }

  ghost function Free(m: Mem): nat
    requires m.writePos < |m.data| && m.readPos < |m.data|
  {
    FreeSpace(m.writePos, m.readPos, |m.data|)
  }

  ghost function Avail(m: Mem): nat
    requires m.writePos < |m.data| && m.readPos < |m.data|
  {
    Available(m.writePos, m.readPos, |m.data|)
  }

  ghost predicate QueueInv(m: Mem, a: Agents)
    requires Placed(m, a)
  {
    a.accepted == a.delivered + Queue(m) && a.room <= Free(m) && a.stock <= Avail(m)
  }

  ghost predicate WriterInv(m: Mem, a: Agents)
    requires Placed(m, a)
  {
    match a.writer
    case LoadWrite(goal) => goal.Put? ==> goal.src != []
    case LoadRead(goal, w) => w == m.writePos && (goal.Put? ==> goal.src != [])
    case Reload(src, free) => src != [] && 0 < free <= Free(m) && a.room <= free
    case Fill(src, w, n, i) =>
      && w == m.writePos && 0 < n <= Free(m) && Min(|src|, a.room) <= n
      && forall k :: 0 <= k < i ==> m.data[Slot(w, k, a.capacity)] == src[k]
    case PollClosed => a.room == 0
    case WriterTrapped => false
    case _ => true
  }

  ghost predicate ReaderInv(m: Mem, a: Agents)
    requires Placed(m, a)
  {
    match a.reader
    case AvailRead(goal, w, stamp) =>
      && w < a.capacity && stamp <= a.commits
      && a.stock <= Available(w, m.readPos, a.capacity) <= Avail(m)
      && (stamp == a.commits <==> w == m.writePos)
    case EmptyClosed(goal, stamp) =>
      stamp <= a.commits && a.stock == 0 && (stamp == a.commits <==> m.writePos == m.readPos)
    case Recheck(len, stamp) =>
      stamp <= a.commits && a.stock == 0 && (stamp == a.commits <==> m.writePos == m.readPos)
    case ReloadRead(len, avail) => 0 < avail <= Avail(m) && a.stock <= avail
    case Drain(len, r, n, i, out) =>
      && r == m.readPos && n <= Avail(m) && n <= len && Min(len, a.stock) <= n && (n == 0 ==> len == 0)
      && out == Queue(m)[..i]
    case ReaderTrapped => false
    case _ => true
  }

  ghost function CountedEnds(ends: map<nat, End>): set<nat> {
    set e | e in ends && ends[e].Counted()
  }

  /** The ends whose drop found itself the last one. */
  ghost function Closers(ends: map<nat, End>): set<nat> {
    set e | e in ends && ends[e].Closer()
  }

  /** The count is the number of ends that still hold a reference, and one end closes exactly when none is left. */
  ghost predicate Tallied(ends: map<nat, End>, count: nat) {
    && |ends| <= MAX_ENDS
    && count == |CountedEnds(ends)|
    && |Closers(ends)| == (if CountedEnds(ends) == {} then 1 else 0)
  }

  /** Ends being made from a live end, and the end a write is running on, keep it alive and unshared. */
  ghost predicate Borrowed(ends: map<nat, End>, busy: bool, writerEnd: nat) {
    && (forall e :: e in ends && ends[e].Attaching? ==> ends[e].via in ends && ends[ends[e].via].Live?)
    && (forall e, f :: e in ends && f in ends && e != f && ends[e].Attaching? && ends[f].Attaching? ==>
          ends[e].via != ends[f].via)
    && (busy ==> writerEnd in ends && ends[writerEnd].Live?)
    && (busy ==> forall e :: e in ends && ends[e].Attaching? ==> ends[e].via != writerEnd)
  }

  /** Some drop has finished closing the pipe. */
  ghost predicate DropClosed(ends: map<nat, End>) {
    exists e :: e in ends && ends[e] == Gone(true)
  }

  ghost predicate EndsInv(m: Mem, a: Agents) {
    Tallied(a.ends, m.txCount) && Borrowed(a.ends, a.writer != WriterIdle, a.writerEnd)
  }

  /** The closed flag is up exactly when somebody closed the pipe by hand or the last drop has finished. */
  ghost predicate FlagInv(m: Mem, a: Agents) {
    m.closed != 0 <==> a.shut || DropClosed(a.ends)
  }

  /** The half of the invariant about positions, data and the two programs using them. */
  ghost predicate RingInv(m: Mem, a: Agents) {
    a.init == 5 && Placed(m, a) && QueueInv(m, a) && WriterInv(m, a) && ReaderInv(m, a)
  }

  ghost predicate Untouched(a: Agents) {
    && Shaped(a) && a.writer == WriterIdle && a.reader == ReaderIdle && a.ends == map[0 := Live] && !a.shut
    && a.accepted == [] && a.delivered == [] && a.commits == a.room == a.stock == 0
  }

  ghost predicate Inv(m: Mem, a: Agents) {
    && Shaped(a) && |m.data| == a.capacity
    && (a.init < 5 ==>
          && Untouched(a)
          && (a.init > 0 ==> m.writePos == 0) && (a.init > 1 ==> m.readPos == 0) && (a.init > 2 ==> m.closed == 0))
    && (a.init == 5 ==> RingInv(m, a) && EndsInv(m, a) && FlagInv(m, a))
  }

  // ---- Each step keeps the invariant ----

  lemma InitializeKeepsInv(m: Mem, a: Agents)
    requires Inv(m, a)
    ensures Inv(Next(m, a, Initialize).0, Next(m, a, Initialize).1)
  {
    if a.init == 4 {
      assert CountedEnds(a.ends) == {0};
      assert Closers(a.ends) == {};
      SpaceAndDataPartition(m.data, 0, 0);
    }
  }

  lemma WriterCallsKeepInv(m: Mem, a: Agents, e: Event)
    requires Inv(m, a) && a.init == 5
    requires e.CallWrite? || e.CallPollWrite?
    ensures Inv(Next(m, a, e).0, Next(m, a, e).1)
  {
    assert Next(m, a, e).0 == m;
    var a' := Next(m, a, e).1;
    assert a' == a.(writer := a'.writer, writerEnd := a'.writerEnd, room := a'.room);
    assert RingInv(m, a');
  }

  lemma ReaderCallsKeepInv(m: Mem, a: Agents, e: Event)
    requires Inv(m, a) && a.init == 5
    requires e.CallRead? || e.CallPollRead?
    ensures Inv(Next(m, a, e).0, Next(m, a, e).1)
  {
    var a' := Next(m, a, e).1;
    assert a' == a.(reader := a'.reader, stock := a'.stock);
    RingOnlyKeepsInv(m, a, m, a');
  }

  lemma ShutKeepsInv(m: Mem, a: Agents)
    requires Inv(m, a) && a.init == 5
    ensures Inv(Next(m, a, Shut).0, Next(m, a, Shut).1)
  {
  }

  /** A step that touches neither the ends nor the closed flag only has to keep the ring half. */
  lemma RingOnlyKeepsInv(m: Mem, a: Agents, m': Mem, a': Agents)
    requires Inv(m, a) && a.init == 5 && RingInv(m', a')
    requires m'.closed == m.closed && m'.txCount == m.txCount && a'.ends == a.ends && a'.shut == a.shut
    requires a'.writerEnd == a.writerEnd && (a.writer == WriterIdle ==> a'.writer == WriterIdle)
    ensures Inv(m', a')
  {
  }

  lemma WriterLoadEffect(m: Mem, a: Agents)
    requires Placed(m, a) && a.room <= Free(m) && WriterInv(m, a) && !a.writer.Fill?
    ensures WriterNext(m, a).0 == m
    ensures var a' := WriterNext(m, a).1;
            && a' == a.(writer := a'.writer, wrote := a'.wrote, room := a'.room)
            && a.room <= a'.room <= Free(m) && WriterInv(m, a') && (a.writer == WriterIdle ==> a'.writer == WriterIdle)
  {
  }

  /** The writer's loads change nothing in memory and only its own program counter and promise. */
  lemma WriterLoad(m: Mem, a: Agents)
    requires RingInv(m, a) && !a.writer.Fill?
    ensures WriterNext(m, a).0 == m && RingInv(m, WriterNext(m, a).1)
    ensures var a' := WriterNext(m, a).1;
            && a' == a.(writer := a'.writer, wrote := a'.wrote, room := a'.room) && a.room <= a'.room
            && (a.writer == WriterIdle ==> a'.writer == WriterIdle)
  {
    WriterLoadEffect(m, a);
    var a' := WriterNext(m, a).1;
    assert QueueInv(m, a') && ReaderInv(m, a');
  }

  /** Storing one byte leaves the queue as it was: the slot is not one the reader can see. */
  lemma WriterStore(m: Mem, a: Agents)
    requires RingInv(m, a) && a.writer.Fill? && a.writer.i < a.writer.n
    ensures RingInv(WriterNext(m, a).0, WriterNext(m, a).1)
    ensures Queue(WriterNext(m, a).0) == Queue(m)
    ensures WriterNext(m, a).1 == a.(writer := a.writer.(i := a.writer.i + 1))
    ensures WriterNext(m, a).0 == m.(data := WriterNext(m, a).0.data)
  {
    hide WriterNext, Slot, Contents;
    var Fill(src, w, n, i) := a.writer;
    WriterStoreEffect(m, a);
    FillKeepsContents(m.data, m.writePos, m.readPos, i, src[i]);
    var m' := WriterNext(m, a).0;
    forall k | 0 <= k < i + 1
      ensures Slot(w, k, a.capacity) < a.capacity && m'.data[Slot(w, k, a.capacity)] == src[k]
    {
      if k < i {
        SlotsDiffer(w, k, i, a.capacity);
        assert m.data[Slot(w, k, a.capacity)] == src[k];
      }
    }
  }

  lemma WriterStoreEffect(m: Mem, a: Agents)
    requires RingInv(m, a) && a.writer.Fill? && a.writer.i < a.writer.n
    ensures Slot(a.writer.w, a.writer.i, a.capacity) < a.capacity
    ensures WriterNext(m, a) == (m.(data := m.data[Slot(a.writer.w, a.writer.i, a.capacity) := a.writer.src[a.writer.i]]),
                                 a.(writer := a.writer.(i := a.writer.i + 1)))
  {
    hide Slot, Contents, ChunkSlot;
    ChunkSlotIsSlot(a.writer.w, a.writer.n, a.writer.i, a.capacity);
  }

  lemma SlotsDiffer(pos: nat, i: nat, j: nat, capacity: nat)
    requires pos < capacity && i < j < capacity
    ensures Slot(pos, i, capacity) != Slot(pos, j, capacity)
    ensures Slot(pos, i, capacity) < capacity && Slot(pos, j, capacity) < capacity
  {
  }

  /** A longer queue with the same front is all the reader needs. */
  lemma PublishKeepsReader(m: Mem, a: Agents, m': Mem, a': Agents, n: nat)
    requires Placed(m, a) && ReaderInv(m, a) && 0 < n <= Free(m)
    requires m' == m.(writePos := Slot(m.writePos, n, a.capacity))
    requires Placed(m', a') && Queue(m) <= Queue(m')
    requires a'.reader == a.reader && a'.stock == a.stock && a'.commits == a.commits + 1 && a'.capacity == a.capacity
    ensures ReaderInv(m', a')
  {
    assert Avail(m') == Avail(m) + n;
    SpaceAndDataPartition(m.data, m.writePos, m.readPos);
    if a.reader.Drain? {
      assert Queue(m')[..a.reader.i] == Queue(m)[..a.reader.i];
    }
  }

  /** Publishing appends exactly the bytes the call reports. */
  lemma WriterPublish(m: Mem, a: Agents)
    requires RingInv(m, a) && a.writer.Fill? && a.writer.i == a.writer.n
    ensures RingInv(WriterNext(m, a).0, WriterNext(m, a).1)
    ensures var (m', a') := WriterNext(m, a); var bytes := a.writer.src[..a.writer.n];
            && m' == m.(writePos := m'.writePos)
            && a' == a.(writer := WriterIdle, wrote := Wrote(a.writer.n), accepted := a.accepted + bytes, commits := a.commits + 1, room := 0)
            && Queue(m') == Queue(m) + bytes
  {
    var Fill(src, w, n, i) := a.writer;
    PublishAppends(m.data, m.writePos, m.readPos, src, n);
    NewPosIsSlot(w, n, a.capacity);
    var (m', a') := WriterNext(m, a);
    assert m' == m.(writePos := Slot(w, n, a.capacity));
    PublishKeepsReader(m, a, m', a', n);
    assert a'.accepted == a'.delivered + Queue(m');
  }

  lemma WriterStepKeepsInv(m: Mem, a: Agents)
    requires Inv(m, a) && a.init == 5
    ensures Inv(WriterNext(m, a).0, WriterNext(m, a).1)
  {
    if !a.writer.Fill? {
      WriterLoad(m, a);
    } else if a.writer.i < a.writer.n {
      WriterStore(m, a);
    } else {
      WriterPublish(m, a);
    }
    RingOnlyKeepsInv(m, a, WriterNext(m, a).0, WriterNext(m, a).1);
  }

  lemma ReaderLoadReadPos(m: Mem, a: Agents)
    requires Placed(m, a) && a.stock <= Avail(m) && ReaderInv(m, a) && a.reader.AvailRead?
    ensures ReaderNext(m, a).0 == m
    ensures var a' := ReaderNext(m, a).1;
            && a' == a.(reader := a'.reader, took := a'.took, stock := a'.stock)
            && a.stock <= a'.stock <= Avail(m) && ReaderInv(m, a')
  {
    var AvailRead(goal, w, stamp) := a.reader;
    assert CheckedAvailable(w, m.readPos, a.capacity) == Some(Available(w, m.readPos, a.capacity));
  }

  lemma ReaderLoadClosed(m: Mem, a: Agents)
    requires Placed(m, a) && a.stock <= Avail(m) && ReaderInv(m, a)
    requires a.reader.EmptyClosed? || a.reader.Recheck?
    ensures ReaderNext(m, a).0 == m
    ensures var a' := ReaderNext(m, a).1;
            && a' == a.(reader := a'.reader, took := a'.took, stock := a'.stock)
            && a.stock <= a'.stock <= Avail(m) && ReaderInv(m, a')
  {
    assert Exec(m, ReaderRequest(a.reader, a.capacity)) == (m, m.closed);
  }

  lemma ReaderLoadEffect(m: Mem, a: Agents)
    requires Placed(m, a) && a.stock <= Avail(m) && ReaderInv(m, a) && !a.reader.Drain?
    ensures ReaderNext(m, a).0 == m
    ensures var a' := ReaderNext(m, a).1;
            && a' == a.(reader := a'.reader, took := a'.took, stock := a'.stock)
            && a.stock <= a'.stock <= Avail(m) && ReaderInv(m, a')
  {
    if a.reader.AvailRead? {
      ReaderLoadReadPos(m, a);
    } else if a.reader.EmptyClosed? || a.reader.Recheck? {
      ReaderLoadClosed(m, a);
    }
  }

  lemma ReaderOnlyKeepsRing(m: Mem, a: Agents, a': Agents)
    requires RingInv(m, a) && Shaped(a') && a' == a.(reader := a'.reader, took := a'.took, stock := a'.stock)
    requires a'.stock <= Avail(m) && ReaderInv(m, a')
    ensures RingInv(m, a')
  {
  }

  lemma ReaderLoad(m: Mem, a: Agents)
    requires RingInv(m, a) && !a.reader.Drain?
    ensures ReaderNext(m, a).0 == m && RingInv(m, ReaderNext(m, a).1)
    ensures var a' := ReaderNext(m, a).1;
            a' == a.(reader := a'.reader, took := a'.took, stock := a'.stock) && a.stock <= a'.stock
  {
    ReaderLoadEffect(m, a);
    ReaderOnlyKeepsRing(m, a, ReaderNext(m, a).1);
  }

  lemma ReaderCopy(m: Mem, a: Agents)
    requires RingInv(m, a) && a.reader.Drain? && a.reader.i < a.reader.n
    ensures ReaderNext(m, a).0 == m && RingInv(m, ReaderNext(m, a).1)
    ensures var a' := ReaderNext(m, a).1; a' == a.(reader := a'.reader)
  {
    var Drain(len, r, n, i, out) := a.reader;
    ChunkSlotIsSlot(r, n, i, a.capacity);
    ContentsAt(m.data, m.writePos, m.readPos, i);
    assert Queue(m)[..i + 1] == Queue(m)[..i] + [Queue(m)[i]];
  }

  /** Advancing pops exactly the bytes the call returns. */
  lemma ReaderAdvance(m: Mem, a: Agents)
    requires RingInv(m, a) && a.reader.Drain? && a.reader.i == a.reader.n
    ensures RingInv(ReaderNext(m, a).0, ReaderNext(m, a).1)
    ensures var (m', a') := ReaderNext(m, a); var bytes := a.reader.out;
            && m' == m.(readPos := m'.readPos)
            && a' == a.(reader := ReaderIdle, took := Took(bytes), delivered := a.delivered + bytes, advances := a.advances + 1, stock := 0)
            && Queue(m) == bytes + Queue(m')
            && |bytes| == a.reader.n
  {
    var Drain(len, r, n, i, out) := a.reader;
    hide Contents, Slot, NewPos;
    AdvancePops(m.data, m.writePos, m.readPos, n);
    NewPosIsSlot(r, n, a.capacity);
    var (m', a') := ReaderNext(m, a);
    assert m' == m.(readPos := Slot(r, n, a.capacity));
    assert Queue(m) == out + Queue(m');
    assert Free(m') == Free(m) + n;
  }

  lemma ReaderStepKeepsInv(m: Mem, a: Agents)
    requires Inv(m, a) && a.init == 5
    ensures Inv(ReaderNext(m, a).0, ReaderNext(m, a).1)
  {
    if !a.reader.Drain? {
      ReaderLoad(m, a);
    } else if a.reader.i < a.reader.n {
      ReaderCopy(m, a);
    } else {
      ReaderAdvance(m, a);
    }
    RingOnlyKeepsInv(m, a, ReaderNext(m, a).0, ReaderNext(m, a).1);
  }
}
