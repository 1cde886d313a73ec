/** Promises that outlive a call, end of file, and the end of a pipe (src/pipes/mod.rs). */
module PipeEndOfLife {
  import opened Words
  import opened Ring
  import opened PipeMemory
  import opened PipeProtocol
  import opened PipeSafety
  import opened PipeEnds
  import opened PipeTheorems
  import PipePool

  // ---- Readiness is a stable lower bound ----

  lemma WriterStepPromises(m: Mem, a: Agents)
    requires RingInv(m, a)
    ensures var a' := WriterNext(m, a).1;
            && a'.init == 5
            && a.commits <= a'.commits && (a'.commits == a.commits ==> a.room <= a'.room)
            && a'.advances == a.advances && a'.stock == a.stock
  {
    hide WriterNext;
    if !a.writer.Fill? {
      WriterLoad(m, a);
    } else if a.writer.i < a.writer.n {
      WriterStore(m, a);
    } else {
      WriterPublish(m, a);
    }
  }

  lemma ReaderStepPromises(m: Mem, a: Agents)
    requires RingInv(m, a)
    ensures var a' := ReaderNext(m, a).1;
            && a'.init == 5
            && a.advances <= a'.advances && (a'.advances == a.advances ==> a.stock <= a'.stock)
            && a'.commits == a.commits && a'.room == a.room
  {
    hide ReaderNext;
    if !a.reader.Drain? {
      ReaderLoad(m, a);
    } else if a.reader.i < a.reader.n {
      ReaderCopy(m, a);
    } else {
      ReaderAdvance(m, a);
    }
  }

  /** Only the writer's own publication lowers what it was promised; likewise for the reader. */
  lemma PromisesOnlyGrow(m: Mem, a: Agents, e: Event)
    requires RingInv(m, a)
    ensures var a' := Next(m, a, e).1;
            && a'.init == 5
            && a.commits <= a'.commits && (a'.commits == a.commits ==> a.room <= a'.room)
            && a.advances <= a'.advances && (a'.advances == a.advances ==> a.stock <= a'.stock)
  {
    if e.StepWriter? {
      WriterStepPromises(m, a);
      NextIsWriterNext(m, a);
    } else if e.StepReader? {
      ReaderStepPromises(m, a);
      NextIsReaderNext(m, a);
    } else {
      CallsRaisePromises(m, a, e);
    }
  }

  lemma NextIsWriterNext(m: Mem, a: Agents)
    requires Shaped(a) && a.init == 5
    ensures Next(m, a, StepWriter) == WriterNext(m, a)
  {
  }

  lemma NextIsReaderNext(m: Mem, a: Agents)
    requires Shaped(a) && a.init == 5
    ensures Next(m, a, StepReader) == ReaderNext(m, a)
  {
  }

  lemma CallsRaisePromises(m: Mem, a: Agents, e: Event)
    requires Placed(m, a) && a.init == 5 && a.room <= Free(m) && a.stock <= Avail(m)
    requires !e.StepWriter? && !e.StepReader?
    ensures var a' := Next(m, a, e).1;
            a'.init == 5 && a'.commits == a.commits && a.room <= a'.room && a'.advances == a.advances && a.stock <= a'.stock
  {
  }

  lemma {:induction false} PromisesHold(garbage: Mem, before: seq<Event>, during: seq<Event>)
    requires 0 < |garbage.data| <= PipePool.PIPE_POOL_SIZE
    requires Reached(garbage, before).1.init == 5
    ensures var a := Reached(garbage, before).1; var a' := Reached(garbage, before + during).1;
            && a'.init == 5
            && a.commits <= a'.commits && (a'.commits == a.commits ==> a.room <= a'.room)
            && a.advances <= a'.advances && (a'.advances == a.advances ==> a.stock <= a'.stock)
  {
    hide Reached, Next, Inv;
    if during == [] {
      assert before + during == before;
    } else {
      var shorter := during[..|during| - 1];
      PromisesHold(garbage, before, shorter);
      assert before + during == before + shorter + [during[|during| - 1]];
      ReachedThen(garbage, before + shorter, during[|during| - 1]);
      ReachedInv(garbage, before + shorter);
      var (m, a) := Reached(garbage, before + shorter);
      PromisesOnlyGrow(m, a, during[|during| - 1]);
    }
  }

  /** The writer's next step ends its call, and does so taking at least min(n, |src|) bytes or because the pipe is closed. */
  ghost predicate WriteTakes(m: Mem, a: Agents, n: nat)
    requires Shaped(a)
  {
    match WriterNext(m, a).1.wrote
    case Wrote(k) => (a.writer.CheckClosed? || a.writer.Fill?) && k >= Min(n, |a.writer.src|)
    case BrokenPipe => m.closed != 0
    case Writable(k) => k >= n
    case _ => false
  }

  lemma RoomIsTaken(m: Mem, a: Agents, n: nat)
    requires Placed(m, a) && QueueInv(m, a) && WriterInv(m, a) && 0 < n <= a.room
    requires a.writer != WriterIdle && WriterNext(m, a).1.writer == WriterIdle
    ensures WriteTakes(m, a, n)
  {
    WriteAnswersFrom(m, a);
  }

  /**
   After poll_write_ready answered n, the next write (nothing published in between) takes at
   least min(n, |src|) bytes, or finds the pipe closed, whatever every other program did.
   */
  lemma PolledRoomIsWritten(garbage: Mem, poll: seq<Event>, during: seq<Event>)
    requires 0 < |garbage.data| <= PipePool.PIPE_POOL_SIZE
    requires var (m, a) := Reached(garbage, poll);
             && a.init == 5 && a.writer.LoadRead? && a.writer.goal.PollWritable?
             && WriterNext(m, a).1.writer == WriterIdle
    requires var (m, a) := Reached(garbage, poll + [StepWriter] + during);
             && a.writer != WriterIdle && WriterNext(m, a).1.writer == WriterIdle
             && a.commits == Reached(garbage, poll).1.commits
    ensures var (m0, a0) := Reached(garbage, poll); var answer := WriterNext(m0, a0).1.wrote;
            var (m, a) := Reached(garbage, poll + [StepWriter] + during);
            answer.Writable? && answer.n > 0 && WriteTakes(m, a, answer.n)
  {
    hide Next, Reached, WriterNext, WriteTakes, QueueInv, WriterInv, ReaderInv, EndsInv, FlagInv;
    var answered := poll + [StepWriter];
    ReachedThen(garbage, poll, StepWriter);
    ReachedInv(garbage, poll);
    ReachedInv(garbage, answered + during);
    var (m0, a0) := Reached(garbage, poll);
    PollAnswersRoom(m0, a0);
    NextIsWriterNext(m0, a0);
    PromisesHold(garbage, answered, during);
    var (m, a) := Reached(garbage, answered + during);
    RoomIsTaken(m, a, WriterNext(m0, a0).1.wrote.n);
  }

  /** The reader's next step ends its call with at least min(n, len) bytes of data, or with a poll that reports data. */
  ghost predicate ReadYields(m: Mem, a: Agents, n: nat)
    requires Shaped(a)
  {
    match ReaderNext(m, a).1.took
    case Took(bytes) => a.reader.Drain? && |bytes| >= Min(n, a.reader.len)
    case Readable(k) => k > 0
    case _ => false
  }

  lemma StockIsYielded(m: Mem, a: Agents, n: nat)
    requires RingInv(m, a) && 0 < n <= a.stock
    requires a.reader != ReaderIdle && ReaderNext(m, a).1.reader == ReaderIdle
    ensures ReadYields(m, a, n)
  {
    ReadAnswersFrom(m, a);
  }

  /**
   After poll_read_ready answered n > 0, the sole reader's next read returns at least
   min(n, len) bytes: it cannot find the pipe empty, closed or not.
   */
  lemma PolledDataIsRead(garbage: Mem, poll: seq<Event>, during: seq<Event>)
    requires 0 < |garbage.data| <= PipePool.PIPE_POOL_SIZE
    requires var (m, a) := Reached(garbage, poll);
             && a.init == 5 && a.reader.AvailRead? && a.reader.goal.PollReadable?
             && ReaderNext(m, a).1.reader == ReaderIdle
    requires var (m, a) := Reached(garbage, poll + [StepReader] + during);
             && a.reader != ReaderIdle && ReaderNext(m, a).1.reader == ReaderIdle
             && a.advances == Reached(garbage, poll).1.advances
    ensures var (m0, a0) := Reached(garbage, poll); var answer := ReaderNext(m0, a0).1.took;
            var (m, a) := Reached(garbage, poll + [StepReader] + during);
            answer.Readable? && answer.n > 0 && ReadYields(m, a, answer.n)
  {
    hide Next, Reached, ReaderNext, ReadYields, QueueInv, WriterInv, ReaderInv, EndsInv, FlagInv;
    var answered := poll + [StepReader];
    ReachedThen(garbage, poll, StepReader);
    ReachedInv(garbage, poll);
    ReachedInv(garbage, answered + during);
    var (m0, a0) := Reached(garbage, poll);
    PollAnswersStock(m0, a0);
    NextIsReaderNext(m0, a0);
    PromisesHold(garbage, answered, during);
    var (m, a) := Reached(garbage, answered + during);
    StockIsYielded(m, a, ReaderNext(m0, a0).1.took.n);
  }

  lemma PollAnswersRoom(m: Mem, a: Agents)
    requires RingInv(m, a) && a.writer.LoadRead? && a.writer.goal.PollWritable?
    requires WriterNext(m, a).1.writer == WriterIdle
    ensures var a' := WriterNext(m, a).1;
            a'.wrote.Writable? && a'.wrote.n == a'.room > 0 && a'.commits == a.commits && a'.init == 5
  {
  }

  lemma PollAnswersStock(m: Mem, a: Agents)
    requires RingInv(m, a) && a.reader.AvailRead? && a.reader.goal.PollReadable?
    requires ReaderNext(m, a).1.reader == ReaderIdle
    ensures var a' := ReaderNext(m, a).1;
            a'.took.Readable? && a'.took.n == a'.stock > 0 && a'.advances == a.advances && a'.init == 5
  {
    ReaderLoadReadPos(m, a);
  }

  // ---- End of file ----

  /** If the three loads of a read follow one another, end of file means everything accepted has been delivered. */
  lemma UninterruptedEofIsFinal(garbage: Mem, events: seq<Event>)
    requires 0 < |garbage.data| <= PipePool.PIPE_POOL_SIZE
    requires var a := Reached(garbage, events).1; a.init == 5 && a.reader.AvailWrite? && a.reader.goal.Take?
    requires Reached(garbage, events + [StepReader, StepReader, StepReader]).1.took.Eof?
    requires Reached(garbage, events + [StepReader, StepReader, StepReader]).1.reader == ReaderIdle
    ensures var (m, a) := Reached(garbage, events + [StepReader, StepReader, StepReader]);
            && a.accepted == a.delivered && m.closed != 0
  {
    hide Next, Reached, Inv;
    var one := events + [StepReader];
    var two := one + [StepReader];
    assert two + [StepReader] == events + [StepReader, StepReader, StepReader];
    ReachedThen(garbage, events, StepReader);
    ReachedThen(garbage, one, StepReader);
    ReachedThen(garbage, two, StepReader);
    var (m0, a0) := Reached(garbage, events);
    var (m1, a1) := Reached(garbage, one);
    var (m2, a2) := Reached(garbage, two);
    ReachedInv(garbage, one);
    ReachedInv(garbage, two);
    NextIsReaderNext(m0, a0);
    NextIsReaderNext(m1, a1);
    NextIsReaderNext(m2, a2);
    ReaderLoadsWritePos(m0, a0);
    ReaderStepPromises(m1, a1);
    ReadPosStep(m1, a1);
    ReadAnswers(garbage, two);
  }

  lemma ReaderLoadsWritePos(m: Mem, a: Agents)
    requires Shaped(a) && a.reader.AvailWrite?
    ensures ReaderNext(m, a) == (m, a.(reader := AvailRead(a.reader.goal, m.writePos, a.commits)))
  {
  }

  /** After read_pos, either the pipe looked empty and the stamp is kept, or the read goes on to copy. */
  lemma ReadPosStep(m: Mem, a: Agents)
    requires RingInv(m, a) && a.reader.AvailRead? && a.reader.goal.Take?
    ensures var r := ReaderNext(m, a).1.reader;
            (r.EmptyClosed? && r.stamp == a.reader.stamp) || r.ReloadRead?
    ensures ReaderNext(m, a).1.accepted == a.accepted && ReaderNext(m, a).1.delivered == a.delivered
  {
  }

  // ---- The reference count ----

  /**
   In every reachable state the count word is the number of ends holding a reference. While
   any end does, no drop has closed the pipe; once none does, exactly one drop has.
   */
  lemma CountIsLiveEnds(garbage: Mem, events: seq<Event>)
    requires 0 < |garbage.data| <= PipePool.PIPE_POOL_SIZE
    requires Reached(garbage, events).1.init == 5
    ensures var (m, a) := Reached(garbage, events);
            && m.txCount == |CountedEnds(a.ends)|
            && |Closers(a.ends)| == (if CountedEnds(a.ends) == {} then 1 else 0)
            && (CountedEnds(a.ends) != {} && !a.shut ==> m.closed == 0)
  {
    hide Next;
    ReachedInv(garbage, events);
    var (m, a) := Reached(garbage, events);
    if DropClosed(a.ends) {
      var e :| e in a.ends && a.ends[e] == Gone(true);
      assert e in Closers(a.ends);
    }
  }

  /** A drop goes on to close the pipe if and only if it gave up the last reference. */
  lemma DropClosesIffLast(garbage: Mem, events: seq<Event>, end: nat)
    requires 0 < |garbage.data| <= PipePool.PIPE_POOL_SIZE
    requires var a := Reached(garbage, events).1; a.init == 5 && end in a.ends && a.ends[end].Dropping?
    ensures var (m, a) := Reached(garbage, events); var a' := Next(m, a, StepEnd(end)).1;
            a'.ends[end] == (if CountedEnds(a.ends) == {end} then Closing else Gone(false))
  {
    hide Next;
    ReachedInv(garbage, events);
    var (m, a) := Reached(garbage, events);
    LeaveTally(a.ends, m.txCount, end);
    LeaveEffect(m, a, end);
  }

  /**
   Reconnecting a forked descriptor never closes the pipe. The new end is counted before the old one
   lets go; whatever happens in between, other drops included, the old end's drop is not the last one
   as long as the new end is live: it takes its reference off the count and leaves the flag alone.
   */
  lemma ReconnectNeverCloses(garbage: Mem, events: seq<Event>, end: nat, during: seq<Event>)
    requires 0 < |garbage.data| <= PipePool.PIPE_POOL_SIZE
    requires var a := Reached(garbage, events).1; a.init == 5 && end in a.ends && a.ends[end].Attaching? && a.ends[end].replace
    requires forall i :: 0 <= i < |during| ==> during[i] != StepEnd(Reached(garbage, events).1.ends[end].via)
    requires var a := Reached(garbage, events + [StepEnd(end)] + during).1; end in a.ends && a.ends[end].Live?
    ensures var via := Reached(garbage, events).1.ends[end].via;
            var (m, a) := Reached(garbage, events + [StepEnd(end)] + during);
            && a.init == 5 && via in a.ends && a.ends[via].Dropping?
            && m.txCount >= 2
            && Next(m, a, StepEnd(via)) == (m.(txCount := m.txCount - 1), a.(ends := a.ends[via := Gone(false)]))
  {
    hide Next, Reached, Inv;
    var one := events + [StepEnd(end)];
    ReachedInv(garbage, events);
    ReachedInv(garbage, one + during);
    var (m, a) := Reached(garbage, events);
    var via := a.ends[end].via;
    ReachedThen(garbage, events, StepEnd(end));
    ArrivalDropsOld(m, a, end);
    DroppingStays(garbage, one, during, via);
    OldEndIsNotLast(Reached(garbage, one + during).0, Reached(garbage, one + during).1, end, via);
  }

  lemma ArrivalDropsOld(m: Mem, a: Agents, end: nat)
    requires Inv(m, a) && a.init == 5 && end in a.ends && a.ends[end].Attaching? && a.ends[end].replace
    ensures var a' := Next(m, a, StepEnd(end)).1; var via := a.ends[end].via;
            a'.init == 5 && via != end && via in a'.ends && a'.ends[via].Dropping?
  {
    hide Next, RingInv, FlagInv;
    CountFits(a.ends);
    ArriveEffect(m, a, end);
  }

  /** An end that is being dropped stays so until its own next step. */
  lemma {:induction false} DroppingStays(garbage: Mem, events: seq<Event>, during: seq<Event>, via: nat)
    requires 0 < |garbage.data| <= PipePool.PIPE_POOL_SIZE
    requires var a := Reached(garbage, events).1; a.init == 5 && via in a.ends && a.ends[via].Dropping?
    requires forall i :: 0 <= i < |during| ==> during[i] != StepEnd(via)
    ensures var a := Reached(garbage, events + during).1; a.init == 5 && via in a.ends && a.ends[via].Dropping?
  {
    hide Next, Reached;
    if during == [] {
      assert events + during == events;
    } else {
      var shorter := during[..|during| - 1];
      DroppingStays(garbage, events, shorter, via);
      assert events + during == events + shorter + [during[|during| - 1]];
      ReachedThen(garbage, events + shorter, during[|during| - 1]);
      var (m, a) := Reached(garbage, events + shorter);
      DroppingStep(m, a, during[|during| - 1], via);
    }
  }

  lemma DroppingStep(m: Mem, a: Agents, e: Event, via: nat)
    requires Shaped(a) && a.init == 5 && via in a.ends && a.ends[via].Dropping? && e != StepEnd(via)
    ensures var a' := Next(m, a, e).1; a'.init == 5 && via in a'.ends && a'.ends[via].Dropping?
  {
    hide Exec, Request, ResumeWriter, ResumeReader;
    var v := Exec(m, Request(a, e)).1;
    DataPathsKeepEnds(a, v);
  }

  lemma DataPathsKeepEnds(a: Agents, v: u32)
    requires Shaped(a)
    ensures ResumeWriter(a, v).ends == a.ends && ResumeWriter(a, v).init == a.init
    ensures ResumeReader(a, v).ends == a.ends && ResumeReader(a, v).init == a.init
  {
  }

  lemma OldEndIsNotLast(m: Mem, a: Agents, end: nat, via: nat)
    requires Inv(m, a) && a.init == 5 && end in a.ends && a.ends[end].Live? && via in a.ends && a.ends[via].Dropping?
    ensures m.txCount >= 2
    ensures Next(m, a, StepEnd(via)) == (m.(txCount := m.txCount - 1), a.(ends := a.ends[via := Gone(false)]))
  {
    hide Next, RingInv, FlagInv;
    assert end in CountedEnds(a.ends);
    LeaveTally(a.ends, m.txCount, via);
    LeaveEffect(m, a, via);
  }

  /** Nobody holds a reference, so nobody can write or attach. */
  ghost predicate NoReferences(a: Agents) {
    && a.init == 5 && a.writer == WriterIdle
    && forall e :: e in a.ends ==> a.ends[e].Closing? || a.ends[e].Gone?
  }

  lemma NoReferencesForever(m: Mem, a: Agents, e: Event)
    requires Shaped(a) && NoReferences(a)
    ensures NoReferences(Next(m, a, e).1) && Next(m, a, e).1.accepted == a.accepted
  {
    if e.StepReader? {
      NextIsReaderNext(m, a);
      hide Next;
    } else {
      hide ResumeReader, ResumeWriter, Exec;
      assert e.StepWriter? ==> ResumeWriter(a, Exec(m, Request(a, e)).1) == a by {
        IdleWriterStays(a, Exec(m, Request(a, e)).1);
      }
    }
  }

  lemma IdleWriterStays(a: Agents, v: u32)
    requires Shaped(a) && a.writer == WriterIdle
    ensures ResumeWriter(a, v) == a
  {
  }

  /** Once a drop has decided to close the pipe, no byte is ever accepted again. */
  lemma {:induction false} AcceptedIsFinalAfterLastDrop(garbage: Mem, events: seq<Event>, more: seq<Event>)
    requires 0 < |garbage.data| <= PipePool.PIPE_POOL_SIZE
    requires var a := Reached(garbage, events).1; a.init == 5 && Closers(a.ends) != {}
    ensures Reached(garbage, events + more).1.accepted == Reached(garbage, events).1.accepted
    ensures NoReferences(Reached(garbage, events + more).1)
  {
    hide Next;
    if more == [] {
      assert events + more == events;
      ReachedInv(garbage, events);
      var (m, a) := Reached(garbage, events);
      assert |Closers(a.ends)| > 0;
      assert forall e :: e in a.ends && a.ends[e].Counted() ==> e in CountedEnds(a.ends);
    } else {
      var shorter := more[..|more| - 1];
      AcceptedIsFinalAfterLastDrop(garbage, events, shorter);
      assert (events + more)[..|events + more| - 1] == events + shorter;
      NoReferencesForever(Reached(garbage, events + shorter).0, Reached(garbage, events + shorter).1, more[|more| - 1]);
    }
  }

  // ---- End of file once the last drop has closed the pipe ----

  /** The reader has not loaded write_pos, or nothing was published since it did. */
  predicate StampIsCurrent(a: Agents) {
    match a.reader
    case AvailRead(_, _, stamp) => stamp == a.commits
    case EmptyClosed(_, stamp) => stamp == a.commits
    case Recheck(_, stamp) => stamp == a.commits
    case _ => true
  }

  lemma StampStep(m: Mem, a: Agents, e: Event)
    requires Shaped(a) && NoReferences(a) && StampIsCurrent(a)
    ensures StampIsCurrent(Next(m, a, e).1)
  {
    hide Exec, WriterRequest, ReaderRequest;
    if e.StepWriter? {
      IdleWriterStays(a, Exec(m, Request(a, e)).1);
    }
  }

  lemma {:induction false} StampStaysCurrent(garbage: Mem, before: seq<Event>, during: seq<Event>)
    requires 0 < |garbage.data| <= PipePool.PIPE_POOL_SIZE
    requires var a := Reached(garbage, before).1; a.init == 5 && Closers(a.ends) != {} && a.reader == ReaderIdle
    ensures StampIsCurrent(Reached(garbage, before + during).1)
  {
    hide Next, Reached, NoReferences, Closers;
    if during == [] {
      assert before + during == before;
    } else {
      var shorter := during[..|during| - 1];
      StampStaysCurrent(garbage, before, shorter);
      AcceptedIsFinalAfterLastDrop(garbage, before, shorter);
      assert before + during == before + shorter + [during[|during| - 1]];
      ReachedThen(garbage, before + shorter, during[|during| - 1]);
      StampStep(Reached(garbage, before + shorter).0, Reached(garbage, before + shorter).1, during[|during| - 1]);
    }
  }

  /** A pipe that is closed though nobody closed it by hand was closed by the last drop. */
  lemma ClosedByLastDrop(m: Mem, a: Agents)
    requires Inv(m, a) && a.init == 5 && m.closed != 0 && !a.shut
    ensures Closers(a.ends) != {}
  {
    var e :| e in a.ends && a.ends[e] == Gone(true);
    assert e in Closers(a.ends);
  }

  /**
   If the last drop has closed the pipe, or decided to, before a read begins, then end of file from
   that read means that everything accepted has been delivered, whatever happens during the read. So
   a reader that finds end of file and reads once more may trust the second one.
   */
  lemma EofAfterLastDropIsFinal(garbage: Mem, before: seq<Event>, during: seq<Event>)
    requires 0 < |garbage.data| <= PipePool.PIPE_POOL_SIZE
    requires var (m, a) := Reached(garbage, before);
             a.init == 5 && a.reader == ReaderIdle && (Closers(a.ends) != {} || (m.closed != 0 && !a.shut))
    requires var (m, a) := Reached(garbage, before + during);
             a.reader != ReaderIdle && Next(m, a, StepReader).1.reader == ReaderIdle && Next(m, a, StepReader).1.took.Eof?
    ensures var a := Reached(garbage, before + during).1; a.accepted == a.delivered
  {
    hide Next, Reached, NoReferences, Closers, Inv, StampIsCurrent, GoodReadAnswer;
    ReachedInv(garbage, before);
    var (m0, a0) := Reached(garbage, before);
    if Closers(a0.ends) == {} {
      ClosedByLastDrop(m0, a0);
    }
    StampStaysCurrent(garbage, before, during);
    AcceptedIsFinalAfterLastDrop(garbage, before, during);
    NoReferencesMeansReady(Reached(garbage, before + during).1);
    ReadAnswers(garbage, before + during);
    CurrentEofIsFinal(Reached(garbage, before + during).0, Reached(garbage, before + during).1);
  }

  lemma CurrentEofIsFinal(m: Mem, a: Agents)
    requires Placed(m, a) && StampIsCurrent(a) && GoodReadAnswer(m, a, Next(m, a, StepReader).1)
    requires Next(m, a, StepReader).1.took.Eof?
    ensures a.accepted == a.delivered
  {
    hide Next;
  }

  lemma NoReferencesMeansReady(a: Agents)
    requires NoReferences(a)
    ensures a.init == 5
  {
  }
}
