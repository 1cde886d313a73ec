/**
 From a call to its answer (src/pipes/mod.rs): which answers each of the four calls can end in, whatever
 the other programs do meanwhile, how they relate to what the caller could see when it called, and how
 many steps of its own the call takes.
 */
module PipeCalls {
  import opened Words
  import opened Ring
  import opened PipeMemory
  import opened PipeProtocol
  import opened PipeSafety
  import opened PipeEnds
  import opened PipeTheorems
  import opened PipeEndOfLife
  import PipePool

  /** How many of the events are `e`. */
  function Count(events: seq<Event>, e: Event): nat {
    if events == [] then 0 else Count(events[..|events| - 1], e) + (if events[|events| - 1] == e then 1 else 0)
  }

  /** The pipe is in use, and neither closed flag nor initialisation goes back. */
  lemma FlagStays(m: Mem, a: Agents, e: Event)
    requires Shaped(a) && a.init == 5
    ensures Next(m, a, e).1.init == 5 && (m.closed != 0 ==> Next(m, a, e).0.closed != 0)
  {
    hide ResumeWriter, ResumeReader;
    DataPathsKeepEnds(a, Exec(m, Request(a, e)).1);
  }

  // ---- Reads ----

  /** While a read is under way only its own steps touch what it keeps. */
  lemma OthersLeaveReader(m: Mem, a: Agents, e: Event)
    requires Shaped(a) && a.init == 5 && a.reader != ReaderIdle && e != StepReader
    ensures var a' := Next(m, a, e).1; a'.reader == a.reader && a'.stock == a.stock && a'.delivered == a.delivered
  {
    hide Exec, WriterRequest, ReaderRequest;
  }

  /** The reader is `steps` steps into a read of `len` bytes; one that does not wait goes through at most once. */
  predicate Serving(a: Agents, len: nat, blocking: bool, once: bool, steps: nat) {
    match a.reader
    case AvailWrite(goal) => goal == Take(len, blocking) && (once ==> steps == 0)
    case AvailRead(goal, _, _) => goal == Take(len, blocking) && (once ==> steps == 1)
    case EmptyClosed(goal, _) => goal == Take(len, blocking) && (once ==> steps == 2)
    case Recheck(l, _) => l == len && blocking && !once
    case ReloadRead(l, _) => l == len && (once ==> steps == 2)
    case Drain(l, _, n, i, _) => l == len && n <= len && (once ==> steps == 3 + i)
    case _ => false
  }

  lemma ReadGoesOn(m: Mem, a: Agents, len: nat, blocking: bool, once: bool, steps: nat)
    requires RingInv(m, a) && Serving(a, len, blocking, once, steps) && (once && blocking ==> m.closed != 0)
    requires ReaderNext(m, a).1.reader != ReaderIdle
    ensures var a' := ReaderNext(m, a).1;
            Serving(a', len, blocking, once, steps + 1) && a'.stock == a.stock && a'.delivered == a.delivered
  {
    if a.reader.AvailRead? {
      ReaderLoadReadPos(m, a);
    }
  }

  /** How a read may end. */
  ghost predicate GoodReadEnd(m: Mem, a: Agents, a': Agents, len: nat, blocking: bool)
    requires Placed(m, a)
  {
    match a'.took
    case Took(bytes) =>
      && Min(len, a.stock) <= |bytes| <= len && a'.delivered == a.delivered + bytes && bytes <= Queue(m)
      && (bytes == [] ==> len == 0)
    case Eof => a.stock == 0 && m.closed != 0
    case ReadWouldBlock => !blocking && a.stock == 0 && m.closed == 0
    case _ => false
  }

  lemma ReadEnds(m: Mem, a: Agents, len: nat, blocking: bool, once: bool, steps: nat)
    requires RingInv(m, a) && Serving(a, len, blocking, once, steps)
    requires ReaderNext(m, a).1.reader == ReaderIdle
    ensures GoodReadEnd(m, a, ReaderNext(m, a).1, len, blocking) && (once ==> steps + 1 <= len + 4)
  {
    ReadAnswersFrom(m, a);
    hide RingInv;
    if a.reader.AvailRead? {
      ReaderLoadReadPos(m, a);
    }
  }

  /** `call` has been made at the end of `before` and has not been answered during `during`. */
  ghost predicate Reading(garbage: Mem, before: seq<Event>, call: Event, during: seq<Event>)
    requires 0 < |garbage.data| <= PipePool.PIPE_POOL_SIZE
  {
    && Reached(garbage, before).1.init == 5 && Reached(garbage, before).1.reader == ReaderIdle
    && forall n :: 0 <= n <= |during| ==> Reached(garbage, before + [call] + during[..n]).1.reader != ReaderIdle
  }

  lemma ReadingBefore(garbage: Mem, before: seq<Event>, call: Event, during: seq<Event>)
    requires 0 < |garbage.data| <= PipePool.PIPE_POOL_SIZE
    requires Reading(garbage, before, call, during) && during != []
    ensures Reading(garbage, before, call, during[..|during| - 1])
    ensures Reached(garbage, before + [call] + during).1.reader != ReaderIdle
  {
    hide Reached;
    var shorter := during[..|during| - 1];
    assert forall n :: 0 <= n <= |shorter| ==> shorter[..n] == during[..n];
    assert during[..|during|] == during;
  }

  lemma {:induction false} ReadUnderWay(garbage: Mem, before: seq<Event>, len: nat, blocking: bool, during: seq<Event>)
    requires 0 < |garbage.data| <= PipePool.PIPE_POOL_SIZE
    requires Reading(garbage, before, CallRead(len, blocking), during)
    ensures var (m0, a0) := Reached(garbage, before);
            var (m, a) := Reached(garbage, before + [CallRead(len, blocking)] + during);
            && Placed(m0, a0) && a.init == 5 && a.stock == Avail(m0) && a.delivered == a0.delivered
            && (m0.closed != 0 ==> m.closed != 0)
            && Serving(a, len, blocking, !blocking || m0.closed != 0, Count(during, StepReader))
  {
    hide Reached, Next, Serving, Inv;
    var call := CallRead(len, blocking);
    var (m0, a0) := Reached(garbage, before);
    ReachedInv(garbage, before);
    if during == [] {
      assert before + [call] + during == before + [call];
      ReachedThen(garbage, before, call);
      ReadStarts(m0, a0, len, blocking);
    } else {
      var shorter := during[..|during| - 1];
      var e := during[|during| - 1];
      ReadingBefore(garbage, before, call, during);
      ReadUnderWay(garbage, before, len, blocking, shorter);
      assert before + [call] + during == before + [call] + shorter + [e];
      ReachedThen(garbage, before + [call] + shorter, e);
      var (m, a) := Reached(garbage, before + [call] + shorter);
      ReachedInv(garbage, before + [call] + shorter);
      InvInUse(m, a);
      FlagStays(m, a, e);
      BusyBeforeEnd(garbage, before, call, shorter);
      if e == StepReader {
        NextIsReaderNext(m, a);
        ReadGoesOn(m, a, len, blocking, !blocking || m0.closed != 0, Count(shorter, StepReader));
      } else {
        OthersLeaveReader(m, a, e);
        SameServing(a, Next(m, a, e).1, len, blocking, !blocking || m0.closed != 0, Count(shorter, StepReader));
      }
    }
  }

  lemma BusyBeforeEnd(garbage: Mem, before: seq<Event>, call: Event, during: seq<Event>)
    requires 0 < |garbage.data| <= PipePool.PIPE_POOL_SIZE
    requires Reading(garbage, before, call, during)
    ensures Reached(garbage, before + [call] + during).1.reader != ReaderIdle
  {
    hide Reached;
    assert during[..|during|] == during;
  }

  lemma ReadingInUse(garbage: Mem, before: seq<Event>, call: Event, during: seq<Event>)
    requires 0 < |garbage.data| <= PipePool.PIPE_POOL_SIZE && Reading(garbage, before, call, during)
    ensures Reached(garbage, before).1.init == 5
  {
  }

  lemma InvInUse(m: Mem, a: Agents)
    requires Inv(m, a) && a.init == 5
    ensures RingInv(m, a) && Placed(m, a) && a.stock <= Avail(m) && a.room <= Free(m)
  {
  }

  lemma SameServing(a: Agents, a': Agents, len: nat, blocking: bool, once: bool, steps: nat)
    requires Serving(a, len, blocking, once, steps) && a'.reader == a.reader
    ensures Serving(a', len, blocking, once, steps)
  {
  }

  lemma ReadStarts(m: Mem, a: Agents, len: nat, blocking: bool)
    requires Inv(m, a) && a.init == 5 && a.reader == ReaderIdle
    ensures var (m', a') := Next(m, a, CallRead(len, blocking));
            && Placed(m, a) && m' == m && a'.init == 5 && a'.stock == Avail(m) && a'.delivered == a.delivered
            && forall once :: Serving(a', len, blocking, once, 0)
  {
  }

  /**
   A read that was called with `avail` bytes queued returns at least min(len, avail) and at most len
   bytes, or end of file, or, only if it does not block, would-block; the last two only if nothing was
   queued at the call. A read that does not block, or was called on a closed pipe, takes at most
   len + 4 steps: it never goes round again.
   */
  lemma ReadCallIsAnswered(garbage: Mem, before: seq<Event>, len: nat, blocking: bool, during: seq<Event>)
    requires 0 < |garbage.data| <= PipePool.PIPE_POOL_SIZE
    requires Reading(garbage, before, CallRead(len, blocking), during)
    requires Reached(garbage, before + [CallRead(len, blocking)] + during + [StepReader]).1.reader == ReaderIdle
    ensures var (m0, a0) := Reached(garbage, before);
            var (m, a) := Reached(garbage, before + [CallRead(len, blocking)] + during + [StepReader]);
            && Placed(m0, a0)
            && (match a.took
                case Took(bytes) =>
                  Min(len, Avail(m0)) <= |bytes| <= len && (bytes == [] ==> len == 0) && a.delivered == a0.delivered + bytes
                case Eof => Avail(m0) == 0 && m.closed != 0 && a.delivered == a0.delivered
                case ReadWouldBlock => !blocking && Avail(m0) == 0 && m0.closed == 0 && a.delivered == a0.delivered
                case _ => false)
            && (!blocking || m0.closed != 0 ==> Count(during + [StepReader], StepReader) <= len + 4)
  {
    hide Reached, Next, Serving, Inv, Reading;
    var all := before + [CallRead(len, blocking)] + during;
    var (m0, a0) := Reached(garbage, before);
    var (m, a) := Reached(garbage, all);
    ReadUnderWay(garbage, before, len, blocking, during);
    ReachedThen(garbage, all, StepReader);
    ReachedInv(garbage, all);
    InvInUse(m, a);
    NextIsReaderNext(m, a);
    FlagStays(m, a, StepReader);
    ReadEnds(m, a, len, blocking, !blocking || m0.closed != 0, Count(during, StepReader));
    QuietEndDeliversNothing(m, a);
    assert (during + [StepReader])[..|during|] == during;
  }

  /** An answer without bytes leaves the log alone. */
  lemma QuietEndDeliversNothing(m: Mem, a: Agents)
    requires Shaped(a)
    ensures !a.reader.Drain? ==> ReaderNext(m, a).1.delivered == a.delivered
    ensures a.reader.Drain? && ReaderNext(m, a).1.reader == ReaderIdle ==> ReaderNext(m, a).1.took.Took?
  {
  }

  // ---- Read polls ----

  /** The reader is `steps` steps into a read poll, three of them a round. */
  predicate Polling(a: Agents, steps: nat) {
    match a.reader
    case AvailWrite(goal) => goal.PollReadable? && goal.tries < MAX_WAIT_ITERATIONS && steps == 3 * goal.tries
    case AvailRead(goal, _, _) => goal.PollReadable? && goal.tries < MAX_WAIT_ITERATIONS && steps == 3 * goal.tries + 1
    case EmptyClosed(goal, _) => goal.PollReadable? && goal.tries < MAX_WAIT_ITERATIONS && steps == 3 * goal.tries + 2
    case _ => false
  }

  lemma PollGoesOn(m: Mem, a: Agents, steps: nat)
    requires RingInv(m, a) && Polling(a, steps) && ReaderNext(m, a).1.reader != ReaderIdle
    ensures var a' := ReaderNext(m, a).1; Polling(a', steps + 1) && a'.stock == a.stock && a'.delivered == a.delivered
  {
    if a.reader.AvailRead? {
      ReaderLoadReadPos(m, a);
    }
  }

  lemma PollEnds(m: Mem, a: Agents, steps: nat)
    requires RingInv(m, a) && Polling(a, steps) && ReaderNext(m, a).1.reader == ReaderIdle
    ensures var a' := ReaderNext(m, a).1;
            && (match a'.took
                case Readable(n) => a.stock <= n <= Avail(m) && (n == 0 ==> m.closed != 0)
                case ReadPending => a.stock == 0 && m.closed == 0 && steps + 1 == 3 * MAX_WAIT_ITERATIONS
                case _ => false)
            && a'.delivered == a.delivered && steps + 1 <= 3 * MAX_WAIT_ITERATIONS
  {
    ReadAnswersFrom(m, a);
    hide RingInv;
    if a.reader.AvailRead? {
      ReaderLoadReadPos(m, a);
    }
  }

  lemma PollStarts(m: Mem, a: Agents)
    requires Inv(m, a) && a.init == 5 && a.reader == ReaderIdle
    ensures var (m', a') := Next(m, a, CallPollRead);
            Placed(m, a) && m' == m && a'.init == 5 && a'.stock == Avail(m) && a'.delivered == a.delivered && Polling(a', 0)
  {
  }

  lemma {:induction false} PollUnderWay(garbage: Mem, before: seq<Event>, during: seq<Event>)
    requires 0 < |garbage.data| <= PipePool.PIPE_POOL_SIZE
    requires Reading(garbage, before, CallPollRead, during)
    ensures var (m0, a0) := Reached(garbage, before);
            var a := Reached(garbage, before + [CallPollRead] + during).1;
            && Placed(m0, a0) && a.init == 5 && a.stock == Avail(m0) && a.delivered == a0.delivered
            && Polling(a, Count(during, StepReader))
  {
    hide Reached, Next, Polling, Inv;
    var (m0, a0) := Reached(garbage, before);
    ReachedInv(garbage, before);
    if during == [] {
      assert before + [CallPollRead] + during == before + [CallPollRead];
      ReachedThen(garbage, before, CallPollRead);
      PollStarts(m0, a0);
    } else {
      var shorter := during[..|during| - 1];
      var e := during[|during| - 1];
      ReadingBefore(garbage, before, CallPollRead, during);
      PollUnderWay(garbage, before, shorter);
      assert before + [CallPollRead] + during == before + [CallPollRead] + shorter + [e];
      ReachedThen(garbage, before + [CallPollRead] + shorter, e);
      var (m, a) := Reached(garbage, before + [CallPollRead] + shorter);
      ReachedInv(garbage, before + [CallPollRead] + shorter);
      InvInUse(m, a);
      FlagStays(m, a, e);
      BusyBeforeEnd(garbage, before, CallPollRead, shorter);
      if e == StepReader {
        NextIsReaderNext(m, a);
        PollGoesOn(m, a, Count(shorter, StepReader));
      } else {
        OthersLeaveReader(m, a, e);
        SamePolling(a, Next(m, a, e).1, Count(shorter, StepReader));
      }
    }
  }

  lemma SamePolling(a: Agents, a': Agents, steps: nat)
    requires Polling(a, steps) && a'.reader == a.reader
    ensures Polling(a', steps)
  {
  }

  /**
   A read poll answers at least what was queued when it was called, zero only for a closed pipe, and
   consumes nothing; it gives up only after 200 rounds of three steps, and only if nothing was queued
   at the call.
   */
  lemma ReadPollIsAnswered(garbage: Mem, before: seq<Event>, during: seq<Event>)
    requires 0 < |garbage.data| <= PipePool.PIPE_POOL_SIZE
    requires Reading(garbage, before, CallPollRead, during)
    requires Reached(garbage, before + [CallPollRead] + during + [StepReader]).1.reader == ReaderIdle
    ensures var (m0, a0) := Reached(garbage, before);
            var (m, a) := Reached(garbage, before + [CallPollRead] + during + [StepReader]);
            var steps := Count(during + [StepReader], StepReader);
            && Placed(m0, a0) && a.delivered == a0.delivered
            && (match a.took
                case Readable(n) => Avail(m0) <= n && (n == 0 ==> m.closed != 0) && steps <= 600
                case ReadPending => Avail(m0) == 0 && m0.closed == 0 && steps == 600
                case _ => false)
  {
    hide Reached, Next, Polling, Inv, Reading;
    var all := before + [CallPollRead] + during;
    var (m0, a0) := Reached(garbage, before);
    var (m, a) := Reached(garbage, all);
    ReadingInUse(garbage, before, CallPollRead, during);
    PollUnderWay(garbage, before, during);
    ReachedThen(garbage, all, StepReader);
    ReachedInv(garbage, all);
    InvInUse(m, a);
    NextIsReaderNext(m, a);
    FlagStays(m, a, StepReader);
    FlagStaysAll(garbage, before, [CallPollRead] + during);
    assert before + ([CallPollRead] + during) == all;
    PollEnds(m, a, Count(during, StepReader));
    assert (during + [StepReader])[..|during|] == during;
  }

  lemma {:induction false} FlagStaysAll(garbage: Mem, before: seq<Event>, during: seq<Event>)
    requires 0 < |garbage.data| <= PipePool.PIPE_POOL_SIZE
    requires Reached(garbage, before).1.init == 5
    ensures Reached(garbage, before + during).1.init == 5
    ensures Reached(garbage, before).0.closed != 0 ==> Reached(garbage, before + during).0.closed != 0
  {
    hide Reached, Next;
    if during == [] {
      assert before + during == before;
    } else {
      var shorter := during[..|during| - 1];
      FlagStaysAll(garbage, before, shorter);
      assert before + during == before + shorter + [during[|during| - 1]];
      ReachedThen(garbage, before + shorter, during[|during| - 1]);
      FlagStays(Reached(garbage, before + shorter).0, Reached(garbage, before + shorter).1, during[|during| - 1]);
    }
  }

  // ---- Writes ----

  lemma OthersLeaveWriter(m: Mem, a: Agents, e: Event)
    requires Shaped(a) && a.init == 5 && a.writer != WriterIdle && e != StepWriter
    ensures var a' := Next(m, a, e).1; a'.writer == a.writer && a'.room == a.room && a'.accepted == a.accepted
  {
    hide Exec, Request, ResumeReader;
    ReaderLeavesWriter(a, Exec(m, Request(a, e)).1);
  }

  lemma ReaderLeavesWriter(a: Agents, v: u32)
    requires Shaped(a)
    ensures var a' := ResumeReader(a, v); a'.writer == a.writer && a'.room == a.room && a'.accepted == a.accepted
  {
  }

  /** The writer is `steps` steps into a write of `src`; past the first of them if it found the pipe open. */
  predicate Storing(a: Agents, src: seq<byte>, closed: bool, steps: nat) {
    match a.writer
    case CheckClosed(s) => s == src && steps == 0
    case LoadWrite(goal) => goal == Put(src) && !closed && steps == 1
    case LoadRead(goal, _) => goal == Put(src) && !closed && steps == 2
    case Reload(s, _) => s == src && !closed && steps == 3
    case Fill(s, _, n, i) => s == src && !closed && n <= |src| && steps == 4 + i
    case _ => false
  }

  lemma WriteGoesOn(m: Mem, a: Agents, src: seq<byte>, closed: bool, steps: nat)
    requires RingInv(m, a) && Storing(a, src, closed, steps) && (closed ==> m.closed != 0)
    requires WriterNext(m, a).1.writer != WriterIdle
    ensures var a' := WriterNext(m, a).1;
            Storing(a', src, closed, steps + 1) && a'.room == a.room && a'.accepted == a.accepted
  {
    WriterLoadTraps(m, a);
  }

  /** No subtraction of the writer underflows. */
  lemma WriterLoadTraps(m: Mem, a: Agents)
    requires RingInv(m, a)
    ensures WriterNext(m, a).1.writer != WriterTrapped
  {
    hide Contents;
    if a.writer.LoadRead? || a.writer.Reload? {
      WriterLoadEffect(m, a);
    }
  }

  lemma WriteEnds(m: Mem, a: Agents, src: seq<byte>, closed: bool, steps: nat)
    requires RingInv(m, a) && Storing(a, src, closed, steps) && (closed ==> m.closed != 0)
    requires WriterNext(m, a).1.writer == WriterIdle
    ensures var a' := WriterNext(m, a).1;
            && (match a'.wrote
                case Wrote(n) =>
                  && Min(|src|, if src == [] then 0 else a.room) <= n <= |src| && (n == 0 ==> src == [])
                  && a'.accepted == a.accepted + src[..n] && !closed
                case WriteWouldBlock => a.room == 0 && !closed && a'.accepted == a.accepted && src != []
                case BrokenPipe => m.closed != 0 && a'.accepted == a.accepted
                case _ => false)
            && steps + 1 <= |src| + 5
  {
    WriteAnswersFrom(m, a);
    hide RingInv;
  }

  lemma WriteStarts(m: Mem, a: Agents, end: nat, src: seq<byte>)
    requires Inv(m, a) && a.init == 5 && a.writer == WriterIdle && Next(m, a, CallWrite(end, src)).1.writer != WriterIdle
    ensures var (m', a') := Next(m, a, CallWrite(end, src));
            && Placed(m, a) && m' == m && a'.init == 5 && a'.room == Free(m) && a'.accepted == a.accepted
            && forall closed :: Storing(a', src, closed, 0)
  {
  }

  /** The same as `Reading` for the writer. */
  ghost predicate Writing(garbage: Mem, before: seq<Event>, call: Event, during: seq<Event>)
    requires 0 < |garbage.data| <= PipePool.PIPE_POOL_SIZE
  {
    && Reached(garbage, before).1.init == 5 && Reached(garbage, before).1.writer == WriterIdle
    && forall n :: 0 <= n <= |during| ==> Reached(garbage, before + [call] + during[..n]).1.writer != WriterIdle
  }

  lemma StillWriting(garbage: Mem, before: seq<Event>, call: Event, during: seq<Event>)
    requires 0 < |garbage.data| <= PipePool.PIPE_POOL_SIZE && Writing(garbage, before, call, during)
    ensures Reached(garbage, before + [call] + during).1.writer != WriterIdle
  {
    hide Reached, Next;
    assert during[..|during|] == during;
  }

  lemma WritingBefore(garbage: Mem, before: seq<Event>, call: Event, during: seq<Event>)
    requires 0 < |garbage.data| <= PipePool.PIPE_POOL_SIZE && Writing(garbage, before, call, during) && during != []
    ensures Writing(garbage, before, call, during[..|during| - 1])
  {
    hide Reached, Next;
    var shorter := during[..|during| - 1];
    assert forall n :: 0 <= n <= |shorter| ==> shorter[..n] == during[..n];
  }

  lemma {:induction false} WriteUnderWay(garbage: Mem, before: seq<Event>, end: nat, src: seq<byte>, during: seq<Event>)
    requires 0 < |garbage.data| <= PipePool.PIPE_POOL_SIZE
    requires Writing(garbage, before, CallWrite(end, src), during)
    ensures var (m0, a0) := Reached(garbage, before);
            var (m, a) := Reached(garbage, before + [CallWrite(end, src)] + during);
            && Placed(m0, a0) && a.init == 5 && a.room == Free(m0) && a.accepted == a0.accepted
            && (m0.closed != 0 ==> m.closed != 0)
            && Storing(a, src, m0.closed != 0, Count(during, StepWriter))
  {
    hide Reached, Next, Storing, Inv;
    var call := CallWrite(end, src);
    var (m0, a0) := Reached(garbage, before);
    ReachedInv(garbage, before);
    StillWriting(garbage, before, call, during);
    if during == [] {
      assert before + [call] + during == before + [call];
      ReachedThen(garbage, before, call);
      WriteStarts(m0, a0, end, src);
    } else {
      var shorter := during[..|during| - 1];
      var e := during[|during| - 1];
      WritingBefore(garbage, before, call, during);
      WriteUnderWay(garbage, before, end, src, shorter);
      StillWriting(garbage, before, call, shorter);
      assert before + [call] + during == before + [call] + shorter + [e];
      ReachedThen(garbage, before + [call] + shorter, e);
      var (m, a) := Reached(garbage, before + [call] + shorter);
      ReachedInv(garbage, before + [call] + shorter);
      InvInUse(m, a);
      FlagStays(m, a, e);
      if e == StepWriter {
        NextIsWriterNext(m, a);
        WriteGoesOn(m, a, src, m0.closed != 0, Count(shorter, StepWriter));
      } else {
        OthersLeaveWriter(m, a, e);
        SameStoring(a, Next(m, a, e).1, src, m0.closed != 0, Count(shorter, StepWriter));
      }
    }
  }

  lemma SameStoring(a: Agents, a': Agents, src: seq<byte>, closed: bool, steps: nat)
    requires Storing(a, src, closed, steps) && a'.writer == a.writer
    ensures Storing(a', src, closed, steps)
  {
  }

  /**
   A write that was called with `free` bytes of space takes at least min(|src|, free) bytes, all of them
   from the front of src, or finds the pipe closed, which it always does if it was closed at the call,
   or, only if there was no space at the call, would block. It takes at most |src| + 5 steps.
   */
  lemma WriteCallIsAnswered(garbage: Mem, before: seq<Event>, end: nat, src: seq<byte>, during: seq<Event>)
    requires 0 < |garbage.data| <= PipePool.PIPE_POOL_SIZE
    requires Writing(garbage, before, CallWrite(end, src), during)
    requires Reached(garbage, before + [CallWrite(end, src)] + during + [StepWriter]).1.writer == WriterIdle
    ensures var (m0, a0) := Reached(garbage, before);
            var (m, a) := Reached(garbage, before + [CallWrite(end, src)] + during + [StepWriter]);
            && Placed(m0, a0)
            && (match a.wrote
                case Wrote(n) =>
                  && Min(|src|, Free(m0)) <= n <= |src| && (n == 0 ==> src == []) && m0.closed == 0
                  && a.accepted == a0.accepted + src[..n]
                case WriteWouldBlock => src != [] && Free(m0) == 0 && m0.closed == 0 && a.accepted == a0.accepted
                case BrokenPipe => m.closed != 0 && a.accepted == a0.accepted
                case _ => false)
            && Count(during + [StepWriter], StepWriter) <= |src| + 5
  {
    hide Reached, Next, Storing, Inv, Writing;
    var all := before + [CallWrite(end, src)] + during;
    var (m0, a0) := Reached(garbage, before);
    var (m, a) := Reached(garbage, all);
    WriteUnderWay(garbage, before, end, src, during);
    ReachedThen(garbage, all, StepWriter);
    ReachedInv(garbage, all);
    InvInUse(m, a);
    NextIsWriterNext(m, a);
    FlagStays(m, a, StepWriter);
    WriteEnds(m, a, src, m0.closed != 0, Count(during, StepWriter));
    assert (during + [StepWriter])[..|during|] == during;
  }

  // ---- Write polls ----

  predicate Probing(a: Agents, steps: nat) {
    match a.writer
    case LoadWrite(goal) => goal.PollWritable? && steps == 0
    case LoadRead(goal, _) => goal.PollWritable? && steps == 1
    case PollClosed => steps == 2
    case _ => false
  }

  lemma ProbeStep(m: Mem, a: Agents, steps: nat)
    requires RingInv(m, a) && Probing(a, steps)
    ensures var a' := WriterNext(m, a).1;
            && a'.accepted == a.accepted && steps < 3
            && if a'.writer != WriterIdle then Probing(a', steps + 1) && a'.room == a.room
               else match a'.wrote
                    case Writable(n) => 0 < n == Free(m) && a.room <= n
                    case BrokenPipe => m.closed != 0 && a.room == 0
                    case WritePending => m.closed == 0 && a.room == 0
                    case _ => false
  {
    WriterLoadTraps(m, a);
    if WriterNext(m, a).1.writer == WriterIdle {
      WriteAnswersFrom(m, a);
    }
  }

  lemma ProbeStarts(m: Mem, a: Agents, end: nat)
    requires Inv(m, a) && a.init == 5 && a.writer == WriterIdle && Next(m, a, CallPollWrite(end)).1.writer != WriterIdle
    ensures var (m', a') := Next(m, a, CallPollWrite(end));
            Placed(m, a) && m' == m && a'.init == 5 && a'.room == Free(m) && a'.accepted == a.accepted && Probing(a', 0)
  {
  }

  lemma {:induction false} ProbeUnderWay(garbage: Mem, before: seq<Event>, end: nat, during: seq<Event>)
    requires 0 < |garbage.data| <= PipePool.PIPE_POOL_SIZE
    requires Writing(garbage, before, CallPollWrite(end), during)
    ensures var (m0, a0) := Reached(garbage, before);
            var a := Reached(garbage, before + [CallPollWrite(end)] + during).1;
            && Placed(m0, a0) && a.init == 5 && a.room == Free(m0) && a.accepted == a0.accepted
            && Probing(a, Count(during, StepWriter))
  {
    hide Reached, Next, Probing, Inv;
    var call := CallPollWrite(end);
    var (m0, a0) := Reached(garbage, before);
    ReachedInv(garbage, before);
    StillWriting(garbage, before, call, during);
    if during == [] {
      assert before + [call] + during == before + [call];
      ReachedThen(garbage, before, call);
      ProbeStarts(m0, a0, end);
    } else {
      var shorter := during[..|during| - 1];
      var e := during[|during| - 1];
      WritingBefore(garbage, before, call, during);
      ProbeUnderWay(garbage, before, end, shorter);
      StillWriting(garbage, before, call, shorter);
      assert before + [call] + during == before + [call] + shorter + [e];
      ReachedThen(garbage, before + [call] + shorter, e);
      var (m, a) := Reached(garbage, before + [call] + shorter);
      ReachedInv(garbage, before + [call] + shorter);
      InvInUse(m, a);
      FlagStays(m, a, e);
      if e == StepWriter {
        NextIsWriterNext(m, a);
        ProbeStep(m, a, Count(shorter, StepWriter));
      } else {
        OthersLeaveWriter(m, a, e);
        SameProbing(a, Next(m, a, e).1, Count(shorter, StepWriter));
      }
    }
  }

  lemma SameProbing(a: Agents, a': Agents, steps: nat)
    requires Probing(a, steps) && a'.writer == a.writer
    ensures Probing(a', steps)
  {
  }

  /**
   A write poll answers at least the space there was when it was called; it is pending or finds the
   pipe closed only if there was none. It takes at most three steps.
   */
  lemma WritePollIsAnswered(garbage: Mem, before: seq<Event>, end: nat, during: seq<Event>)
    requires 0 < |garbage.data| <= PipePool.PIPE_POOL_SIZE
    requires Writing(garbage, before, CallPollWrite(end), during)
    requires Reached(garbage, before + [CallPollWrite(end)] + during + [StepWriter]).1.writer == WriterIdle
    ensures var (m0, a0) := Reached(garbage, before);
            var (m, a) := Reached(garbage, before + [CallPollWrite(end)] + during + [StepWriter]);
            && Placed(m0, a0) && a.accepted == a0.accepted && Count(during + [StepWriter], StepWriter) <= 3
            && match a.wrote
               case Writable(n) => n > 0 && Free(m0) <= n
               case BrokenPipe => Free(m0) == 0 && m.closed != 0
               case WritePending => Free(m0) == 0 && m0.closed == 0
               case _ => false
  {
    hide Reached, Next, Probing, Inv, Writing;
    var all := before + [CallPollWrite(end)] + during;
    var (m0, a0) := Reached(garbage, before);
    var (m, a) := Reached(garbage, all);
    WritingInUse(garbage, before, CallPollWrite(end), during);
    ProbeUnderWay(garbage, before, end, during);
    ReachedThen(garbage, all, StepWriter);
    ReachedInv(garbage, all);
    InvInUse(m, a);
    NextIsWriterNext(m, a);
    FlagStays(m, a, StepWriter);
    FlagStaysAll(garbage, before, [CallPollWrite(end)] + during);
    assert before + ([CallPollWrite(end)] + during) == all;
    ProbeStep(m, a, Count(during, StepWriter));
    assert (during + [StepWriter])[..|during|] == during;
  }

  lemma WritingInUse(garbage: Mem, before: seq<Event>, call: Event, during: seq<Event>)
    requires 0 < |garbage.data| <= PipePool.PIPE_POOL_SIZE && Writing(garbage, before, call, during)
    ensures Reached(garbage, before).1.init == 5
  {
  }
}
