/** The transmit-end reference count of a pipe, over every interleaving of attaches and drops. */
module PipeEnds {
  import opened Words
  import opened PipeMemory
  import opened PipeProtocol
  import opened PipeSafety
  import PipePool

  // ---- The table of ends on its own ----

  lemma {:induction false} SubsetSize(small: set<nat>, large: set<nat>)
    requires small <= large
    ensures |small| <= |large|
  {
    if small != {} {
      var x :| x in small;
      SubsetSize(small - {x}, large - {x});
    }
  }

  lemma CountFits(ends: map<nat, End>)
    ensures |CountedEnds(ends)| <= |ends|
  {
    SubsetSize(CountedEnds(ends), ends.Keys);
  }

  /** Changing one end that neither was nor becomes a finished closer leaves the closed flag's meaning alone. */
  lemma SameFlag(ends: map<nat, End>, end: nat, to: End)
    requires (end !in ends || ends[end] != Gone(true)) && to != Gone(true)
    ensures DropClosed(ends[end := to]) <==> DropClosed(ends)
  {
    var ends' := ends[end := to];
    if DropClosed(ends) {
      var e :| e in ends && ends[e] == Gone(true);
      assert e in ends' && ends'[e] == Gone(true);
    }
  }

  lemma AttachTally(ends: map<nat, End>, count: nat, via: nat, end: nat, replace: bool)
    requires Tallied(ends, count) && end !in ends && |ends| < MAX_ENDS
    ensures Tallied(ends[end := Attaching(via, replace)], count)
  {
    var ends' := ends[end := Attaching(via, replace)];
    assert CountedEnds(ends') == CountedEnds(ends);
    assert Closers(ends') == Closers(ends);
    assert ends'.Keys == ends.Keys + {end};
  }

  lemma DropTally(ends: map<nat, End>, count: nat, end: nat)
    requires Tallied(ends, count) && end in ends && ends[end].Live?
    ensures Tallied(ends[end := Dropping], count)
  {
    var ends' := ends[end := Dropping];
    assert CountedEnds(ends') == CountedEnds(ends);
    assert Closers(ends') == Closers(ends);
    assert ends'.Keys == ends.Keys;
  }

  lemma ArriveTally(ends: map<nat, End>, count: nat, end: nat)
    requires Tallied(ends, count) && end in ends && ends[end].Attaching?
    requires CountedEnds(ends) != {}
    ensures Tallied(ends[end := Live], count + 1)
  {
    var ends' := ends[end := Live];
    assert CountedEnds(ends') == CountedEnds(ends) + {end};
    assert Closers(ends') == Closers(ends);
    assert ends'.Keys == ends.Keys;
  }

  /** A drop finds the previous count to be one exactly when it holds the last reference. */
  lemma LeaveTally(ends: map<nat, End>, count: nat, end: nat)
    requires Tallied(ends, count) && end in ends && ends[end].Dropping?
    ensures count >= 1 && (count == 1 <==> CountedEnds(ends) == {end})
    ensures Tallied(ends[end := if count == 1 then Closing else Gone(false)], count - 1)
  {
    var counted := CountedEnds(ends);
    assert end in counted && |counted - {end}| == |counted| - 1;
    assert counted == counted - {end} + {end};
    var ends' := ends[end := if count == 1 then Closing else Gone(false)];
    assert CountedEnds(ends') == counted - {end};
    assert Closers(ends) == {};
    assert Closers(ends') == if count == 1 then {end} else {};
    assert ends'.Keys == ends.Keys;
  }

  lemma CloseTally(ends: map<nat, End>, count: nat, end: nat)
    requires Tallied(ends, count) && end in ends && ends[end].Closing?
    ensures Tallied(ends[end := Gone(true)], count)
  {
    var ends' := ends[end := Gone(true)];
    assert CountedEnds(ends') == CountedEnds(ends);
    assert Closers(ends') == Closers(ends);
    assert ends'.Keys == ends.Keys;
  }

  lemma AttachBorrow(ends: map<nat, End>, busy: bool, writerEnd: nat, via: nat, end: nat, replace: bool)
    requires Borrowed(ends, busy, writerEnd) && end !in ends
    requires via in ends && ends[via].Live? && !(busy && writerEnd == via)
    requires forall e :: e in ends && ends[e].Attaching? ==> ends[e].via != via
    ensures Borrowed(ends[end := Attaching(via, replace)], busy, writerEnd)
  {
  }

  lemma DropBorrow(ends: map<nat, End>, busy: bool, writerEnd: nat, end: nat)
    requires Borrowed(ends, busy, writerEnd)
    requires end in ends && ends[end].Live? && !(busy && writerEnd == end)
    requires forall e :: e in ends && ends[e].Attaching? ==> ends[e].via != end
    ensures Borrowed(ends[end := Dropping], busy, writerEnd)
  {
  }

  lemma ArriveBorrow(ends: map<nat, End>, busy: bool, writerEnd: nat, end: nat)
    requires Borrowed(ends, busy, writerEnd) && end in ends && ends[end].Attaching?
    ensures Borrowed(ends[end := Live], busy, writerEnd)
    ensures var via := ends[end].via; !(busy && writerEnd == via) && via != end
    ensures var arrived := ends[end := Live];
            forall e :: e in arrived && arrived[e].Attaching? ==> arrived[e].via != ends[end].via
  {
  }

  lemma LeaveBorrow(ends: map<nat, End>, busy: bool, writerEnd: nat, end: nat, to: End)
    requires Borrowed(ends, busy, writerEnd)
    requires end in ends && (ends[end].Dropping? || ends[end].Closing?) && (to.Closing? || to.Gone?)
    ensures Borrowed(ends[end := to], busy, writerEnd)
  {
  }

  // ---- The steps of the ends ----

  /** Ring-side facts are untouched by a step that changes only the ends, the count and the closed flag. */
  lemma EndsOnlyKeepsInv(m: Mem, a: Agents, m': Mem, a': Agents)
    requires Inv(m, a) && a.init == 5 && Shaped(a')
    requires m' == m.(closed := m'.closed, txCount := m'.txCount)
    requires a' == a.(ends := a'.ends)
    requires Tallied(a'.ends, m'.txCount) && Borrowed(a'.ends, a.writer != WriterIdle, a.writerEnd)
    requires m'.closed != 0 <==> a.shut || DropClosed(a'.ends)
    ensures Inv(m', a')
  {
  }

  lemma AttachEffect(m: Mem, a: Agents, via: nat, end: nat, replace: bool)
    requires Shaped(a) && a.init == 5
    ensures Next(m, a, Attach(via, end, replace)) ==
            if Unborrowed(a, via) && end !in a.ends && |a.ends| < MAX_ENDS
            then (m, a.(ends := a.ends[end := Attaching(via, replace)])) else (m, a)
  {
  }

  lemma AttachKeepsInv(m: Mem, a: Agents, via: nat, end: nat, replace: bool)
    requires Inv(m, a) && a.init == 5
    ensures Inv(Next(m, a, Attach(via, end, replace)).0, Next(m, a, Attach(via, end, replace)).1)
  {
    AttachEffect(m, a, via, end, replace);
    if Unborrowed(a, via) && end !in a.ends && |a.ends| < MAX_ENDS {
      AttachTally(a.ends, m.txCount, via, end, replace);
      AttachBorrow(a.ends, a.writer != WriterIdle, a.writerEnd, via, end, replace);
      SameFlag(a.ends, end, Attaching(via, replace));
      EndsOnlyKeepsInv(m, a, m, a.(ends := a.ends[end := Attaching(via, replace)]));
    }
  }

  lemma DropEffect(m: Mem, a: Agents, end: nat)
    requires Shaped(a) && a.init == 5
    ensures Next(m, a, Drop(end)) == if Unborrowed(a, end) then (m, a.(ends := a.ends[end := Dropping])) else (m, a)
  {
  }

  lemma DropKeepsInv(m: Mem, a: Agents, end: nat)
    requires Inv(m, a) && a.init == 5
    ensures Inv(Next(m, a, Drop(end)).0, Next(m, a, Drop(end)).1)
  {
    DropEffect(m, a, end);
    if Unborrowed(a, end) {
      DropTally(a.ends, m.txCount, end);
      DropBorrow(a.ends, a.writer != WriterIdle, a.writerEnd, end);
      SameFlag(a.ends, end, Dropping);
      EndsOnlyKeepsInv(m, a, m, a.(ends := a.ends[end := Dropping]));
    }
  }

  lemma ArriveEffect(m: Mem, a: Agents, end: nat)
    requires Shaped(a) && a.init == 5 && end in a.ends && a.ends[end].Attaching? && m.txCount < 0xFFFF_FFFF
    ensures Next(m, a, StepEnd(end)) ==
            (m.(txCount := m.txCount + 1),
             a.(ends := var arrived := a.ends[end := Live];
                        if a.ends[end].replace then arrived[a.ends[end].via := Dropping] else arrived))
  {
  }

  lemma ArriveKeepsInv(m: Mem, a: Agents, end: nat)
    requires Inv(m, a) && a.init == 5 && end in a.ends && a.ends[end].Attaching?
    ensures Inv(Next(m, a, StepEnd(end)).0, Next(m, a, StepEnd(end)).1)
    ensures Next(m, a, StepEnd(end)).0.closed == m.closed
  {
    var Attaching(via, replace) := a.ends[end];
    var busy := a.writer != WriterIdle;
    CountFits(a.ends);
    ArriveEffect(m, a, end);
    assert via in CountedEnds(a.ends);
    ArriveTally(a.ends, m.txCount, end);
    ArriveBorrow(a.ends, busy, a.writerEnd, end);
    SameFlag(a.ends, end, Live);
    if replace {
      var arrived := a.ends[end := Live];
      DropTally(arrived, m.txCount + 1, via);
      DropBorrow(arrived, busy, a.writerEnd, via);
      SameFlag(arrived, via, Dropping);
    }
    EndsOnlyKeepsInv(m, a, Next(m, a, StepEnd(end)).0, Next(m, a, StepEnd(end)).1);
  }

  lemma LeaveEffect(m: Mem, a: Agents, end: nat)
    requires Shaped(a) && a.init == 5 && end in a.ends && a.ends[end].Dropping? && m.txCount > 0
    ensures Next(m, a, StepEnd(end)) ==
            (m.(txCount := m.txCount - 1), a.(ends := a.ends[end := if m.txCount == 1 then Closing else Gone(false)]))
  {
  }

  lemma LeaveKeepsInv(m: Mem, a: Agents, end: nat)
    requires Inv(m, a) && a.init == 5 && end in a.ends && a.ends[end].Dropping?
    ensures Inv(Next(m, a, StepEnd(end)).0, Next(m, a, StepEnd(end)).1)
  {
    LeaveTally(a.ends, m.txCount, end);
    LeaveEffect(m, a, end);
    SameFlag(a.ends, end, if m.txCount == 1 then Closing else Gone(false));
    LeaveBorrow(a.ends, a.writer != WriterIdle, a.writerEnd, end, if m.txCount == 1 then Closing else Gone(false));
    EndsOnlyKeepsInv(m, a, Next(m, a, StepEnd(end)).0, Next(m, a, StepEnd(end)).1);
  }

  lemma CloseKeepsInv(m: Mem, a: Agents, end: nat)
    requires Inv(m, a) && a.init == 5 && end in a.ends && a.ends[end].Closing?
    ensures Inv(Next(m, a, StepEnd(end)).0, Next(m, a, StepEnd(end)).1)
  {
    var (m', a') := Next(m, a, StepEnd(end));
    CloseTally(a.ends, m.txCount, end);
    LeaveBorrow(a.ends, a.writer != WriterIdle, a.writerEnd, end, Gone(true));
    assert a'.ends[end] == Gone(true);
    EndsOnlyKeepsInv(m, a, m', a');
  }

  lemma StepEndKeepsInv(m: Mem, a: Agents, end: nat)
    requires Inv(m, a) && a.init == 5
    ensures Inv(Next(m, a, StepEnd(end)).0, Next(m, a, StepEnd(end)).1)
  {
    if end in a.ends && a.ends[end].Attaching? {
      ArriveKeepsInv(m, a, end);
    } else if end in a.ends && a.ends[end].Dropping? {
      LeaveKeepsInv(m, a, end);
    } else if end in a.ends && a.ends[end].Closing? {
      CloseKeepsInv(m, a, end);
    } else {
      assert Next(m, a, StepEnd(end)) == (m, a);
    }
  }

  /** Every step of every program keeps the invariant. */
  lemma NextKeepsInv(m: Mem, a: Agents, e: Event)
    requires Inv(m, a)
    ensures Inv(Next(m, a, e).0, Next(m, a, e).1)
  {
    if e.Initialize? {
      InitializeKeepsInv(m, a);
    } else if a.init < 5 {
      assert Next(m, a, e) == (m, a);
    } else {
      match e
      case CallWrite(_, _) => WriterCallsKeepInv(m, a, e);
      case CallPollWrite(_) => WriterCallsKeepInv(m, a, e);
      case StepWriter => WriterStepKeepsInv(m, a);
      case CallRead(_, _) => ReaderCallsKeepInv(m, a, e);
      case CallPollRead => ReaderCallsKeepInv(m, a, e);
      case StepReader => ReaderStepKeepsInv(m, a);
      case Shut => ShutKeepsInv(m, a);
      case Attach(via, end, replace) => AttachKeepsInv(m, a, via, end, replace);
      case Drop(end) => DropKeepsInv(m, a, end);
      case StepEnd(end) => StepEndKeepsInv(m, a, end);
      case Initialize =>
    }
  }

  lemma {:induction false} ReachedInv(garbage: Mem, events: seq<Event>)
    requires 0 < |garbage.data| <= PipePool.PIPE_POOL_SIZE
    ensures Inv(Reached(garbage, events).0, Reached(garbage, events).1)
  {
    if events != [] {
      var before := events[..|events| - 1];
      ReachedInv(garbage, before);
      NextKeepsInv(Reached(garbage, before).0, Reached(garbage, before).1, events[|events| - 1]);
    }
  }

  lemma ReachedThen(garbage: Mem, events: seq<Event>, e: Event)
    requires 0 < |garbage.data| <= PipePool.PIPE_POOL_SIZE
    ensures Reached(garbage, events + [e]) == Next(Reached(garbage, events).0, Reached(garbage, events).1, e)
  {
    assert (events + [e])[..|events + [e]| - 1] == events;
  }
}
