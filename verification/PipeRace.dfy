/** The one interleaving family in which end of file comes early, as a concrete run. */
module PipeRace {
  import opened Words
  import opened PipeMemory
  import opened PipeProtocol
  import opened PipeEnds

  /** A pipe with two data bytes, whose region held zeros. */
  const Garbage: Mem := Mem(0, 0, 0, 0, 0, [0, 0])

  ghost const Opened: Agents := NewAgents(2).(init := 5)
  ghost const Reading: Agents := Opened.(reader := AvailRead(Take(1, false), 0, 0))
  ghost const Writing: Agents := Reading.(room := 1)
  ghost const Written: Agents := Reading.(accepted := [7], commits := 1, wrote := Wrote(1))

  /** Extend a run whose end state is known by a step whose outcome is known. */
  lemma Move(events: seq<Event>, m: Mem, a: Agents, e: Event, m': Mem, a': Agents)
    requires Reached(Garbage, events) == (m, a) && Shaped(a) && Next(m, a, e) == (m', a')
    ensures Reached(Garbage, events + [e]) == (m', a')
  {
    ReachedThen(Garbage, events, e);
  }

  lemma Open() returns (events: seq<Event>)
    ensures Reached(Garbage, events) == (Mem(0, 0, 0, 0, 1, [0, 0]), Opened)
  {
    var a := NewAgents(2);
    events := [];
    Move(events, Garbage, a, Initialize, Garbage, a.(init := 1));
    hide Reached;
    events := events + [Initialize];
    Move(events, Garbage, a.(init := 1), Initialize, Garbage, a.(init := 2));
    events := events + [Initialize];
    Move(events, Garbage, a.(init := 2), Initialize, Garbage, a.(init := 3));
    events := events + [Initialize];
    Move(events, Garbage, a.(init := 3), Initialize, Garbage, a.(init := 4));
    events := events + [Initialize];
    Move(events, Garbage, a.(init := 4), Initialize, Mem(0, 0, 0, 0, 1, [0, 0]), Opened);
    events := events + [Initialize];
  }

  /** A read loads write_pos and stops there. */
  lemma StartRead() returns (events: seq<Event>)
    ensures Reached(Garbage, events) == (Mem(0, 0, 0, 0, 1, [0, 0]), Reading)
  {
    hide Reached;
    var m := Mem(0, 0, 0, 0, 1, [0, 0]);
    events := Open();
    Move(events, m, Opened, CallRead(1, false), m, Opened.(reader := AvailWrite(Take(1, false))));
    events := events + [CallRead(1, false)];
    Move(events, m, Opened.(reader := AvailWrite(Take(1, false))), StepReader, m, Reading);
    events := events + [StepReader];
  }

  lemma StartWrite() returns (events: seq<Event>)
    ensures Reached(Garbage, events) == (Mem(0, 0, 0, 0, 1, [0, 0]), Writing.(writer := LoadRead(Put([7]), 0)))
  {
    hide Reached;
    var m := Mem(0, 0, 0, 0, 1, [0, 0]);
    events := StartRead();
    Move(events, m, Reading, CallWrite(0, [7]), m, Writing.(writer := CheckClosed([7])));
    events := events + [CallWrite(0, [7])];
    Move(events, m, Writing.(writer := CheckClosed([7])), StepWriter, m, Writing.(writer := LoadWrite(Put([7]))));
    events := events + [StepWriter];
    Move(events, m, Writing.(writer := LoadWrite(Put([7]))), StepWriter, m, Writing.(writer := LoadRead(Put([7]), 0)));
    events := events + [StepWriter];
  }

  /** A whole write goes by. */
  lemma FinishWrite() returns (events: seq<Event>)
    ensures Reached(Garbage, events) == (Mem(1, 0, 0, 0, 1, [7, 0]), Written)
  {
    hide Reached;
    var m := Mem(0, 0, 0, 0, 1, [0, 0]);
    events := StartWrite();
    assert [0, 0][0 := 7] == [7, 0] && [7][..1] == [7] && [] + [7] == [7];
    Move(events, m, Writing.(writer := LoadRead(Put([7]), 0)), StepWriter, m, Writing.(writer := Reload([7], 1)));
    events := events + [StepWriter];
    Move(events, m, Writing.(writer := Reload([7], 1)), StepWriter, m, Writing.(writer := Fill([7], 0, 1, 0)));
    events := events + [StepWriter];
    Move(events, m, Writing.(writer := Fill([7], 0, 1, 0)), StepWriter, m.(data := [7, 0]), Writing.(writer := Fill([7], 0, 1, 1)));
    events := events + [StepWriter];
    Move(events, m.(data := [7, 0]), Writing.(writer := Fill([7], 0, 1, 1)), StepWriter, Mem(1, 0, 0, 0, 1, [7, 0]), Written);
    events := events + [StepWriter];
  }

  /** The last transmit end is dropped: it finds itself the last one ... */
  lemma DropWriter() returns (events: seq<Event>)
    ensures Reached(Garbage, events) == (Mem(1, 0, 0, 0, 0, [7, 0]), Written.(ends := map[0 := Closing]))
  {
    hide Reached;
    var m := Mem(1, 0, 0, 0, 1, [7, 0]);
    events := FinishWrite();
    assert map[0 := Live][0 := Dropping] == map[0 := Dropping];
    assert map[0 := Dropping][0 := Closing] == map[0 := Closing];
    Move(events, m, Written, Drop(0), m, Written.(ends := map[0 := Dropping]));
    events := events + [Drop(0)];
    Move(events, m, Written.(ends := map[0 := Dropping]), StepEnd(0), m.(txCount := 0), Written.(ends := map[0 := Closing]));
    events := events + [StepEnd(0)];
  }

  /** ... and stores the closed flag. */
  lemma CloseWriter() returns (events: seq<Event>)
    ensures Reached(Garbage, events) == (Mem(1, 0, 1, 0, 0, [7, 0]), Written.(ends := map[0 := Gone(true)]))
  {
    hide Reached;
    var m := Mem(1, 0, 0, 0, 0, [7, 0]);
    events := DropWriter();
    assert map[0 := Closing][0 := Gone(true)] == map[0 := Gone(true)];
    Move(events, m, Written.(ends := map[0 := Closing]), StepEnd(0), m.(closed := 1), Written.(ends := map[0 := Gone(true)]));
    events := events + [StepEnd(0)];
  }

  /** A read of one byte has answered end of file although the only byte written was never delivered. */
  ghost predicate MissedAByte(m: Mem, a: Agents) {
    a.took == Eof && a.reader == ReaderIdle && a.accepted == [7] && a.delivered == [] && m.closed == 1
  }

  /**
   Under single-operation interleaving end of file is not final: the read loads write_pos,
   the whole write and the last drop go by, and the read then loads read_pos and closed.
   */
  lemma EofCanMissAPublishedByte()
    ensures exists events :: MissedAByte(Reached(Garbage, events).0, Reached(Garbage, events).1)
  {
    hide Reached;
    var m := Mem(1, 0, 1, 0, 0, [7, 0]);
    var a := Written.(ends := map[0 := Gone(true)]);
    var events := CloseWriter();
    Move(events, m, a, StepReader, m, a.(reader := EmptyClosed(Take(1, false), 0)));
    events := events + [StepReader];
    Move(events, m, a.(reader := EmptyClosed(Take(1, false), 0)), StepReader, m, a.(reader := ReaderIdle, took := Eof));
    events := events + [StepReader];
    assert MissedAByte(Reached(Garbage, events).0, Reached(Garbage, events).1);
  }
}
