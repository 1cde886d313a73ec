/** The scheduler's message loop and its shutdown (src/tasks/scheduler.rs): Close drains the channel before the state is dropped. */
module Drain {

  /** Executing a message may fail, and may send further messages to the same channel. */
  datatype Msg =
    | Close
    | Work(id: nat, fails: bool, sends: seq<Msg>)

  function NonClose(ms: seq<Msg>): seq<Msg> {
    if ms == [] then []
    else if ms[0].Close? then NonClose(ms[1..])
    else [ms[0]] + NonClose(ms[1..])
  }

  /** How many messages a channel still causes to be handled. */
  function Weight(ms: seq<Msg>): nat {
    if ms == [] then 0 else 1 + (if ms[0].Work? then Weight(ms[0].sends) else 0) + Weight(ms[1..])
  }

  /** How often work `id` appears in a channel or in anything its messages send in turn. */
  function Occurrences(ms: seq<Msg>, id: nat): nat {
    if ms == [] then 0
    else (if ms[0].Work? then (if ms[0].id == id then 1 else 0) + Occurrences(ms[0].sends, id) else 0) + Occurrences(ms[1..], id)
  }

  /** How often `id` was executed. */
  function Executions(executed: seq<Msg>, id: nat): nat {
    if executed == [] then 0
    else (if executed[0].Work? && executed[0].id == id then 1 else 0) + Executions(executed[1..], id)
  }

  function Flatten(batches: seq<seq<Msg>>): seq<Msg> {
    if batches == [] then [] else Flatten(batches[..|batches| - 1]) + batches[|batches| - 1]
  }

  lemma {:induction false} NonCloseAppend(a: seq<Msg>, b: seq<Msg>)
    ensures NonClose(a + b) == NonClose(a) + NonClose(b)
  {
    if a == [] {
      assert a + b == b;
    } else {
      NonCloseAppend(a[1..], b);
      assert (a + b)[1..] == a[1..] + b;
    }
  }

  lemma {:induction false} WeightAppend(a: seq<Msg>, b: seq<Msg>)
    ensures Weight(a + b) == Weight(a) + Weight(b)
  {
    if a == [] {
      assert a + b == b;
    } else {
      WeightAppend(a[1..], b);
      assert (a + b)[1..] == a[1..] + b;
    }
  }

  lemma {:induction false} OccurrencesAppend(a: seq<Msg>, b: seq<Msg>, id: nat)
    ensures Occurrences(a + b, id) == Occurrences(a, id) + Occurrences(b, id)
  {
    if a == [] {
      assert a + b == b;
    } else {
      OccurrencesAppend(a[1..], b, id);
      assert (a + b)[1..] == a[1..] + b;
    }
  }

  lemma {:induction false} ExecutionsAppend(a: seq<Msg>, m: Msg, id: nat)
    ensures Executions(a + [m], id) == Executions(a, id) + (if m.Work? && m.id == id then 1 else 0)
  {
    if a == [] {
      assert a + [m] == [m];
    } else {
      ExecutionsAppend(a[1..], m, id);
      assert (a + [m])[1..] == a[1..] + [m];
    }
  }

  /** Everything that came from outside or from other work is executed or still to come, once each. */
  ghost predicate Accounted(arrived: seq<Msg>, executed: seq<Msg>, channel: seq<Msg>) {
    forall id :: Executions(executed, id) + Occurrences(channel, id) == Occurrences(arrived, id)
  }

  lemma SendAccounted(arrived: seq<Msg>, executed: seq<Msg>, channel: seq<Msg>, batch: seq<Msg>)
    requires Accounted(arrived, executed, channel)
    ensures Accounted(arrived + batch, executed, channel + batch)
  {
    forall id
      ensures Executions(executed, id) + Occurrences(channel + batch, id) == Occurrences(arrived + batch, id)
    {
      OccurrencesAppend(channel, batch, id);
      OccurrencesAppend(arrived, batch, id);
    }
  }

  lemma StepAccounted(arrived: seq<Msg>, executed: seq<Msg>, channel: seq<Msg>)
    requires Accounted(arrived, executed, channel) && channel != []
    ensures channel[0].Close? ==> Accounted(arrived, executed, channel[1..])
    ensures channel[0].Work? ==> Accounted(arrived, executed + [channel[0]], channel[1..] + channel[0].sends)
  {
    var m := channel[0];
    if m.Work? {
      forall id
        ensures Executions(executed + [m], id) + Occurrences(channel[1..] + m.sends, id) == Occurrences(arrived, id)
      {
        assert Executions(executed, id) + Occurrences(channel, id) == Occurrences(arrived, id);
        ExecutionsAppend(executed, m, id);
        OccurrencesAppend(channel[1..], m.sends, id);
      }
    } else {
      forall id
        ensures Executions(executed, id) + Occurrences(channel[1..], id) == Occurrences(arrived, id)
      {
        assert Executions(executed, id) + Occurrences(channel, id) == Occurrences(arrived, id);
      }
    }
  }

  /** Messages go in at the back of the channel and come out at the front; `taken` records those that came out. */
  class MessageLoop {
    var channel: seq<Msg>
    var executed: seq<Msg>
    ghost var taken: seq<Msg>

    /** Every message sent so far, in order. */
    ghost function Sent(): seq<Msg>
      reads this
    {
      taken + channel
    }

    constructor ()
      ensures Sent() == executed == []
    {
      channel, executed, taken := [], [], [];
    }

    method Send(batch: seq<Msg>)
      modifies this`channel
      ensures channel == old(channel) + batch && Sent() == old(Sent()) + batch
    {
      channel := channel + batch;
    }

    /** Take the front message out and execute it, unless it is a Close; a failure is only logged. */
    method Step() returns (msg: Msg)
      requires channel != []
      modifies this
      ensures msg == old(channel[0]) && taken == old(taken) + [msg]
      ensures msg.Close? ==> channel == old(channel)[1..] && executed == old(executed)
      ensures msg.Work? ==> channel == old(channel)[1..] + msg.sends && executed == old(executed) + [msg]
      ensures executed == old(executed) + NonClose([msg])
      ensures Weight(channel) < Weight(old(channel)) && old(Sent()) <= Sent()
    {
      msg := channel[0];
      channel := channel[1..];
      taken := taken + [msg];
      assert Sent() == old(Sent());
      if msg.Work? {
        WeightAppend(channel, msg.sends);
        executed := executed + [msg];
        Send(msg.sends);
      }
    }

    /** Close: `try_recv` until the channel is empty. */
    method DrainChannel(ghost arrived: seq<Msg>)
      requires executed == NonClose(taken) && Accounted(arrived, executed, channel)
      modifies this
      ensures executed == NonClose(taken) && Accounted(arrived, executed, channel)
      ensures channel == [] && old(Sent()) <= taken && old(taken) <= taken
    {
      hide NonClose, Accounted;
      while channel != []
        invariant executed == NonClose(taken) && Accounted(arrived, executed, channel)
        invariant old(Sent()) <= Sent() && old(taken) <= taken
        decreases Weight(channel)
      {
        StepAccounted(arrived, executed, channel);
        ghost var before := taken;
        var msg := Step();
        NonCloseAppend(before, [msg]);
      }
    }

    /**
     The loop, given what other tasks send during each `recv().await`. Once it has closed, every
     message sent, before or after the Close, has been taken out and, failing or not, executed in
     the order sent, together with everything those messages sent in turn, once each. Until then,
     it has executed exactly the messages it took out.
     */
    method Run(arrivals: seq<seq<Msg>>) returns (closed: bool, seen: nat)
      requires Sent() == executed == []
      modifies this
      ensures seen <= |arrivals| && channel == [] && (!closed ==> seen == |arrivals|)
      ensures closed <==> Close in Sent()
      ensures executed == NonClose(Sent())
      ensures forall id :: Executions(executed, id) == Occurrences(Flatten(arrivals[..seen]), id)
    {
      hide NonClose, Accounted, Occurrences, Executions, Flatten, Weight;
      seen := 0;
      StartAccounted(arrivals, executed, channel);
      while seen < |arrivals| || channel != []
        invariant seen <= |arrivals|
        invariant executed == NonClose(taken) && Close !in taken
        invariant Accounted(Flatten(arrivals[..seen]), executed, channel)
        decreases |arrivals| - seen, Weight(channel)
      {
        if seen < |arrivals| {
          FlattenNext(arrivals, seen);
          SendAccounted(Flatten(arrivals[..seen]), executed, channel, arrivals[seen]);
          Send(arrivals[seen]);
          seen := seen + 1;
        }
        if channel != [] {
          StepAccounted(Flatten(arrivals[..seen]), executed, channel);
          ghost var before := taken;
          var msg := Step();
          NonCloseAppend(before, [msg]);
          if msg.Close? {
            assert taken[|before|] == Close;
            DrainChannel(Flatten(arrivals[..seen]));
            AllAccounted(Flatten(arrivals[..seen]), executed);
            assert Sent() == taken && Close in taken;
            return true, seen;
          }
        }
      }
      AllAccounted(Flatten(arrivals[..seen]), executed);
      assert Sent() == taken;
      closed := false;
    }
  }

  lemma StartAccounted(arrivals: seq<seq<Msg>>, executed: seq<Msg>, channel: seq<Msg>)
    requires executed == channel == []
    ensures Accounted(Flatten(arrivals[..0]), executed, channel) && NonClose(executed) == []
  {
  }

  lemma FlattenNext(arrivals: seq<seq<Msg>>, n: nat)
    requires n < |arrivals|
    ensures Flatten(arrivals[..n + 1]) == Flatten(arrivals[..n]) + arrivals[n]
  {
    assert arrivals[..n + 1][..n] == arrivals[..n];
  }

  lemma AllAccounted(arrived: seq<Msg>, executed: seq<Msg>)
    requires Accounted(arrived, executed, [])
    ensures forall id :: Executions(executed, id) == Occurrences(arrived, id)
  {
    assert forall id :: Executions(executed, id) + Occurrences([], id) == Occurrences(arrived, id);
  }
}
