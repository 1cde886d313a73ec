/** The Node.js worker wrapper (src-js/node.ts): creation one at a time, and messages sent before and after it. */
module NodeWorkers {

  type Id = nat
  type Message = nat

  // ---- The module's creation queue ----

  /**
   `sleeping` counts runs of the processing loop suspended at their `await`, `timers` its scheduled
   starts. `created` records the real workers in order; `threw` that creating one failed.
   */
  datatype Creation = Creation(
    queue: seq<Id>, isCreating: bool, sleeping: nat, timers: nat, created: seq<Id>, threw: bool)

  /** The loop's test: suspend before the next request, or leave. */
  function LoopTest(c: Creation): Creation {
    if c.queue != [] then c.(sleeping := c.sleeping + 1) else c.(isCreating := false)
  }

  /** A wrapper's constructor queues its request and schedules a start of the loop. */
  function Requested(c: Creation, id: Id): Creation { c.(queue := c.queue + [id], timers := c.timers + 1) }

  /** A scheduled start runs: nothing if a loop is already active. */
  function Started(c: Creation): Creation
    requires c.timers > 0
  {
    var fired := c.(timers := c.timers - 1);
    if c.isCreating then fired else LoopTest(fired.(isCreating := true))
  }

  /** A suspended loop resumes and creates the next worker. If that throws, the loop is gone and the flag stays. */
  function Resumed(c: Creation, ok: bool): Creation
    requires c.sleeping > 0 && c.queue != []
  {
    var shifted := c.(sleeping := c.sleeping - 1, queue := c.queue[1..]);
    if ok then LoopTest(shifted.(created := c.created + [c.queue[0]])) else shifted.(threw := true)
  }

  /** The ids `from` to `to - 1`, in order. */
  function Range(from: nat, to: nat): seq<Id>
    requires from <= to
  {
    seq(to - from, i requires 0 <= i => from + i)
  }

  /** One loop at most, awake only with work to do; and work to do only with a loop or a start pending. */
  predicate LoopOk(c: Creation) {
    && c.sleeping <= 1
    && (c.isCreating <==> c.sleeping == 1 || c.threw)
    && !(c.sleeping == 1 && c.threw)
    && (c.sleeping == 1 ==> c.queue != [])
    && (c.queue != [] && !c.isCreating ==> c.timers > 0)
  }

  /** Requests are served first come, first served; the one that threw is lost. */
  predicate OrderOk(c: Creation, n: nat) {
    var lost := if c.threw then 1 else 0;
    && |c.created| + lost <= n
    && c.created == Range(0, |c.created|)
    && c.queue == Range(|c.created| + lost, n)
  }

  class CreationQueue {
    var queue: seq<Id>
    var isCreating: bool
    var sleeping: nat
    var timers: nat
    var created: seq<Id>
    var threw: bool

    function AsCreation(): Creation
      reads this
    {
      Creation(queue, isCreating, sleeping, timers, created, threw)
    }

    constructor ()
      ensures AsCreation() == Creation([], false, 0, 0, [], false)
    {
      queue, isCreating, sleeping, timers, created, threw := [], false, 0, 0, [], false;
    }

    method Request(id: Id)
      modifies this
      ensures AsCreation() == Requested(old(AsCreation()), id)
    {
      queue := queue + [id];
      timers := timers + 1;
    }

    /** Up to the first `await`, or to the end. */
    method Start()
      requires timers > 0
      modifies this
      ensures AsCreation() == Started(old(AsCreation()))
      ensures queue == old(queue) && created == old(created)
      ensures old(isCreating) ==> isCreating && sleeping == old(sleeping)
      ensures !old(isCreating) ==> isCreating == (queue != []) && sleeping == old(sleeping) + (if queue != [] then 1 else 0)
      ensures old(LoopOk(AsCreation())) ==> LoopOk(AsCreation())
      ensures forall n :: old(OrderOk(AsCreation(), n)) ==> OrderOk(AsCreation(), n)
    {
      timers := timers - 1;
      if isCreating {
        return;
      }
      isCreating := true;
      ContinueLoop();
    }

    method ContinueLoop()
      modifies this
      ensures AsCreation() == LoopTest(old(AsCreation()))
    {
      if |queue| > 0 {
        sleeping := sleeping + 1;
        return;
      }
      isCreating := false;
    }

    /** From the `await` up to the next one, or to the end. */
    method Resume(ok: bool)
      requires sleeping > 0 && queue != []
      modifies this
      ensures AsCreation() == Resumed(old(AsCreation()), ok)
      ensures ok ==> created + queue == old(created + queue) && |created| == |old(created)| + 1
      ensures !ok ==> created == old(created) && isCreating == old(isCreating) && sleeping == old(sleeping) - 1
      ensures old(LoopOk(AsCreation())) ==> LoopOk(AsCreation())
      ensures forall n :: old(LoopOk(AsCreation()) && OrderOk(AsCreation(), n)) ==> OrderOk(AsCreation(), n)
    {
      forall n | LoopOk(AsCreation()) && OrderOk(AsCreation(), n) ensures OrderOk(Resumed(AsCreation(), ok), n) {
        CreationKeepsOrder(AsCreation(), n, ok);
      }
      sleeping := sleeping - 1;
      var request := queue[0];
      queue := queue[1..];
      if !ok {
        threw := true;
        return;
      }
      created := created + [request];
      ContinueLoop();
    }
  }

  // ---- One wrapper ----

  /** `posted` records what the real worker was sent, `asked` what the wrapper was asked to send. */
  datatype Wrapper = Wrapper(attached: bool, messageQueue: seq<Message>, posted: seq<Message>, asked: seq<Message>)

  function Posted(k: Wrapper, msg: Message): Wrapper {
    if k.attached then k.(posted := k.posted + [msg], asked := k.asked + [msg])
    else k.(messageQueue := k.messageQueue + [msg], asked := k.asked + [msg])
  }

  function Attached(k: Wrapper): Wrapper {
    k.(attached := true, posted := k.posted + k.messageQueue, messageQueue := [])
  }

  /** Nothing asked for is lost or out of order, and nothing waits once there is a worker. */
  predicate WrapperOk(k: Wrapper) {
    k.posted + k.messageQueue == k.asked && (k.attached ==> k.messageQueue == [])
  }

  class NodeWrapper {
    var attached: bool
    var messageQueue: seq<Message>
    var posted: seq<Message>
    ghost var asked: seq<Message>

    ghost function AsWrapper(): Wrapper
      reads this
    {
      Wrapper(attached, messageQueue, posted, asked)
    }

    constructor ()
      ensures AsWrapper() == Wrapper(false, [], [], [])
    {
      attached, messageQueue, posted, asked := false, [], [], [];
    }

    method PostMessage(msg: Message)
      modifies this
      ensures AsWrapper() == Posted(old(AsWrapper()), msg)
      ensures old(WrapperOk(AsWrapper())) ==> posted + messageQueue == old(posted + messageQueue) + [msg]
      ensures old(WrapperOk(AsWrapper())) ==> WrapperOk(AsWrapper())
      ensures attached == old(attached) && (if attached then messageQueue == old(messageQueue) else posted == old(posted))
    {
      asked := asked + [msg];
      if attached {
        posted := posted + [msg];
      } else {
        messageQueue := messageQueue + [msg];
      }
    }

    /** The promise's callback: adopt the worker and send what has been queued. */
    method OnReady()
      modifies this
      ensures AsWrapper() == Attached(old(AsWrapper()))
      ensures posted == old(posted + messageQueue) && messageQueue == []
      ensures old(WrapperOk(AsWrapper())) ==> WrapperOk(AsWrapper()) && posted == asked
    {
      attached := true;
      for i := 0 to |messageQueue|
        invariant attached && messageQueue == old(messageQueue) && asked == old(asked)
        invariant posted == old(posted) + messageQueue[..i]
      {
        posted := posted + [messageQueue[i]];
      }
      assert messageQueue[..|messageQueue|] == messageQueue;
      messageQueue := [];
    }
  }

  // ---- The system ----

  /** `wrappers[id]` is the wrapper constructed `id`-th; `resolved` holds those whose callback is due. */
  datatype World = World(creation: Creation, wrappers: seq<Wrapper>, resolved: set<Id>)

  datatype Event =
    | New
    | Timer
    | Wake(ok: bool)
    | Ready(id: Id)
    | Post(id: Id, msg: Message)

  const Empty: World := World(Creation([], false, 0, 0, [], false), [], {})

  function Apply(st: World, e: Event): World {
    match e
    case New =>
      st.(creation := Requested(st.creation, |st.wrappers|), wrappers := st.wrappers + [Wrapper(false, [], [], [])])
    case Timer => if st.creation.timers > 0 then st.(creation := Started(st.creation)) else st
    case Wake(ok) =>
      if st.creation.sleeping > 0 && st.creation.queue != [] then
        World(Resumed(st.creation, ok), st.wrappers, if ok then st.resolved + {st.creation.queue[0]} else st.resolved)
      else st
    case Ready(id) =>
      if id in st.resolved && id < |st.wrappers| then
        World(st.creation, st.wrappers[id := Attached(st.wrappers[id])], st.resolved - {id})
      else st
    case Post(id, msg) =>
      if id < |st.wrappers| then st.(wrappers := st.wrappers[id := Posted(st.wrappers[id], msg)]) else st
  }

  function Reached(events: seq<Event>): World {
    if events == [] then Empty else Apply(Reached(events[..|events| - 1]), events[|events| - 1])
  }

  // ---- The invariant ----

  predicate Inv(st: World) {
    && LoopOk(st.creation)
    && OrderOk(st.creation, |st.wrappers|)
    && (forall id :: 0 <= id < |st.wrappers| ==> WrapperOk(st.wrappers[id]))
    && (forall id :: 0 <= id < |st.wrappers| ==>
          ((st.wrappers[id].attached || id in st.resolved) <==> id < |st.creation.created|))
    && (forall id :: id in st.resolved ==> id < |st.creation.created|)
  }

  lemma CreationKeepsOrder(c: Creation, n: nat, ok: bool)
    requires LoopOk(c) && OrderOk(c, n)
    ensures OrderOk(Requested(c, n), n + 1)
    ensures c.sleeping > 0 ==> OrderOk(Resumed(c, ok), n) && c.queue[0] == |c.created|
  {
    var next := |c.created|;
    var lost := if c.threw then 1 else 0;
    assert Range(next + lost, n + 1) == Range(next + lost, n) + [n];
    if c.sleeping > 0 {
      assert c.queue[1..] == Range(next + 1, n);
      assert Range(0, next + 1) == Range(0, next) + [next];
    }
  }

  lemma ApplyKeepsInv(st: World, e: Event)
    requires Inv(st)
    ensures Inv(Apply(st, e))
  {
    hide Range;
    CreationKeepsOrder(st.creation, |st.wrappers|, if e.Wake? then e.ok else true);
  }

  lemma {:induction false} ReachedInv(events: seq<Event>)
    ensures Inv(Reached(events))
  {
    if events != [] {
      ReachedInv(events[..|events| - 1]);
      ApplyKeepsInv(Reached(events[..|events| - 1]), events[|events| - 1]);
    }
  }

  // ---- What it means ----

  /** Workers are created in the order their wrappers were constructed, with at most one creation in progress. */
  lemma CreatedInOrderOneAtATime(events: seq<Event>)
    ensures var c := Reached(events).creation;
            c.sleeping <= 1 && |c.created| <= |Reached(events).wrappers| && c.created == Range(0, |c.created|)
  {
    ReachedInv(events);
  }

  /** Nothing is stranded: when no timer and no loop is pending, every request was served, unless a creation threw. */
  lemma NothingStranded(events: seq<Event>)
    requires Reached(events).creation.timers == 0 && Reached(events).creation.sleeping == 0
    ensures var st := Reached(events);
            !st.creation.threw ==> st.creation.queue == [] && st.creation.created == Range(0, |st.wrappers|)
  {
    ReachedInv(events);
  }

  /** The in-progress flag is stuck, set with no loop to clear it, exactly when a creation has thrown. */
  lemma FlagStuckIffThrew(events: seq<Event>)
    ensures var c := Reached(events).creation;
            c.isCreating && c.sleeping == 0 <==> c.threw
  {
    ReachedInv(events);
  }

  /** After that no worker is ever created again. */
  lemma {:induction false} NothingCreatedAfterThrow(before: seq<Event>, after: seq<Event>)
    requires Reached(before).creation.threw
    ensures Reached(before + after).creation.threw
    ensures Reached(before + after).creation.created == Reached(before).creation.created
  {
    hide Apply, OrderOk;
    if after == [] {
      assert before + after == before;
    } else {
      var all := before + after;
      assert all[..|all| - 1] == before + after[..|after| - 1];
      NothingCreatedAfterThrow(before, after[..|after| - 1]);
      ReachedInv(all[..|all| - 1]);
      ThrownStaysThrown(Reached(all[..|all| - 1]), all[|all| - 1]);
    }
  }

  lemma ThrownStaysThrown(st: World, e: Event)
    requires LoopOk(st.creation) && st.creation.threw
    ensures Apply(st, e).creation.threw && Apply(st, e).creation.created == st.creation.created
  {
  }

  /**
   A worker gets its messages in `postMessage` order: at any time a prefix of what was asked, and
   all of it once its callback has run, whether asked before or after the creation.
   */
  lemma MessagesInOrder(events: seq<Event>, id: Id)
    requires id < |Reached(events).wrappers|
    ensures var st := Reached(events);
            var k := st.wrappers[id];
            && k.posted <= k.asked
            && (k.attached ==> k.posted == k.asked)
            && (k.posted != [] ==> id < |st.creation.created|)
            && (id < |st.creation.created| && id !in st.resolved ==> k.attached)
  {
    ReachedInv(events);
    assert WrapperOk(Reached(events).wrappers[id]);
    NotPostedBeforeAttached(events, id);
  }

  lemma {:induction false} NotPostedBeforeAttached(events: seq<Event>, id: Id)
    requires id < |Reached(events).wrappers|
    ensures Reached(events).wrappers[id].attached || Reached(events).wrappers[id].posted == []
  {
    if events != [] {
      if id < |Reached(events[..|events| - 1]).wrappers| {
        NotPostedBeforeAttached(events[..|events| - 1], id);
      }
    }
  }

  /** A run in which the flag is stuck: one request, whose creation throws. */
  lemma FlagCanStick()
    ensures exists events ::
              var c := Reached(events).creation; c.isCreating && c.sleeping == 0 && c.timers == 0 && Reached(events).wrappers != []
  {
    var requested := [New];
    var started := [New, Timer];
    var threw := [New, Timer, Wake(false)];
    assert requested[..0] == [] && started[..1] == requested && threw[..2] == started;
    assert Reached(requested).creation.queue == [0] && Reached(requested).creation.timers == 1;
    assert Reached(started).creation.sleeping == 1 && Reached(started).creation.queue == [0];
    assert Reached(threw).creation.isCreating && Reached(threw).creation.sleeping == 0;
  }
}
