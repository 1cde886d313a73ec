/**
 All pipes at once: any number of pipes created, written, read and closed in the one shared
 array, every step a single atomic access. Each pipe behaves as if it were alone.
 */
module PipeWorld {
  import opened Words
  import opened PipeMemory
  import opened SharedBytes
  import Protocol = PipeProtocol
  import Safety = PipeSafety
  import Ends = PipeEnds
  import Theorems = PipeTheorems
  import PipePool

  datatype World = World(bytes: seq<byte>, pipes: map<nat, Protocol.Agents>)

  datatype Event =
    | Create(size: u32)
    | On(offset: nat, e: Protocol.Event)

  function Extent(a: Protocol.Agents): nat {
    HEADER_SIZE + a.capacity
  }

  /** The offset word below every region, and the regions below the offset word, apart from each other. */
  ghost predicate Layout(w: World) {
    && |w.bytes| == PipePool.PIPE_POOL_SIZE
    && PipePool.POOL_HEADER_SIZE <= PeekWord(w.bytes, 0) <= PipePool.PIPE_POOL_SIZE
    && (forall p :: p in w.pipes ==>
          && Protocol.Shaped(w.pipes[p])
          && PipePool.POOL_HEADER_SIZE <= p && p + Extent(w.pipes[p]) <= PeekWord(w.bytes, 0))
    && (forall p, q :: p in w.pipes && q in w.pipes && p < q ==> p + Extent(w.pipes[p]) <= q)
  }

  function MemoryOf(w: World, p: nat): Mem
    requires p in w.pipes && p + Extent(w.pipes[p]) <= |w.bytes|
  {
    View(w.bytes, p, w.pipes[p].capacity)
  }

  /** The pool as create_pipe_pool leaves it. */
  function Init(bytes: seq<byte>): World
    requires |bytes| == PipePool.PIPE_POOL_SIZE
  {
    World(PokeWord(bytes, 0, PipePool.POOL_HEADER_SIZE), map[])
  }

  /** `with_capacity` up to the swap that claims the region; sizes must exceed the header. */
  function CreatePipe(w: World, size: u32): World
    requires |w.bytes| == PipePool.PIPE_POOL_SIZE
  {
    var current := PeekWord(w.bytes, 0);
    if size > HEADER_SIZE && PipePool.Fits(current, size)
    then World(PokeWord(w.bytes, 0, current + size), w.pipes[current := Protocol.NewAgents(size - HEADER_SIZE)])
    else w
  }

  function StepPipe(w: World, p: nat, e: Protocol.Event): World
    requires p in w.pipes && Protocol.Shaped(w.pipes[p]) && p + Extent(w.pipes[p]) <= |w.bytes|
  {
    var a := w.pipes[p];
    var (bytes', v) := Access(w.bytes, p, a.capacity, Protocol.Request(a, e));
    World(bytes', w.pipes[p := Protocol.Resume(MemoryOf(w, p), a, e, v)])
  }

  function Apply(w: World, e: Event): World
    requires Layout(w)
  {
    match e
    case Create(size) => CreatePipe(w, size)
    case On(p, pe) => if p in w.pipes then StepPipe(w, p, pe) else w
  }

  /** A step of one pipe is a step of that pipe's own machine, and every other pipe keeps its memory and its programs. */
  lemma StepIsIsolated(w: World, p: nat, e: Protocol.Event)
    requires Layout(w) && p in w.pipes
    ensures var w' := StepPipe(w, p, e);
            && Layout(w') && w'.pipes.Keys == w.pipes.Keys && PeekWord(w'.bytes, 0) == PeekWord(w.bytes, 0)
            && (MemoryOf(w', p), w'.pipes[p]) == Protocol.Next(MemoryOf(w, p), w.pipes[p], e)
            && forall q :: q in w.pipes && q != p ==> w'.pipes[q] == w.pipes[q] && MemoryOf(w', q) == MemoryOf(w, q)
  {
    hide Protocol.Request, Protocol.Resume, Access, Exec, View;
    var a := w.pipes[p];
    var op := Protocol.Request(a, e);
    AccessIsExec(w.bytes, p, a.capacity, op);
    var w' := StepPipe(w, p, e);
    forall i | 0 <= i < |w.bytes| && (i < p || p + Extent(a) <= i)
      ensures w'.bytes[i] == w.bytes[i]
    {
      AccessStaysInside(w.bytes, p, a.capacity, op, i);
    }
    forall q | q in w.pipes && q != p
      ensures w'.pipes[q] == w.pipes[q] && MemoryOf(w', q) == MemoryOf(w, q)
    {
      ViewDependsOnRegion(w.bytes, w'.bytes, q, w.pipes[q].capacity);
    }
  }

  /** The next free byte of the pool. */
  function NextFree(w: World): u32
    requires |w.bytes| == PipePool.PIPE_POOL_SIZE
  {
    PeekWord(w.bytes, 0)
  }

  /**
   A pipe larger than its header is created exactly if it fits in what is left of the 16 MiB, at the
   next free byte, which moves on by its size; if it does not fit, nothing changes at all.
   */
  lemma CreatedIffItFits(w: World, size: u32)
    requires Layout(w) && size > HEADER_SIZE
    ensures var w' := CreatePipe(w, size); var at := NextFree(w);
            && |w'.bytes| == PipePool.PIPE_POOL_SIZE
            && if at + size <= 0x100_0000
               then at !in w.pipes && w'.pipes == w.pipes[at := Protocol.NewAgents(size - HEADER_SIZE)] && NextFree(w') == at + size
               else w' == w
  {
    hide PokeWord, PeekWord;
    CreateKeepsLayout(w, size);
    if PipePool.Fits(NextFree(w), size) {
      PokedWordReads(w.bytes, 0, NextFree(w) + size);
    }
  }

  lemma CreateIsIsolated(w: World, size: u32)
    requires Layout(w)
    ensures var w' := CreatePipe(w, size); var current := PeekWord(w.bytes, 0);
            && Layout(w')
            && (w' == w <==> !(size > HEADER_SIZE && current + size <= PipePool.PIPE_POOL_SIZE))
            && (w' == w || (current !in w.pipes && w'.pipes.Keys == w.pipes.Keys + {current}
                            && w'.pipes[current] == Protocol.NewAgents(size - HEADER_SIZE)))
            && forall q :: q in w.pipes ==> q in w'.pipes && w'.pipes[q] == w.pipes[q] && MemoryOf(w', q) == MemoryOf(w, q)
  {
    hide View, PokeWord, PeekWord;
    CreateKeepsLayout(w, size);
    if size > HEADER_SIZE {
      CreatedIffItFits(w, size);
    }
    var w' := CreatePipe(w, size);
    forall q | q in w.pipes && w' != w ensures MemoryOf(w', q) == MemoryOf(w, q) {
      ViewDependsOnRegion(w.bytes, w'.bytes, q, w.pipes[q].capacity);
    }
  }

  lemma CreateKeepsLayout(w: World, size: u32)
    requires Layout(w)
    ensures Layout(CreatePipe(w, size)) && (CreatePipe(w, size) == w || PeekWord(w.bytes, 0) !in w.pipes)
  {
    hide PokeWord, PeekWord;
    var current := PeekWord(w.bytes, 0);
    if CreatePipe(w, size) != w {
      PokedWordReads(w.bytes, 0, current + size);
    }
  }

  // ---- Every pipe of a run is a run of its own ----

  /** (m, a) is reachable by the single-pipe machine. */
  ghost predicate IsOwnRun(m: Mem, a: Protocol.Agents) {
    exists garbage: Mem, events: seq<Protocol.Event> ::
      0 < |garbage.data| <= PipePool.PIPE_POOL_SIZE && Protocol.Reached(garbage, events) == (m, a)
  }

  ghost predicate Inv(w: World) {
    && Layout(w)
    && forall p :: p in w.pipes ==> IsOwnRun(MemoryOf(w, p), w.pipes[p])
  }

  lemma FreshIsOwnRun(m: Mem)
    requires 0 < |m.data| <= PipePool.PIPE_POOL_SIZE
    ensures IsOwnRun(m, Protocol.NewAgents(|m.data|))
  {
    var none: seq<Protocol.Event> := [];
    assert Protocol.Reached(m, none) == (m, Protocol.NewAgents(|m.data|));
  }

  lemma StepIsOwnRun(m: Mem, a: Protocol.Agents, e: Protocol.Event)
    requires IsOwnRun(m, a) && Protocol.Shaped(a)
    ensures IsOwnRun(Protocol.Next(m, a, e).0, Protocol.Next(m, a, e).1)
  {
    hide Protocol.Next, Protocol.Reached;
    var garbage: Mem, events: seq<Protocol.Event> :|
      0 < |garbage.data| <= PipePool.PIPE_POOL_SIZE && Protocol.Reached(garbage, events) == (m, a);
    Ends.ReachedThen(garbage, events, e);
  }

  lemma ApplyKeepsInv(w: World, e: Event)
    requires Inv(w)
    ensures Inv(Apply(w, e))
  {
    hide IsOwnRun, View, Protocol.Next;
    match e
    case Create(size) =>
      CreateIsIsolated(w, size);
      var w' := CreatePipe(w, size);
      var current := PeekWord(w.bytes, 0);
      if w' != w {
        FreshIsOwnRun(View(w'.bytes, current, size - HEADER_SIZE));
      }
    case On(p, pe) =>
      if p in w.pipes {
        StepIsIsolated(w, p, pe);
        StepIsOwnRun(MemoryOf(w, p), w.pipes[p], pe);
      }
  }

  function Reached(bytes: seq<byte>, events: seq<Event>): (w: World)
    requires |bytes| == PipePool.PIPE_POOL_SIZE
    ensures Inv(w)
  {
    if events == [] then
      PokedWordReads(bytes, 0, PipePool.POOL_HEADER_SIZE);
      Init(bytes)
    else
      var w := Reached(bytes, events[..|events| - 1]);
      ApplyKeepsInv(w, events[|events| - 1]);
      Apply(w, events[|events| - 1])
  }

  /**
   In any run over the shared array, every pipe's memory and programs are those of some run of
   the pipe alone, so each promise proved for a lone pipe holds for it.
   */
  lemma EveryPipeRunsAlone(bytes: seq<byte>, events: seq<Event>, p: nat)
    requires |bytes| == PipePool.PIPE_POOL_SIZE
    requires p in Reached(bytes, events).pipes
    ensures var w := Reached(bytes, events); IsOwnRun(MemoryOf(w, p), w.pipes[p])
  {
  }

  // ---- How many pipes there are ----

  /** How many creations the run attempts. */
  function Creations(events: seq<Event>): nat {
    if events == [] then 0
    else Creations(events[..|events| - 1]) + (if events[|events| - 1].Create? then 1 else 0)
  }

  /** The first `k` places for pipes of the default size. */
  function Places(k: nat): set<nat> { set i | 0 <= i < k :: 4 + 0x1_0000 * i }

  /**
   A run whose creations all ask for the default size, with any other steps in between, has
   min(attempts, 255) pipes, one behind the other from byte 4 on.
   */
  lemma {:induction false} DefaultPipesAreCreated(bytes: seq<byte>, events: seq<Event>)
    requires |bytes| == PipePool.PIPE_POOL_SIZE
    requires forall i :: 0 <= i < |events| && events[i].Create? ==> events[i].size == PipePool.DEFAULT_PIPE_BUFFER_SIZE
    ensures var w := Reached(bytes, events); var k := Min(Creations(events), 255);
            w.pipes.Keys == Places(k) && NextFree(w) == 4 + 0x1_0000 * k
  {
    hide PeekWord, PokeWord, IsOwnRun, Places, Apply, Layout;
    if events == [] {
      PokedWordReads(bytes, 0, PipePool.POOL_HEADER_SIZE);
      NoPlaces();
    } else {
      var front := events[..|events| - 1];
      DefaultPipesAreCreated(bytes, front);
      OneMoreDefaultPipe(Reached(bytes, front), events[|events| - 1], Min(Creations(front), 255));
    }
  }

  lemma OneMoreDefaultPipe(w: World, e: Event, k: nat)
    requires Layout(w) && w.pipes.Keys == Places(k) && NextFree(w) == 4 + 0x1_0000 * k && k <= 255
    requires e.Create? ==> e.size == PipePool.DEFAULT_PIPE_BUFFER_SIZE
    ensures var w' := Apply(w, e); var k' := if e.Create? && k < 255 then k + 1 else k;
            |w'.bytes| == PipePool.PIPE_POOL_SIZE && w'.pipes.Keys == Places(k') && NextFree(w') == 4 + 0x1_0000 * k'
  {
    hide PeekWord, PokeWord, Places, CreatePipe, StepPipe;
    match e
    case Create(size) =>
      CreatedIffItFits(w, size);
      OneMorePlace(k);
    case On(p, pe) =>
      if p in w.pipes {
        StepIsIsolated(w, p, pe);
      }
  }

  lemma NoPlaces()
    ensures Places(0) == {}
  {
  }

  lemma OneMorePlace(k: nat)
    ensures Places(k + 1) == Places(k) + {4 + 0x1_0000 * k}
  {
  }

  // ---- The array refines a map of queues ----

  /** The abstract state: the byte queue of every initialised pipe. */
  ghost function Queues(w: World): map<nat, seq<byte>>
    requires Inv(w)
  {
    map p | p in w.pipes && w.pipes[p].init == 5 && Safety.Placed(MemoryOf(w, p), w.pipes[p]) ::
      Safety.Queue(MemoryOf(w, p))
  }

  lemma OwnRunIsSafe(m: Mem, a: Protocol.Agents)
    requires IsOwnRun(m, a)
    ensures Safety.Inv(m, a)
  {
    hide Safety.Inv, Protocol.Reached;
    var garbage: Mem, events: seq<Protocol.Event> :|
      0 < |garbage.data| <= PipePool.PIPE_POOL_SIZE && Protocol.Reached(garbage, events) == (m, a);
    Ends.ReachedInv(garbage, events);
  }

  /** The keys are exactly the initialised pipes. */
  lemma InitialisedPipesHaveQueues(w: World)
    requires Inv(w)
    ensures forall p :: p in Queues(w) <==> p in w.pipes && w.pipes[p].init == 5
  {
    hide IsOwnRun, Safety.Placed, Safety.Queue, View;
    forall p | p in w.pipes && w.pipes[p].init == 5
      ensures Safety.Placed(MemoryOf(w, p), w.pipes[p])
    {
      OwnRunIsSafe(MemoryOf(w, p), w.pipes[p]);
      SafeIsPlaced(MemoryOf(w, p), w.pipes[p]);
    }
  }

  lemma SafeIsPlaced(m: Mem, a: Protocol.Agents)
    requires Safety.Inv(m, a) && a.init == 5
    ensures Safety.Placed(m, a)
  {
  }

  /**
   The shared array refines a map from offset to byte queue. Its keys are exactly the initialised
   pipes. A step of pipe p changes no queue but p's, and p's by one step of a byte queue; the last step
   of p's own initialisation enters p, with the empty queue; creating a pipe changes nothing.
   */
  lemma WorldRefinesQueues(bytes: seq<byte>, events: seq<Event>, e: Event)
    requires |bytes| == PipePool.PIPE_POOL_SIZE
    ensures var w := Reached(bytes, events); var w' := Reached(bytes, events + [e]);
            && w' == Apply(w, e)
            && (forall p :: p in Queues(w') <==> p in w'.pipes && w'.pipes[p].init == 5)
            && (forall q :: q in Queues(w) ==> q in Queues(w'))
            && (forall q :: q in Queues(w) && (e.On? ==> q != e.offset) ==> Queues(w')[q] == Queues(w)[q])
            && (forall q :: q in Queues(w') && q !in Queues(w) ==> e.On? && q == e.offset && Queues(w')[q] == [])
            && (e.On? && e.offset in Queues(w) ==>
                  Theorems.QueueStep(Queues(w)[e.offset], Queues(w')[e.offset], w.pipes[e.offset], w'.pipes[e.offset], e.e))
  {
    hide Apply, Queues, Theorems.QueueStep;
    assert (events + [e])[..|events + [e]| - 1] == events;
    var w := Reached(bytes, events);
    ApplyKeepsInv(w, e);
    ApplyRefinesQueues(w, e);
    InitialisedPipesHaveQueues(w);
    InitialisedPipesHaveQueues(Apply(w, e));
    forall q | q in Queues(Apply(w, e)) && q !in Queues(w)
      ensures e.On? && q == e.offset && Queues(Apply(w, e))[q] == []
    {
      NewQueueIsEmpty(w, e, q);
    }
  }

  /** A pipe is initialised by its own last initialising step, and empty then. */
  lemma NewQueueIsEmpty(w: World, e: Event, q: nat)
    requires Inv(w) && Inv(Apply(w, e)) && q in Queues(Apply(w, e))
    requires q in w.pipes ==> w.pipes[q].init != 5
    ensures e.On? && q == e.offset && Queues(Apply(w, e))[q] == []
  {
    hide IsOwnRun, View, Protocol.Next, Safety.Queue, Safety.Placed;
    match e
    case Create(size) =>
      CreateIsIsolated(w, size);
      FreshIsNotInitialised(size);
    case On(p, pe) =>
      if p in w.pipes {
        StepIsIsolated(w, p, pe);
        if q == p {
          OwnRunIsSafe(MemoryOf(w, p), w.pipes[p]);
          InitialisedEmpty(MemoryOf(w, p), w.pipes[p], pe);
        }
      }
  }

  lemma FreshIsNotInitialised(size: u32)
    ensures size > HEADER_SIZE ==> Protocol.NewAgents(size - HEADER_SIZE).init == 0
  {
  }

  lemma InitialisedEmpty(m: Mem, a: Protocol.Agents, e: Protocol.Event)
    requires Safety.Inv(m, a) && a.init != 5 && Protocol.Next(m, a, e).1.init == 5
    ensures var (m', a') := Protocol.Next(m, a, e); Safety.Placed(m', a') && Safety.Queue(m') == []
  {
    Ends.NextKeepsInv(m, a, e);
    var (m', a') := Protocol.Next(m, a, e);
    assert a'.accepted == [] && a'.delivered == [];
  }

  lemma ApplyRefinesQueues(w: World, e: Event)
    requires Inv(w) && Inv(Apply(w, e))
    ensures var w' := Apply(w, e);
            && (forall q :: q in Queues(w) ==> q in Queues(w'))
            && (forall q :: q in Queues(w) && (e.On? ==> q != e.offset) ==> Queues(w')[q] == Queues(w)[q])
            && (e.On? && e.offset in Queues(w) ==>
                  Theorems.QueueStep(Queues(w)[e.offset], Queues(w')[e.offset], w.pipes[e.offset], w'.pipes[e.offset], e.e))
  {
    hide IsOwnRun, View, Protocol.Next, Theorems.QueueStep, Safety.Queue;
    match e
    case Create(size) => CreateIsIsolated(w, size);
    case On(p, pe) =>
      if p in w.pipes {
        StepIsIsolated(w, p, pe);
        if p in Queues(w) {
          OwnStepRefines(MemoryOf(w, p), w.pipes[p], pe);
        }
      }
  }

  lemma OwnStepRefines(m: Mem, a: Protocol.Agents, e: Protocol.Event)
    requires IsOwnRun(m, a) && a.init == 5 && Safety.Placed(m, a)
    ensures var (m', a') := Protocol.Next(m, a, e);
            && a'.init == 5 && Safety.Placed(m', a')
            && Theorems.QueueStep(Safety.Queue(m), Safety.Queue(m'), a, a', e)
  {
    hide IsOwnRun, Protocol.Next, Theorems.QueueStep, Safety.Queue;
    OwnRunIsSafe(m, a);
    StaysLive(m, a, e);
    Theorems.StepRefinesQueue(m, a, e);
  }

  lemma StaysLive(m: Mem, a: Protocol.Agents, e: Protocol.Event)
    requires Safety.Inv(m, a) && a.init == 5
    ensures Protocol.Next(m, a, e).1.init == 5
    ensures Safety.Placed(Protocol.Next(m, a, e).0, Protocol.Next(m, a, e).1)
  {
    hide Protocol.Next;
    Ends.NextKeepsInv(m, a, e);
    InitIsKept(m, a, e);
  }

  lemma InitIsKept(m: Mem, a: Protocol.Agents, e: Protocol.Event)
    requires Protocol.Shaped(a) && a.init == 5
    ensures Protocol.Next(m, a, e).1.init == 5
  {
  }
}
