/**
 The shared pipe pool's bump allocator (src/pipes/pool.rs): any number of
 workers race on one offset word with load / compare-exchange.
 */
module PipePool {
  import opened Words

  const PIPE_POOL_SIZE: u32 := 16 * 1024 * 1024
  const POOL_HEADER_SIZE: u32 := 4
  const DEFAULT_PIPE_BUFFER_SIZE: u32 := 65536

  /** A region handed out to `thread`. */
  datatype Grant = Grant(thread: nat, offset: nat, size: u32)

  /** Where an allocator stands in the retry loop. */
  datatype Pc =
    | Idle
    | Entered(size: u32)                // about to load the offset word
    | Loaded(size: u32, current: nat)   // about to check the bound and swap

  datatype Event =
    | Call(thread: nat, size: u32)
    | Run(thread: nat)

  /** `retries[t]` counts the failed swaps of allocator t. */
  datatype Pool = Pool(word: nat, pcs: seq<Pc>, granted: seq<Grant>, retries: seq<nat>)

  function Init(threads: nat): Pool {
    Pool(POOL_HEADER_SIZE, seq(threads, _ => Idle), [], seq(threads, _ => 0))
  }

  /** `checked_add(size)?` followed by the comparison with the pool size: an overflow is refused as well. */
  predicate Fits(current: nat, size: u32) {
    current + size < 0x1_0000_0000 && current + size <= PIPE_POOL_SIZE
  }

  function Apply(s: Pool, e: Event): Pool
    requires |s.retries| == |s.pcs|
  {
    if e.thread >= |s.pcs| then s else
    var t := e.thread;
    match e
    case Call(_, size) =>
      if s.pcs[t].Idle? then s.(pcs := s.pcs[t := Entered(size)]) else s
    case Run(_) =>
      match s.pcs[t]
      case Idle => s
      case Entered(size) => s.(pcs := s.pcs[t := Loaded(size, s.word)])
      case Loaded(size, current) =>
        if !Fits(current, size) then
          s.(pcs := s.pcs[t := Idle])
        else if s.word == current then
          s.(word := current + size, pcs := s.pcs[t := Idle], granted := s.granted + [Grant(t, current, size)])
        else
          s.(pcs := s.pcs[t := Entered(size)], retries := s.retries[t := s.retries[t] + 1])
  }

  function Reached(threads: nat, events: seq<Event>): (s: Pool)
    ensures |s.pcs| == |s.retries| == threads
  {
    if events == [] then Init(threads) else Apply(Reached(threads, events[..|events| - 1]), events[|events| - 1])
  }

  // ---- The regions tile the allocated prefix of the pool ----

  function End(granted: seq<Grant>): nat {
    if granted == [] then POOL_HEADER_SIZE else granted[|granted| - 1].offset + granted[|granted| - 1].size
  }

  ghost predicate Tiled(granted: seq<Grant>) {
    forall i {:trigger granted[i]} :: 0 <= i < |granted| ==> granted[i].offset == End(granted[..i])
  }

  ghost predicate Inv(s: Pool) {
    && |s.retries| == |s.pcs|
    && Tiled(s.granted)
    && s.word == End(s.granted)
    && POOL_HEADER_SIZE <= s.word <= PIPE_POOL_SIZE
    && forall t :: 0 <= t < |s.pcs| && s.pcs[t].Loaded? ==> POOL_HEADER_SIZE <= s.pcs[t].current <= s.word
  }

  lemma TiledAppend(granted: seq<Grant>, g: Grant)
    requires Tiled(granted) && g.offset == End(granted)
    ensures Tiled(granted + [g]) && End(granted + [g]) == g.offset + g.size
  {
    var longer := granted + [g];
    forall i | 0 <= i < |longer|
      ensures longer[i].offset == End(longer[..i])
    {
      if i < |granted| {
        assert longer[..i] == granted[..i];
        assert longer[i] == granted[i];
      } else {
        assert longer[..i] == granted;
      }
    }
  }

  lemma ApplyKeepsInv(s: Pool, e: Event)
    requires Inv(s)
    ensures Inv(Apply(s, e))
    ensures s.word <= Apply(s, e).word && s.granted <= Apply(s, e).granted
  {
    hide Tiled, End;
    if e.Run? && e.thread < |s.pcs| && s.pcs[e.thread].Loaded? {
      var Loaded(size, current) := s.pcs[e.thread];
      if Fits(current, size) && s.word == current {
        TiledAppend(s.granted, Grant(e.thread, current, size));
      }
    }
  }

  lemma {:induction false} ReachedInv(threads: nat, events: seq<Event>)
    ensures Inv(Reached(threads, events))
  {
    if events != [] {
      ReachedInv(threads, events[..|events| - 1]);
      ApplyKeepsInv(Reached(threads, events[..|events| - 1]), events[|events| - 1]);
    }
  }

  lemma {:induction false} TiledOrdered(granted: seq<Grant>, i: nat, j: nat)
    requires Tiled(granted) && i < j < |granted|
    ensures granted[i].offset + granted[i].size <= granted[j].offset
    decreases j - i
  {
    assert granted[j].offset == End(granted[..j]);
    assert granted[..j][j - 1] == granted[j - 1];
    if i < j - 1 {
      TiledOrdered(granted, i, j - 1);
    }
  }

  lemma {:induction false} TiledAbove(granted: seq<Grant>, i: nat)
    requires Tiled(granted) && i < |granted|
    ensures POOL_HEADER_SIZE <= granted[i].offset
    ensures granted[i].offset + granted[i].size <= End(granted)
  {
    if i < |granted| - 1 {
      TiledOrdered(granted, i, |granted| - 1);
    }
    if i > 0 {
      TiledAbove(granted, 0);
      TiledOrdered(granted, 0, i);
    } else {
      assert granted[..0] == [];
      assert granted[0].offset == End(granted[..0]);
    }
  }

  /** Whatever the interleaving, the regions handed out are pairwise disjoint and lie in [4, 16 MB]. */
  lemma RegionsAreExclusive(threads: nat, events: seq<Event>)
    ensures var g := Reached(threads, events).granted;
            && (forall i, j :: 0 <= i < j < |g| ==> g[i].offset + g[i].size <= g[j].offset)
            && (forall i :: 0 <= i < |g| ==> POOL_HEADER_SIZE <= g[i].offset && g[i].offset + g[i].size <= PIPE_POOL_SIZE)
  {
    ReachedInv(threads, events);
    var g := Reached(threads, events).granted;
    forall i, j | 0 <= i < j < |g| ensures g[i].offset + g[i].size <= g[j].offset {
      TiledOrdered(g, i, j);
    }
    forall i | 0 <= i < |g|
      ensures POOL_HEADER_SIZE <= g[i].offset && g[i].offset + g[i].size <= PIPE_POOL_SIZE
    {
      TiledAbove(g, i);
    }
  }

  // ---- Runs whose calls all ask for sizes of one kind ----

  ghost predicate AllCalls(events: seq<Event>, p: u32 -> bool) {
    forall i :: 0 <= i < |events| && events[i].Call? ==> p(events[i].size)
  }

  ghost predicate SizesSatisfy(s: Pool, p: u32 -> bool) {
    && (forall t :: 0 <= t < |s.pcs| && !s.pcs[t].Idle? ==> p(s.pcs[t].size))
    && (forall i :: 0 <= i < |s.granted| ==> p(s.granted[i].size))
  }

  lemma {:induction false} ReachedSizes(threads: nat, events: seq<Event>, p: u32 -> bool)
    requires AllCalls(events, p)
    ensures SizesSatisfy(Reached(threads, events), p)
  {
    if events != [] {
      ReachedSizes(threads, events[..|events| - 1], p);
    }
  }

  lemma {:induction false} EqualSizesTile(granted: seq<Grant>, i: nat, size: u32)
    requires Tiled(granted) && i <= |granted|
    requires forall j :: 0 <= j < |granted| ==> granted[j].size == size
    ensures End(granted[..i]) == POOL_HEADER_SIZE + i * size
  {
    if i > 0 {
      EqualSizesTile(granted, i - 1, size);
      assert granted[i - 1].offset == End(granted[..i - 1]);
      assert granted[..i][i - 1] == granted[i - 1];
      assert i * size == (i - 1) * size + size;
    } else {
      assert granted[..0] == [];
    }
  }

  lemma {:induction false} OffsetsAligned(granted: seq<Grant>, i: nat)
    requires Tiled(granted) && i < |granted|
    requires forall j :: 0 <= j < |granted| ==> granted[j].size % 4 == 0
    ensures granted[i].offset % 4 == 0
  {
    TiledNext(granted, i);
    if i > 0 {
      OffsetsAligned(granted, i - 1);
      FoursAddUp(granted[i - 1].offset, granted[i - 1].size);
    }
  }

  lemma FoursAddUp(a: nat, b: nat)
    requires a % 4 == 0 && b % 4 == 0
    ensures (a + b) % 4 == 0
  {
  }

  lemma TiledNext(granted: seq<Grant>, i: nat)
    requires Tiled(granted) && i < |granted|
    ensures granted[i].offset == if i == 0 then POOL_HEADER_SIZE else granted[i - 1].offset + granted[i - 1].size
  {
    assert granted[i].offset == End(granted[..i]);
  }

  /** Sizes that are multiples of four keep every region aligned for its Int32Array header view. */
  lemma HeadersAligned(threads: nat, events: seq<Event>)
    requires AllCalls(events, size => size % 4 == 0)
    ensures var g := Reached(threads, events).granted;
            forall i :: 0 <= i < |g| ==> g[i].offset % 4 == 0
  {
    ReachedInv(threads, events);
    ReachedSizes(threads, events, size => size % 4 == 0);
    var g := Reached(threads, events).granted;
    forall i | 0 <= i < |g| ensures g[i].offset % 4 == 0 {
      OffsetsAligned(g, i);
    }
  }

  /**
   Exactly 255 default pipes fit: no run grants more, an allocator is refused only once all
   255 are gone, and one whose loaded offset is still current is refused if and only if they are.
   */
  lemma DefaultPipesThatFit(threads: nat, events: seq<Event>)
    requires AllCalls(events, size => size == DEFAULT_PIPE_BUFFER_SIZE)
    ensures var s := Reached(threads, events);
            && |s.granted| <= 255
            && forall t :: 0 <= t < threads && s.pcs[t].Loaded? ==>
                 && (!Fits(s.pcs[t].current, s.pcs[t].size) ==> |s.granted| == 255)
                 && (!Overtaken(s, t) ==> (Fits(s.pcs[t].current, s.pcs[t].size) <==> |s.granted| < 255))
  {
    ReachedInv(threads, events);
    ReachedSizes(threads, events, size => size == DEFAULT_PIPE_BUFFER_SIZE);
    var s := Reached(threads, events);
    EqualSizesTile(s.granted, |s.granted|, DEFAULT_PIPE_BUFFER_SIZE);
    assert s.granted[..|s.granted|] == s.granted;
  }

  predicate Overtaken(s: Pool, t: nat)
    requires t < |s.pcs|
  {
    s.pcs[t].Loaded? && s.pcs[t].current != s.word
  }

  // ---- Lock freedom ----

  function GrantsTo(granted: seq<Grant>, t: nat): nat {
    if granted == [] then 0 else
    GrantsTo(granted[..|granted| - 1], t) + (if granted[|granted| - 1].thread == t then 1 else 0)
  }

  ghost predicate Fair(s: Pool) {
    && |s.retries| == |s.pcs|
    && forall t :: 0 <= t < |s.pcs| ==>
         s.retries[t] + (if Overtaken(s, t) then 1 else 0) + GrantsTo(s.granted, t) <= |s.granted|
  }

  lemma ApplyKeepsFair(s: Pool, e: Event)
    requires Inv(s) && Fair(s) && SizesSatisfy(s, size => size > 0)
    ensures Fair(Apply(s, e))
  {
    hide Tiled, End;
    var s' := Apply(s, e);
    forall t | 0 <= t < |s'.pcs|
      ensures s'.retries[t] + (if Overtaken(s', t) then 1 else 0) + GrantsTo(s'.granted, t) <= |s'.granted|
    {
      assert s.retries[t] + (if Overtaken(s, t) then 1 else 0) + GrantsTo(s.granted, t) <= |s.granted|;
      if s'.granted != s.granted {
        assert s'.granted[..|s'.granted| - 1] == s.granted;
      }
    }
  }

  lemma {:induction false} ReachedFair(threads: nat, events: seq<Event>)
    requires AllCalls(events, size => size > 0)
    ensures Fair(Reached(threads, events))
  {
    if events != [] {
      var before := events[..|events| - 1];
      ReachedFair(threads, before);
      ReachedInv(threads, before);
      ReachedSizes(threads, before, size => size > 0);
      ApplyKeepsFair(Reached(threads, before), events[|events| - 1]);
    }
  }

  /**
   Every failed swap of an allocator is paid for by a region granted to somebody else, so an
   allocator retries at most as often as its rivals succeed, over every run.
   */
  lemma RetriesArePaidForByRivals(threads: nat, events: seq<Event>, t: nat)
    requires AllCalls(events, size => size > 0)
    requires t < threads
    ensures var s := Reached(threads, events);
            s.retries[t] + GrantsTo(s.granted, t) <= |s.granted|
  {
    ReachedFair(threads, events);
  }

  /**
   Who gets a region, in every reachable state: an allocator that is not disturbed between its load
   and its swap is granted the next region if and only if it still fits in the 16 MB. One that was
   disturbed starts over, and nobody is refused as long as the size asked for fits.
   */
  lemma GrantedIffItFits(threads: nat, events: seq<Event>, t: nat, size: u32)
    requires t < threads
    ensures var s := Reached(threads, events); var fits := s.word + size <= 0x100_0000;
            && (s.pcs[t] == Idle ==> Apply(s, Call(t, size)) == s.(pcs := s.pcs[t := Entered(size)]))
            && (s.pcs[t] == Entered(size) ==>
                  Apply(Apply(s, Run(t)), Run(t)) ==
                  s.(pcs := s.pcs[t := Idle],
                     word := if fits then s.word + size else s.word,
                     granted := if fits then s.granted + [Grant(t, s.word, size)] else s.granted))
            && (s.pcs[t].Loaded? && s.pcs[t].size == size ==>
                  var s' := Apply(s, Run(t));
                  && (s'.pcs[t] == Idle && s'.granted == s.granted ==> !fits)
                  && (s'.granted != s.granted ==> fits && s'.word == s.word + size
                                                  && s'.granted == s.granted + [Grant(t, s.word, size)])
                  && (s'.pcs[t] != Idle ==> Overtaken(s, t) && s'.pcs[t] == Entered(size)))
  {
    hide Tiled, End;
    ReachedInv(threads, events);
    var s := Reached(threads, events);
    assert s.pcs[t := Loaded(size, s.word)][t := Idle] == s.pcs[t := Idle];
  }

  // ---- The retry loop itself ----

  /** The offset word of the pool, with a ghost record of the regions claimed so far. */
  class PoolWord {
    var word: u32
    ghost var granted: seq<Grant>

    ghost predicate Valid()
      reads this
    {
      Tiled(granted) && word == End(granted) && word <= PIPE_POOL_SIZE
    }

    constructor ()
      ensures Valid() && granted == [] && word == POOL_HEADER_SIZE
    {
      word := POOL_HEADER_SIZE;
      granted := [];
    }

    method CompareExchange(expected: u32, desired: u32, ghost claim: Grant) returns (oldValue: u32)
      requires Valid() && Fits(expected, claim.size)
      requires claim.offset == expected && desired == expected + claim.size
      modifies this
      ensures Valid() && oldValue == old(word)
      ensures oldValue == expected ==> word == desired && granted == old(granted) + [claim]
      ensures oldValue != expected ==> word == old(word) && granted == old(granted)
    {
      oldValue := word;
      if word == expected {
        TiledAppend(granted, claim);
        word := desired;
        granted := granted + [claim];
      }
    }

    /** Other allocators claiming `sizes`, one after the other; those that do not fit are refused. */
    method RivalsClaim(sizes: seq<u32>)
      requires Valid()
      modifies this
      ensures Valid() && old(word) <= word && old(granted) <= granted
      ensures sizes == [] ==> word == old(word)
    {
      for k := 0 to |sizes|
        invariant Valid() && old(word) <= word && old(granted) <= granted
        invariant k == 0 ==> word == old(word)
      {
        if Fits(word, sizes[k]) {
          var current := word;
          var _ := CompareExchange(current, current + sizes[k], Grant(0, current, sizes[k]));
        }
      }
    }

    /**
     `allocate_from_pool`: `rivals[k]` is what the other allocators claim between this one's
     k-th load and its k-th swap.
     */
    method AllocateFromPool(size: u32, rivals: seq<seq<u32>>) returns (r: Option<u32>, retries: nat)
      requires Valid()
      modifies this
      ensures Valid() && old(granted) <= granted && retries <= |rivals|
      ensures r.Some? ==> |granted| > |old(granted)| && granted[|granted| - 1] == Grant(1, r.value, size)
      ensures r.Some? ==> old(word) <= r.value && word == r.value + size
      ensures r.None? ==> word + size > PIPE_POOL_SIZE
    {
      retries := 0;
      while true
        invariant Valid() && old(granted) <= granted && old(word) <= word
        invariant retries <= |rivals|
        decreases |rivals| - retries
      {
        var currentOffset := word;
        if !Fits(currentOffset, size) {
          return None, retries;
        }
        RivalsClaim(if retries < |rivals| then rivals[retries] else []);
        var result := CompareExchange(currentOffset, currentOffset + size, Grant(1, currentOffset, size));
        if result == currentOffset {
          return Some(currentOffset), retries;
        }
        retries := retries + 1;
      }
    }
  }
}
