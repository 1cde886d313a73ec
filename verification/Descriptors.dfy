/** Pipe descriptors of a process: which pool regions a fork hands on, and reconnecting them in the child (src/pipes/extract.rs). */
module Descriptors {
  import opened Words
  import opened JsObject
  import opened ForkPipes
  import opened ForkTable
  import W = WorkerCodec

  /** A region of the pipe pool: offset and size. */
  type Region = (u32, u32)

  /** What a descriptor refers to; a pipe end that is not one of ours has no region. */
  datatype Kind =
    | PipeTx(region: Option<Region>)
    | PipeRx(region: Option<Region>)
    | OtherKind
  {
    predicate Shared() { !OtherKind? && region.Some? }

    /** The same sort of descriptor, perhaps on another region. */
    predicate SameSort(k: Kind) {
      (PipeTx? && k.PipeTx?) || (PipeRx? && k.PipeRx?) || this == k == OtherKind
    }
  }

  type Descriptors = map<u32, Kind>

  /** Every shared pipe end, with its direction and region. */
  function Extract(d: Descriptors): Table {
    map fd | fd in d && d[fd].Shared() :: (d[fd].PipeTx?, d[fd].region.value.0, d[fd].region.value.1)
  }

  /** The loop over the descriptor map, whose order `fds` is arbitrary. */
  method ExtractPipeBuffers(d: Descriptors, fds: seq<u32>) returns (t: Table)
    requires forall fd :: fd in d <==> fd in fds
    ensures t == Extract(d)
  {
    t := map[];
    for i := 0 to |fds|
      invariant forall fd :: fd in t <==> fd in fds[..i] && fd in d && d[fd].Shared()
      invariant forall fd :: fd in t ==> fd in Extract(d) && t[fd] == Extract(d)[fd]
    {
      var k := d[fds[i]];
      match k
      case PipeTx(region) =>
        if region.Some? { t := t[fds[i] := (true, region.value.0, region.value.1)]; }
      case PipeRx(region) =>
        if region.Some? { t := t[fds[i] := (false, region.value.0, region.value.1)]; }
      case OtherKind =>
    }
    assert fds[..|fds|] == fds;
  }

  /** One entry of the table: replace the end if the descriptor exists and has the entry's direction. */
  function ReconnectOne(d: Descriptors, p: Pipe): Descriptors {
    if p.fd !in d then d
    else if d[p.fd].PipeTx? && p.isTx then d[p.fd := PipeTx(Some((p.offset, p.size)))]
    else if d[p.fd].PipeRx? && !p.isTx then d[p.fd := PipeRx(Some((p.offset, p.size)))]
    else d
  }

  function ReconnectAll(d: Descriptors, list: seq<Pipe>): Descriptors {
    if list == [] then d else ReconnectOne(ReconnectAll(d, list[..|list| - 1]), list[|list| - 1])
  }

  /** The loop of `reconnect_pipe_buffers`. */
  method ReconnectPipeBuffers(d: Descriptors, list: seq<Pipe>) returns (r: Descriptors)
    ensures r == ReconnectAll(d, list)
  {
    r := d;
    for i := 0 to |list|
      invariant r == ReconnectAll(d, list[..i])
    {
      assert list[..i + 1][..i] == list[..i];
      r := ReconnectOne(r, list[i]);
    }
    assert list[..|list|] == list;
  }

  /** A forked child has the parent's descriptors, though its ends may have lost their regions. */
  predicate CopyOf(child: Descriptors, parent: Descriptors) {
    child.Keys == parent.Keys && forall fd :: fd in child ==> child[fd].SameSort(parent[fd])
  }

  lemma {:induction false} ReconnectedSoFar(child: Descriptors, parent: Descriptors, list: seq<Pipe>, n: nat, fd: u32)
    requires CopyOf(child, parent) && Entries(list, Extract(parent)) && n <= |list|
    ensures var r := ReconnectAll(child, list[..n]);
            (fd in r <==> fd in parent) && (fd in r ==> r[fd] == if Has(list, n, fd) then parent[fd] else child[fd])
  {
    hide Has;
    if n > 0 {
      var p := list[n - 1];
      ReconnectedSoFar(child, parent, list, n - 1, fd);
      ReconnectedSoFar(child, parent, list, n - 1, p.fd);
      HasNext(list, n, fd);
      assert list[..n][..n - 1] == list[..n - 1];
      assert p == EntryAt(Extract(parent), p.fd);
      var before := ReconnectAll(child, list[..n - 1]);
      assert ReconnectOne(before, p) == before[p.fd := parent[p.fd]];
    } else {
      HasNone(list, fd);
    }
  }

  /**
   The child's pipe ends are reconnected to exactly the parent's regions, in the same directions, and
   every other descriptor is left alone, in whatever order the two hash maps are visited.
   */
  lemma ForkReconnectsSameRegions(child: Descriptors, parent: Descriptors, list: seq<Pipe>, fd: u32)
    requires CopyOf(child, parent) && Lists(list, Extract(parent))
    ensures var r := ReconnectAll(child, list);
            (fd in r <==> fd in parent) && (fd in r ==> r[fd] == if parent[fd].Shared() then parent[fd] else child[fd])
  {
    hide ReconnectAll, Distinct;
    ReconnectedSoFar(child, parent, list, |list|, fd);
    assert list[..|list|] == list;
    assert fd in parent && parent[fd].Shared() <==> fd in Extract(parent);
  }

  /** End to end: extract, both codecs, rebuild, reconnect. `sent` and `visited` are the orders the two hash maps happen to have. */
  lemma ForkedChildSharesRegions(w: u32, child: Descriptors, parent: Descriptors, sent: seq<Pipe>, visited: seq<Pipe>,
                                 mod: Module, memory: Option<Memory>, task: Task, fd: u32)
    requires CopyOf(child, parent) && Lists(sent, Extract(parent)) && |Extract(parent)| < 0x1_0000_0000
    requires W.Encode(W.Scheduler(ForkMessage(mod, memory, task, sent))).Some?
    requires Journey(w, ForkMessage(mod, memory, task, sent)).Ok?
    requires Lists(visited, ChildTable(Journey(w, ForkMessage(mod, memory, task, sent)).value))
    ensures var r := ReconnectAll(child, visited);
            (fd in r <==> fd in parent) && (fd in r ==> r[fd] == if parent[fd].Shared() then parent[fd] else child[fd])
  {
    hide W.Encode, Journey, Lists, ReconnectAll, Extract, ChildTable;
    ForkTableSurvives(w, Extract(parent), sent, mod, memory, task);
    ForkReconnectsSameRegions(child, parent, visited, fd);
  }
}
