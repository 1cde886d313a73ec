/** A fork's pipe table on its whole way from the parent to the child: map, list, two codecs, list, map. */
module ForkTable {
  import opened Words
  import opened JsObject
  import opened ForkPipes
  import S = SchedulerCodec
  import P = PayloadCodec
  import W = WorkerCodec

  /** `PipeBufferMap`: descriptor to (is write end, pool offset, size). */
  type Table = map<u32, (bool, u32, u32)>

  function EntryAt(t: Table, fd: u32): Pipe
    requires fd in t
  {
    Pipe(fd, t[fd].0, t[fd].1, t[fd].2)
  }

  /** One of the first `n` entries is for `fd`. */
  predicate Has(list: seq<Pipe>, n: nat, fd: u32)
    requires n <= |list|
  {
    exists i :: 0 <= i < n && list[i].fd == fd
  }

  predicate Distinct(list: seq<Pipe>) {
    forall i, j :: 0 <= i < j < |list| ==> list[i].fd != list[j].fd
  }

  predicate Entries(list: seq<Pipe>, t: Table) {
    forall i :: 0 <= i < |list| ==> list[i].fd in t && list[i] == EntryAt(t, list[i].fd)
  }

  /** `into_vec` visits a hash map's entries once each, in no particular order. */
  predicate Lists(list: seq<Pipe>, t: Table) {
    Entries(list, t) && Distinct(list) && forall fd :: fd in t ==> Has(list, |list|, fd)
  }

  lemma HasNext(list: seq<Pipe>, n: nat, fd: u32)
    requires 0 < n <= |list|
    ensures Has(list, n, fd) <==> Has(list, n - 1, fd) || list[n - 1].fd == fd
  {
  }

  /** The child's map, built by inserting the list's entries in order. */
  function Rebuilt(list: seq<Pipe>): Table {
    if list == [] then map[]
    else
      var p := list[|list| - 1];
      Rebuilt(list[..|list| - 1])[p.fd := (p.isTx, p.offset, p.size)]
  }

  /** The insertion loop of `reconnect_fork_pipes`. */
  method Rebuild(list: seq<Pipe>) returns (t: Table)
    ensures t == Rebuilt(list)
  {
    t := map[];
    for i := 0 to |list|
      invariant t == Rebuilt(list[..i])
    {
      assert list[..i + 1][..i] == list[..i];
      t := t[list[i].fd := (list[i].isTx, list[i].offset, list[i].size)];
    }
    assert list[..|list|] == list;
  }

  lemma {:induction false} RebuiltHolds(list: seq<Pipe>, t: Table, n: nat, fd: u32)
    requires Entries(list, t) && n <= |list|
    ensures var r := Rebuilt(list[..n]);
            (fd in r <==> Has(list, n, fd)) && (fd in r ==> fd in t && r[fd] == t[fd])
  {
    hide Has;
    if n > 0 {
      RebuiltHolds(list, t, n - 1, fd);
      HasNext(list, n, fd);
      assert list[..n][..n - 1] == list[..n - 1];
      assert list[n - 1] == EntryAt(t, list[n - 1].fd);
    } else {
      HasNone(list, fd);
    }
  }

  lemma HasNone(list: seq<Pipe>, fd: u32)
    ensures !Has(list, 0, fd)
  {
  }

  /** Whatever the order of the list, inserting it back gives the map. */
  lemma ListAndBack(list: seq<Pipe>, t: Table)
    requires Lists(list, t)
    ensures Rebuilt(list) == t
  {
    hide Has, Rebuilt, Entries, Distinct;
    assert list[..|list|] == list;
    forall fd: u32
      ensures fd in Rebuilt(list) <==> fd in t
      ensures fd in t ==> fd in Rebuilt(list) && Rebuilt(list)[fd] == t[fd]
    {
      RebuiltHolds(list, t, |list|, fd);
    }
  }

  lemma ListsRest(list: seq<Pipe>, t: Table)
    requires Lists(list, t) && list != []
    ensures var n := |list| - 1; list[n].fd in t && Lists(list[..n], t - {list[n].fd})
  {
    var n := |list| - 1;
    var rest := t - {list[n].fd};
    forall fd | fd in rest
      ensures Has(list[..n], n, fd)
    {
      assert Has(list, |list|, fd);
      var i :| 0 <= i < |list| && list[i].fd == fd;
      assert list[..n][i].fd == fd;
    }
  }

  lemma {:induction false} ListLength(list: seq<Pipe>, t: Table)
    requires Lists(list, t)
    ensures |list| == |t|
  {
    if list != [] {
      hide Lists;
      var n := |list| - 1;
      ListsRest(list, t);
      ListLength(list[..n], t - {list[n].fd});
      assert t.Keys == (t - {list[n].fd}).Keys + {list[n].fd};
    } else {
      assert t.Keys == {};
    }
  }

  // ---- The journey ----

  /** The fork message the parent's worker builds; an empty table is not sent at all. */
  function ForkMessage(mod: Module, memory: Option<Memory>, task: Task, list: seq<Pipe>): S.SchedulerMessage {
    S.SpawnWithModuleAndMemory(mod, memory, task, None, if list == [] then None else Some(list))
  }

  /** What the scheduler posts for it. */
  function Forwarded(m: S.SchedulerMessage): Option<P.Payload> {
    if m.SpawnWithModuleAndMemory? then Some(P.BlockingWithModuleAndMemory(m.mod, m.memory, m.task, m.stdio, m.forkPipes)) else None
  }

  /** From the parent's worker `w` through the scheduler to the child's worker. */
  function Journey(w: u32, m: S.SchedulerMessage): Result<P.Payload>
    requires W.Encode(W.Scheduler(m)).Some?
  {
    var arrived :- W.Decode(W.Encode(W.Scheduler(m)).value);
    var forwarded := Forwarded(W.Route(w, arrived));
    if forwarded.None? then Err else P.Decode(P.Encode(forwarded.value))
  }

  /** The table the child reconnects its descriptors from. */
  function ChildTable(p: P.Payload): Table {
    if p.BlockingWithModuleAndMemory? && p.forkPipes.Some? then Rebuilt(p.forkPipes.value) else map[]
  }

  lemma JourneyCarries(w: u32, m: S.SchedulerMessage)
    requires m.SpawnWithModuleAndMemory? && W.Encode(W.Scheduler(m)).Some?
    ensures Journey(w, m) == Ok(P.BlockingWithModuleAndMemory(
                                  m.mod, if m.task.sharesMemory then m.memory else None, m.task, None, Counted(m.forkPipes)))
  {
    hide W.Encode, W.Decode, P.Encode, P.Decode, Counted;
    W.RoundTrip(W.Scheduler(m));
    P.RoundTrip(Forwarded(S.Carried(m)).value);
    CountedTwice(m.forkPipes);
  }

  lemma CountedTwice(table: Option<seq<Pipe>>)
    ensures Counted(Counted(table)) == Counted(table)
  {
  }

  /** The child's table is the parent's, whatever the order of the list, exactly when it has fewer than 2^32 entries. */
  lemma ForkTableSurvives(w: u32, t: Table, list: seq<Pipe>, mod: Module, memory: Option<Memory>, task: Task)
    requires Lists(list, t)
    ensures var m := ForkMessage(mod, memory, task, list);
            && W.Encode(W.Scheduler(m)).Some?
            && Journey(w, m).Ok?
            && (ChildTable(Journey(w, m).value) == t <==> |t| < 0x1_0000_0000)
  {
    hide W.Encode, Journey, Lists, Rebuilt;
    var m := ForkMessage(mod, memory, task, list);
    assert W.Encode(W.Scheduler(m)).Some? by { Encodable(m); }
    JourneyCarries(w, m);
    ListLength(list, t);
    ListAndBack(list, t);
    EmptyTable();
    if list != [] && |list| >= 0x1_0000_0000 {
      TruncatedTableDiffers(list, t, ToU32(|list|));
    }
  }

  lemma EmptyTable()
    ensures Rebuilt([]) == map[]
  {
  }

  lemma Encodable(m: S.SchedulerMessage)
    requires m.SpawnWithModuleAndMemory?
    ensures W.Encode(W.Scheduler(m)).Some?
  {
  }

  lemma TruncatedTableDiffers(list: seq<Pipe>, t: Table, n: nat)
    requires Lists(list, t) && n < |list|
    ensures Rebuilt(list[..n]) != t
  {
    hide Rebuilt;
    RebuiltHolds(list, t, n, list[n].fd);
    assert list[n].fd in t;
  }
}
