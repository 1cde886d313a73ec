/** The table of pipes a forked child inherits, as indexed fields of a message object. */
module ForkPipes {
  import opened Words
  import opened JsObject

  const COUNT := "fork-pipe-count"
  const FD := "fork-pipe-fd-"
  const IS_TX := "fork-pipe-is-tx-"
  const OFFSET := "fork-pipe-offset-"
  const SIZE := "fork-pipe-size-"

  datatype Pipe = Pipe(fd: u32, isTx: bool, offset: u32, size: u32)

  function PutPipe(o: Fields, i: nat, p: Pipe): Fields {
    o[Key(FD, i) := Number(p.fd)][Key(IS_TX, i) := Boolean(p.isTx)][Key(OFFSET, i) := Number(p.offset)][Key(SIZE, i) := Number(p.size)]
  }

  function GetPipe(o: Fields, i: nat): Result<Pipe> {
    var fd :- GetU32(o, Key(FD, i));
    var isTx :- GetBool(o, Key(IS_TX, i));
    var offset :- GetU32(o, Key(OFFSET, i));
    var size :- GetU32(o, Key(SIZE, i));
    Ok(Pipe(fd, isTx, offset, size))
  }

  function PutFirst(o: Fields, pipes: seq<Pipe>, n: nat): Fields
    requires n <= |pipes|
  {
    if n == 0 then o else PutPipe(PutFirst(o, pipes, n - 1), n - 1, pipes[n - 1])
  }

  function GetFirst(o: Fields, n: nat): Result<seq<Pipe>> {
    if n == 0 then Ok([])
    else
      var pipes :- GetFirst(o, n - 1);
      var p :- GetPipe(o, n - 1);
      Ok(pipes + [p])
  }

  /** Nothing is written for `None`; the count is written `as u32`. */
  function PutPipes(o: Fields, table: Option<seq<Pipe>>): Fields {
    match table
    case None => o
    case Some(pipes) => PutFirst(o[COUNT := Number(ToU32(|pipes|))], pipes, |pipes|)
  }

  /** No readable count means `None`; a missing entry is an error. */
  function GetPipes(o: Fields): Result<Option<seq<Pipe>>> {
    var count := GetU32(o, COUNT);
    if count.Err? then Ok(None)
    else
      var pipes :- GetFirst(o, count.value);
      Ok(Some(pipes))
  }

  // ---- The loops ----

  method SerializePipes(ser: Serializer, pipes: seq<Pipe>)
    requires ser.Valid() && !ser.failed
    modifies ser
    ensures ser.Valid() && !ser.failed && ser.obj == PutPipes(old(ser.obj), Some(pipes))
  {
    ser.Set(COUNT, Number(ToU32(|pipes|)), false);
    ghost var o := ser.obj;
    for i := 0 to |pipes|
      invariant ser.Valid() && !ser.failed && ser.obj == PutFirst(o, pipes, i)
    {
      ser.Set(Key(FD, i), Number(pipes[i].fd), false);
      ser.Set(Key(IS_TX, i), Boolean(pipes[i].isTx), false);
      ser.Set(Key(OFFSET, i), Number(pipes[i].offset), false);
      ser.Set(Key(SIZE, i), Number(pipes[i].size), false);
    }
  }

  method DeserializePipes(o: Fields) returns (r: Result<Option<seq<Pipe>>>)
    ensures r == GetPipes(o)
  {
    var count := GetU32(o, COUNT);
    if count.Err? {
      return Ok(None);
    }
    var pipes: seq<Pipe> := [];
    for i := 0 to count.value
      invariant GetFirst(o, i) == Ok(pipes)
    {
      var p := GetPipe(o, i);
      if p.Err? {
        FirstErrorWins(o, i + 1, count.value);
        return Err;
      }
      pipes := pipes + [p.value];
    }
    r := Ok(Some(pipes));
  }

  lemma {:induction false} FirstErrorWins(o: Fields, n: nat, m: nat)
    requires n <= m && GetFirst(o, n).Err?
    ensures GetFirst(o, m).Err?
    decreases m
  {
    if n < m {
      FirstErrorWins(o, n, m - 1);
    }
  }

  // ---- The round trip ----

  lemma PrefixesDistinct()
    ensures IsPrefix(FD) && IsPrefix(IS_TX) && IsPrefix(OFFSET) && IsPrefix(SIZE)
    ensures FD != IS_TX && FD != OFFSET && FD != SIZE && IS_TX != OFFSET && IS_TX != SIZE && OFFSET != SIZE
    ensures !EndsInDigit(COUNT)
  {
  }

  /** Writing entry `i` leaves every other entry as it was, and every plain field. */
  lemma PutPipeFrame(o: Fields, i: nat, p: Pipe, j: nat, name: string)
    requires !EndsInDigit(name)
    ensures GetPipe(PutPipe(o, i, p), j) == if j == i then Ok(p) else GetPipe(o, j)
    ensures Get(PutPipe(o, i, p), name) == Get(o, name)
  {
    hide Key, EndsInDigit, IsPrefix;
    PrefixesDistinct();
    forall a, b | a in [FD, IS_TX, OFFSET, SIZE] && b in [FD, IS_TX, OFFSET, SIZE]
      ensures Key(a, i) == Key(b, j) <==> a == b && i == j
      ensures Key(a, i) == Key(b, i) <==> a == b
    {
      KeysDistinct(a, i, b, j);
      KeysDistinct(a, i, b, i);
    }
    forall a | a in [FD, IS_TX, OFFSET, SIZE]
      ensures Key(a, i) != name
    {
      KeyIsNoPlainName(a, i, name);
    }
  }

  lemma {:induction false} PutFirstFrame(o: Fields, pipes: seq<Pipe>, n: nat, name: string)
    requires n <= |pipes| && !EndsInDigit(name)
    ensures Get(PutFirst(o, pipes, n), name) == Get(o, name)
  {
    if n > 0 {
      PutFirstFrame(o, pipes, n - 1, name);
      PutPipeFrame(PutFirst(o, pipes, n - 1), n - 1, pipes[n - 1], 0, name);
    }
  }

  lemma {:induction false} EntryReadsBack(o: Fields, pipes: seq<Pipe>, n: nat, j: nat)
    requires j < n <= |pipes|
    ensures GetPipe(PutFirst(o, pipes, n), j) == Ok(pipes[j])
    decreases n
  {
    hide PutPipe, GetPipe;
    PutPipeFrame(PutFirst(o, pipes, n - 1), n - 1, pipes[n - 1], j, "");
    if j < n - 1 {
      EntryReadsBack(o, pipes, n - 1, j);
    }
  }

  lemma {:induction false} FirstReadBack(o: Fields, pipes: seq<Pipe>, n: nat)
    requires n <= |pipes|
    ensures GetFirst(PutFirst(o, pipes, |pipes|), n) == Ok(pipes[..n])
  {
    hide PutFirst, GetPipe;
    if n > 0 {
      FirstReadBack(o, pipes, n - 1);
      EntryReadsBack(o, pipes, |pipes|, n - 1);
      assert pipes[..n] == pipes[..n - 1] + [pipes[n - 1]];
    }
  }

  /** What arrives of a table: its length is taken modulo 2^32. */
  function Counted(table: Option<seq<Pipe>>): (r: Option<seq<Pipe>>)
    ensures r == table <==> (table.Some? ==> |table.value| < 0x1_0000_0000)
  {
    match table
    case None => None
    case Some(pipes) =>
      assert |pipes| == ToU32(|pipes|) ==> pipes[..ToU32(|pipes|)] == pipes;
      assert |pipes[..ToU32(|pipes|)]| == ToU32(|pipes|);
      Some(pipes[..ToU32(|pipes|)])
  }

  /** Over any object without a count, the table reads back as written, up to the count. */
  lemma PipesRoundTrip(o: Fields, table: Option<seq<Pipe>>)
    requires COUNT !in o
    ensures GetPipes(PutPipes(o, table)) == Ok(Counted(table))
  {
    hide EndsInDigit, IsPrefix, PutFirst, GetFirst;
    if table.Some? {
      var pipes := table.value;
      var o' := o[COUNT := Number(ToU32(|pipes|))];
      PrefixesDistinct();
      PutFirstFrame(o', pipes, |pipes|, COUNT);
      FirstReadBack(o', pipes, ToU32(|pipes|));
    }
  }

  /** The table leaves every other field of the message alone. */
  lemma PipesFrame(o: Fields, table: Option<seq<Pipe>>, name: string)
    requires !EndsInDigit(name) && name != COUNT
    ensures Get(PutPipes(o, table), name) == Get(o, name)
  {
    if table.Some? {
      PutFirstFrame(o[COUNT := Number(ToU32(|table.value|))], table.value, |table.value|, name);
    }
  }
}
