/**
 The 64 KiB shared buffer through which the scheduler answers a blocked worker: four 32-bit words
 (status, message type, length or exit code, session id), then the data bytes.
 */
module ResponseBuffer {
  import opened Words
  import opened SharedBytes

  const BUFFER_SIZE: nat := 0x1_0000
  const DATA_START: nat := 16
  const MAX_DATA: nat := BUFFER_SIZE - DATA_START

  const STATUS: nat := 0
  const MSG_TYPE: nat := 1
  const VALUE: nat := 2
  const SESSION: nat := 3

  const WAITING: i32 := 0
  const READY: i32 := 1
  const NOT_READY: i32 := 2

  const STDOUT: u32 := 1
  const STDERR: u32 := 2
  const EXIT: u32 := 3

  type Buffer = b: seq<byte> | |b| == BUFFER_SIZE witness seq(BUFFER_SIZE, _ => 0)

  /** A `Vec<u8>` in 32-bit WebAssembly is never longer than `isize::MAX`. */
  type Bytes = d: seq<byte> | |d| < 0x8000_0000

  /** What the scheduler answers a read with. */
  datatype Reply =
    | Data(msgType: u32, data: Bytes)
    | ExitCode(code: i32)
  {
    /** The queues hold no message of the exit type. */
    predicate Sound() { Data? ==> msgType != EXIT }
  }

  /** `HostExecOutput`. */
  datatype Output =
    | Exit(code: i32)
    | Stdout(data: Bytes)
    | Stderr(data: Bytes)
    | Raw(msgType: u32, data: Bytes)

  /** How a read ends: with an output, with nothing to read, or with one of its two failures. */
  datatype Answer = Got(output: Output) | Nothing | SessionMismatch | AllocationFailure

  /** The value the handler's side put in. */
  function OutputOf(r: Reply): Output {
    match r
    case ExitCode(code) => Exit(code)
    case Data(msgType, data) =>
      if msgType == EXIT then Exit(ToI32(|data|))
      else if msgType == STDOUT then Stdout(data)
      else if msgType == STDERR then Stderr(data)
      else Raw(msgType, data)
  }

  /** The reply an output came from. */
  function ReplyOf(o: Output): Reply {
    match o
    case Exit(code) => ExitCode(code)
    case Stdout(data) => Data(STDOUT, data)
    case Stderr(data) => Data(STDERR, data)
    case Raw(msgType, data) => Data(msgType, data)
  }

  // ---- Specification: what each side does to and reads from the buffer ----

  /** `Atomics.store` on the Int32Array view. */
  function StoreWord(buf: Buffer, index: nat, v: i32): Buffer
    requires index < 4
  {
    PokeWord(buf, 4 * index, ToU32(v))
  }

  /** `Atomics.load` on the Int32Array view. */
  function LoadWord(buf: Buffer, index: nat): i32
    requires index < 4
  {
    ToI32(PeekWord(buf, 4 * index))
  }

  /** Copy `data` in behind the words; bytes past the end of the array are dropped. */
  function StoreData(buf: Buffer, data: seq<byte>): Buffer {
    seq(BUFFER_SIZE, i requires 0 <= i < BUFFER_SIZE =>
      if DATA_START <= i < DATA_START + |data| then data[i - DATA_START] else buf[i])
  }

  /** Copy `n` data bytes out; bytes past the end of the array read as zero. */
  function LoadData(buf: Buffer, n: nat): (d: seq<byte>)
    ensures |d| == n
  {
    seq(n, i requires 0 <= i < n => if DATA_START + i < BUFFER_SIZE then buf[DATA_START + i] else 0)
  }

  /** `send_host_exec_read_response`. */
  function StoreReply(buf: Buffer, session: u64, r: Reply): Buffer {
    var typed := StoreWord(buf, MSG_TYPE, ToI32(if r.Data? then r.msgType else EXIT));
    var valued := StoreWord(typed, VALUE, if r.Data? then ToI32(|r.data|) else r.code);
    var tagged := StoreWord(valued, SESSION, ToI32(session));
    var filled := if r.Data? then StoreData(tagged, r.data) else tagged;
    StoreWord(filled, STATUS, READY)
  }

  /** `send_host_exec_try_read_no_data`, and `send_host_exec_poll_response`. */
  function StoreStatus(buf: Buffer, session: u64, status: i32): Buffer {
    StoreWord(StoreWord(buf, SESSION, ToI32(session)), STATUS, status)
  }

  /** The type, the value and the data as an output. A negative length cannot be allocated. */
  function DecodeOutput(buf: Buffer): (a: Answer)
    ensures a.Got? || a.AllocationFailure?
  {
    var msgType := ToU32(LoadWord(buf, MSG_TYPE));
    var v := LoadWord(buf, VALUE);
    if msgType == EXIT then Got(Exit(v))
    else if v < 0 then AllocationFailure
    else
      var data := LoadData(buf, v);
      Got(if msgType == STDOUT then Stdout(data) else if msgType == STDERR then Stderr(data) else Raw(msgType, data))
  }

  /** `host_exec_read` once it has woken up. */
  function DecodeRead(buf: Buffer, session: u64): Answer {
    if SignExtend(LoadWord(buf, SESSION)) != session then SessionMismatch else DecodeOutput(buf)
  }

  /** `host_exec_try_read` once it has woken up; it does not look at the session. */
  function DecodeTryRead(buf: Buffer): Answer {
    if LoadWord(buf, STATUS) == NOT_READY then Nothing else DecodeOutput(buf)
  }

  /** `host_exec_poll` once it has woken up. */
  predicate DecodePoll(buf: Buffer) {
    LoadWord(buf, STATUS) == READY
  }

  // ---- The order of the stores ----

  /** What the scheduler does to the buffer, one access at a time. */
  datatype Access =
    | Word(index: nat, value: i32)
    | Byte(at: nat, stored: byte)
    | Notified

  /** The buffer after some of the accesses; a byte past the end is dropped. */
  function Replay(buf: Buffer, accesses: seq<Access>): Buffer {
    if accesses == [] then buf
    else
      var b := Replay(buf, accesses[..|accesses| - 1]);
      match accesses[|accesses| - 1]
      case Word(index, v) => if index < 4 then StoreWord(b, index, v) else b
      case Byte(at, v) => if DATA_START + at < BUFFER_SIZE then b[DATA_START + at := v] else b
      case Notified => b
  }

  function ByteAccesses(data: seq<byte>): seq<Access> {
    seq(|data|, i requires 0 <= i < |data| => Byte(i, data[i]))
  }

  /** Type, value, session and data, then the status word, then the notify. */
  function ReplyAccesses(session: u64, r: Reply): seq<Access> {
    [Word(MSG_TYPE, ToI32(if r.Data? then r.msgType else EXIT)),
     Word(VALUE, if r.Data? then ToI32(|r.data|) else r.code),
     Word(SESSION, ToI32(session))]
    + (if r.Data? then ByteAccesses(r.data) else [])
    + [Word(STATUS, READY), Notified]
  }

  function StatusAccesses(session: u64, status: i32): seq<Access> {
    [Word(SESSION, ToI32(session)), Word(STATUS, status), Notified]
  }

  // ---- The two sides on the shared array ----

  /** A worker's buffer, with a ghost record of the scheduler's accesses, oldest first. */
  class HostExecBuffer {
    const bytes: array<byte>
    ghost var accesses: seq<Access>

    constructor ()
      ensures fresh(bytes) && bytes.Length == BUFFER_SIZE && accesses == []
    {
      bytes := new byte[BUFFER_SIZE](_ => 0);
      accesses := [];
    }

    method PutWord(index: nat, v: i32)
      requires bytes.Length == BUFFER_SIZE && index < 4
      modifies bytes, this`accesses
      ensures bytes[..] == StoreWord(old(bytes[..]), index, v)
      ensures accesses == old(accesses) + [Word(index, v)]
    {
      var w := ToU32(v);
      var at := 4 * index;
      bytes[at], bytes[at + 1] := w % 0x100, w / 0x100 % 0x100;
      bytes[at + 2], bytes[at + 3] := w / 0x1_0000 % 0x100, w / 0x100_0000 % 0x100;
      accesses := accesses + [Word(index, v)];
    }

    method GetWord(index: nat) returns (v: i32)
      requires bytes.Length == BUFFER_SIZE && index < 4
      ensures v == LoadWord(bytes[..], index)
    {
      var at := 4 * index;
      var (b0: int, b1: int, b2: int, b3: int) := (bytes[at], bytes[at + 1], bytes[at + 2], bytes[at + 3]);
      v := ToI32(b0 + 0x100 * b1 + 0x1_0000 * b2 + 0x100_0000 * b3);
    }

    method PutData(data: Bytes)
      requires bytes.Length == BUFFER_SIZE
      modifies bytes, this`accesses
      ensures bytes[..] == StoreData(old(bytes[..]), data)
      ensures accesses == old(accesses) + ByteAccesses(data)
    {
      for i := 0 to |data|
        invariant accesses == old(accesses) + ByteAccesses(data)[..i]
        invariant forall j :: 0 <= j < BUFFER_SIZE ==>
          bytes[j] == if DATA_START <= j < DATA_START + i then data[j - DATA_START] else old(bytes[j])
      {
        if DATA_START + i < bytes.Length {
          bytes[DATA_START + i] := data[i];
        }
        accesses := accesses + [Byte(i, data[i])];
      }
    }

    method GetData(n: nat) returns (data: seq<byte>)
      requires bytes.Length == BUFFER_SIZE
      ensures data == LoadData(bytes[..], n)
    {
      data := [];
      for i := 0 to n
        invariant data == LoadData(bytes[..], i)
      {
        data := data + [if DATA_START + i < bytes.Length then bytes[DATA_START + i] else 0];
      }
    }

    method Notify()
      modifies this`accesses
      ensures accesses == old(accesses) + [Notified]
    {
      accesses := accesses + [Notified];
    }

    /** The scheduler's side. */
    method SendReadResponse(session: u64, r: Reply)
      requires bytes.Length == BUFFER_SIZE
      modifies bytes, this`accesses
      ensures bytes[..] == StoreReply(old(bytes[..]), session, r)
      ensures accesses == old(accesses) + ReplyAccesses(session, r)
    {
      hide StoreWord, StoreData, ToI32;
      PutWord(MSG_TYPE, ToI32(if r.Data? then r.msgType else EXIT));
      PutWord(VALUE, if r.Data? then ToI32(|r.data|) else r.code);
      PutWord(SESSION, ToI32(session));
      if r.Data? {
        PutData(r.data);
      }
      PutWord(STATUS, READY);
      Notify();
    }

    method SendStatus(session: u64, status: i32)
      requires bytes.Length == BUFFER_SIZE
      modifies bytes, this`accesses
      ensures bytes[..] == StoreStatus(old(bytes[..]), session, status)
      ensures accesses == old(accesses) + StatusAccesses(session, status)
    {
      hide StoreWord, ToI32;
      PutWord(SESSION, ToI32(session));
      PutWord(STATUS, status);
      Notify();
    }

    method SendTryReadNoData(session: u64)
      requires bytes.Length == BUFFER_SIZE
      modifies bytes, this`accesses
      ensures bytes[..] == StoreStatus(old(bytes[..]), session, NOT_READY)
      ensures accesses == old(accesses) + StatusAccesses(session, NOT_READY)
    {
      SendStatus(session, NOT_READY);
    }

    method SendPollResponse(session: u64, isReady: bool)
      requires bytes.Length == BUFFER_SIZE
      modifies bytes, this`accesses
      ensures bytes[..] == StoreStatus(old(bytes[..]), session, if isReady then READY else NOT_READY)
      ensures accesses == old(accesses) + StatusAccesses(session, if isReady then READY else NOT_READY)
    {
      SendStatus(session, if isReady then READY else NOT_READY);
    }

    /** The worker's side: the typed value, with the data copied out byte by byte. */
    method TakeOutput() returns (answer: Answer)
      requires bytes.Length == BUFFER_SIZE
      ensures answer == DecodeOutput(bytes[..])
    {
      var rawType := GetWord(MSG_TYPE);
      var msgType := ToU32(rawType);
      var v := GetWord(VALUE);
      if msgType == EXIT {
        return Got(Exit(v));
      }
      if v < 0 {
        return AllocationFailure;
      }
      var data := GetData(v);
      answer := Got(if msgType == STDOUT then Stdout(data)
                    else if msgType == STDERR then Stderr(data)
                    else Raw(msgType, data));
    }

    method TakeRead(session: u64) returns (answer: Answer)
      requires bytes.Length == BUFFER_SIZE
      ensures answer == DecodeRead(bytes[..], session)
    {
      var tag := GetWord(SESSION);
      if SignExtend(tag) != session {
        return SessionMismatch;
      }
      answer := TakeOutput();
    }

    method TakeTryRead() returns (answer: Answer)
      requires bytes.Length == BUFFER_SIZE
      ensures answer == DecodeTryRead(bytes[..])
    {
      var status := GetWord(STATUS);
      if status == NOT_READY {
        return Nothing;
      }
      answer := TakeOutput();
    }
  }

  // ---- Round trips ----

  /** The ids that survive `as i32` and back `as u64`: below 2^31, or the top 2^31 of the range. */
  predicate SessionFits(session: u64) {
    session < 0x8000_0000 || session >= 0xFFFF_FFFF_8000_0000
  }

  /** The data that survives: what does not fit behind the words must be zero. */
  predicate DataFits(data: seq<byte>) {
    forall i :: MAX_DATA <= i < |data| ==> data[i] == 0
  }

  lemma SessionTagRoundTrip(session: u64)
    ensures SignExtend(ToI32(session)) == session <==> SessionFits(session)
  {
  }

  lemma WordRoundTrip(buf: Buffer, index: nat, v: i32, other: nat)
    requires index < 4 && other < 4
    ensures LoadWord(StoreWord(buf, index, v), other) == if other == index then v else LoadWord(buf, other)
  {
    hide PokeWord, PeekWord, ToI32, ToU32;
    SignedRoundTrip(v);
    if other == index {
      PokedWordReads(buf, 4 * index, ToU32(v));
    } else {
      PokeLeavesOtherWords(buf, 4 * index, ToU32(v), 4 * other);
    }
  }

  lemma SignedRoundTrip(v: i32)
    ensures ToI32(ToU32(v)) == v
  {
  }

  lemma DataLeavesWords(buf: Buffer, data: seq<byte>, index: nat)
    requires index < 4
    ensures LoadWord(StoreData(buf, data), index) == LoadWord(buf, index)
  {
  }

  /** Behind any word store the data region is untouched. */
  lemma WordLeavesData(buf: Buffer, index: nat, v: i32, n: nat)
    requires index < 4
    ensures LoadData(StoreWord(buf, index, v), n) == LoadData(buf, n)
  {
  }

  lemma DataRoundTrip(buf: Buffer, data: seq<byte>)
    ensures LoadData(StoreData(buf, data), |data|) == data <==> DataFits(data)
    ensures |data| <= MAX_DATA ==> DataFits(data)
  {
    var read := LoadData(StoreData(buf, data), |data|);
    assert forall i :: 0 <= i < |data| ==> read[i] == if i < MAX_DATA then data[i] else 0;
  }

  /** What the four words of a stored reply hold, and its data region. */
  lemma StoredReply(buf: Buffer, session: u64, r: Reply)
    ensures var b := StoreReply(buf, session, r);
            && LoadWord(b, STATUS) == READY
            && LoadWord(b, MSG_TYPE) == ToI32(if r.Data? then r.msgType else EXIT)
            && LoadWord(b, VALUE) == (if r.Data? then |r.data| else r.code)
            && LoadWord(b, SESSION) == ToI32(session)
            && (r.Data? ==> (LoadData(b, |r.data|) == r.data <==> DataFits(r.data)))
  {
    hide LoadWord, StoreWord, StoreData, LoadData;
    var t: i32 := ToI32(if r.Data? then r.msgType else EXIT);
    var v: i32 := if r.Data? then ToI32(|r.data|) else r.code;
    var typed := StoreWord(buf, MSG_TYPE, t);
    var valued := StoreWord(typed, VALUE, v);
    var tagged := StoreWord(valued, SESSION, ToI32(session));
    var filled := if r.Data? then StoreData(tagged, r.data) else tagged;
    forall i | 0 <= i < 4
      ensures LoadWord(StoreReply(buf, session, r), i) ==
              if i == STATUS then READY else if i == MSG_TYPE then t else if i == VALUE then v else ToI32(session)
    {
      WordRoundTrip(buf, MSG_TYPE, t, i);
      WordRoundTrip(typed, VALUE, v, i);
      WordRoundTrip(valued, SESSION, ToI32(session), i);
      if r.Data? {
        DataLeavesWords(tagged, r.data, i);
      }
      WordRoundTrip(filled, STATUS, READY, i);
    }
    if r.Data? {
      DataRoundTrip(tagged, r.data);
      WordLeavesData(filled, STATUS, READY, |r.data|);
    }
  }

  /** A message type survives the trip through a signed word. */
  lemma TypeRoundTrip(msgType: u32)
    ensures ToU32(ToI32(msgType)) == msgType
  {
  }

  /** Whatever the buffer held, an output comes back unchanged exactly when its data fits. */
  lemma OutputRoundTrip(buf: Buffer, session: u64, r: Reply)
    requires r.Sound()
    ensures DecodeOutput(StoreReply(buf, session, r)) == Got(OutputOf(r)) <==> (r.Data? ==> DataFits(r.data))
    ensures LoadWord(StoreReply(buf, session, r), STATUS) == READY
  {
    hide LoadWord, StoreReply, LoadData, ToI32;
    StoredReply(buf, session, r);
    TypeRoundTrip(if r.Data? then r.msgType else EXIT);
  }

  /** A blocking read returns the reply exactly when the session id and the data both fit. */
  lemma ReadRoundTrip(buf: Buffer, session: u64, r: Reply)
    requires r.Sound()
    ensures DecodeRead(StoreReply(buf, session, r), session) == Got(OutputOf(r))
            <==> SessionFits(session) && (r.Data? ==> DataFits(r.data))
    ensures DecodeRead(StoreReply(buf, session, r), session) == SessionMismatch <==> !SessionFits(session)
  {
    hide LoadWord, StoreReply, DecodeOutput;
    StoredReply(buf, session, r);
    SessionTagRoundTrip(session);
    OutputRoundTrip(buf, session, r);
  }

  /** A non-blocking read returns the reply exactly when the data fits, whatever the session id. */
  lemma TryReadRoundTrip(buf: Buffer, session: u64, r: Reply)
    requires r.Sound()
    ensures DecodeTryRead(StoreReply(buf, session, r)) == Got(OutputOf(r)) <==> (r.Data? ==> DataFits(r.data))
    ensures DecodeTryRead(StoreStatus(buf, session, NOT_READY)) == Nothing
  {
    hide LoadWord, StoreWord, StoreReply, DecodeOutput;
    OutputRoundTrip(buf, session, r);
    WordRoundTrip(StoreWord(buf, SESSION, ToI32(session)), STATUS, NOT_READY, STATUS);
  }

  lemma PollRoundTrip(buf: Buffer, session: u64, ready: bool)
    ensures DecodePoll(StoreStatus(buf, session, if ready then READY else NOT_READY)) == ready
  {
    WordRoundTrip(StoreWord(buf, SESSION, ToI32(session)), STATUS, if ready then READY else NOT_READY, STATUS);
  }

  /** Decoding loses no information about the reply. */
  lemma OutputDeterminesReply(r: Reply)
    requires r.Sound()
    ensures ReplyOf(OutputOf(r)) == r
  {
  }

  // ---- What the order is for ----

  lemma {:induction false} ReplayAppend(buf: Buffer, a: seq<Access>, b: seq<Access>)
    ensures Replay(buf, a + b) == Replay(Replay(buf, a), b)
  {
    if b == [] {
      assert a + b == a;
    } else {
      ReplayAppend(buf, a, b[..|b| - 1]);
      assert (a + b)[..|a + b| - 1] == a + b[..|b| - 1];
    }
  }

  lemma {:induction false} ReplayBytes(buf: Buffer, data: seq<byte>, n: nat)
    requires n <= |data|
    ensures Replay(buf, ByteAccesses(data)[..n]) == StoreData(buf, data[..n])
  {
    if n > 0 {
      ReplayBytes(buf, data, n - 1);
      assert ByteAccesses(data)[..n][..n - 1] == ByteAccesses(data)[..n - 1];
      assert data[..n][..n - 1] == data[..n - 1];
    }
  }

  lemma ReplayWord(buf: Buffer, index: nat, v: i32)
    requires index < 4
    ensures Replay(buf, [Word(index, v)]) == StoreWord(buf, index, v)
    ensures Replay(buf, [Word(index, v), Notified]) == StoreWord(buf, index, v)
  {
    assert [Word(index, v), Notified][..1] == [Word(index, v)];
    assert [Word(index, v)][..0] == [];
  }

  /** An access other than a store to the status word leaves the status word as it is. */
  lemma {:induction false} ReplayKeepsStatus(buf: Buffer, accesses: seq<Access>)
    requires forall i :: 0 <= i < |accesses| && accesses[i].Word? ==> accesses[i].index != STATUS
    ensures LoadWord(Replay(buf, accesses), STATUS) == LoadWord(buf, STATUS)
  {
    if accesses != [] {
      hide StoreWord, LoadWord;
      var front := accesses[..|accesses| - 1];
      var b := Replay(buf, front);
      ReplayKeepsStatus(buf, front);
      match accesses[|accesses| - 1]
      case Word(index, v) => if index < 4 { WordRoundTrip(b, index, v, STATUS); }
      case Byte(at, v) => if DATA_START + at < BUFFER_SIZE { ByteLeavesWords(b, at, v); }
      case Notified =>
    }
  }

  lemma ByteLeavesWords(buf: Buffer, at: nat, v: byte)
    requires DATA_START + at < BUFFER_SIZE
    ensures LoadWord(buf[DATA_START + at := v], STATUS) == LoadWord(buf, STATUS)
  {
  }

  /**
   The accesses of a reply amount to its image. A reader that finds the status word nonzero finds the
   whole answer: until the status store, the last but one access, the word is as it was. The notify
   comes after it.
   */
  lemma ReplyIsCompleteAtStatus(buf: Buffer, session: u64, r: Reply, n: nat)
    requires n <= |ReplyAccesses(session, r)|
    ensures var all := ReplyAccesses(session, r); var m := |all| - 2;
            && all[m..] == [Word(STATUS, READY), Notified]
            && (n <= m ==> LoadWord(Replay(buf, all[..n]), STATUS) == LoadWord(buf, STATUS))
            && (n > m ==> Replay(buf, all[..n]) == StoreReply(buf, session, r))
  {
    hide StoreWord, LoadWord, StoreData, ToI32;
    var all := ReplyAccesses(session, r);
    var m := |all| - 2;
    var t: i32 := ToI32(if r.Data? then r.msgType else EXIT);
    var v: i32 := if r.Data? then ToI32(|r.data|) else r.code;
    var data := if r.Data? then ByteAccesses(r.data) else [];
    var words := [Word(MSG_TYPE, t)] + [Word(VALUE, v)] + [Word(SESSION, ToI32(session))];
    assert all[..m] == words + data && all[m..] == [Word(STATUS, READY), Notified];
    if n <= m {
      ReplayKeepsStatus(buf, all[..n]);
    } else {
      var last := if n == m + 1 then [Word(STATUS, READY)] else [Word(STATUS, READY), Notified];
      assert all[..n] == words + data + last;
      ReplayAppend(buf, words + data, last);
      ReplayAppend(buf, words, data);
      ReplayAppend(buf, [Word(MSG_TYPE, t)] + [Word(VALUE, v)], [Word(SESSION, ToI32(session))]);
      ReplayAppend(buf, [Word(MSG_TYPE, t)], [Word(VALUE, v)]);
      ReplayWord(buf, MSG_TYPE, t);
      var typed := StoreWord(buf, MSG_TYPE, t);
      ReplayWord(typed, VALUE, v);
      var valued := StoreWord(typed, VALUE, v);
      ReplayWord(valued, SESSION, ToI32(session));
      var tagged := StoreWord(valued, SESSION, ToI32(session));
      if r.Data? {
        ReplayBytes(tagged, r.data, |r.data|);
        assert ByteAccesses(r.data)[..|r.data|] == ByteAccesses(r.data) && r.data[..|r.data|] == r.data;
      }
      ReplayWord(if r.Data? then StoreData(tagged, r.data) else tagged, STATUS, READY);
    }
  }

  /** The same for an answer that is only a status. */
  lemma StatusIsCompleteAtStatus(buf: Buffer, session: u64, status: i32, n: nat)
    requires n <= 3
    ensures var all := StatusAccesses(session, status);
            && (n <= 1 ==> LoadWord(Replay(buf, all[..n]), STATUS) == LoadWord(buf, STATUS))
            && (n > 1 ==> Replay(buf, all[..n]) == StoreStatus(buf, session, status))
  {
    hide StoreWord, LoadWord, ToI32;
    var all := StatusAccesses(session, status);
    var tag := [Word(SESSION, ToI32(session))];
    if n <= 1 {
      ReplayKeepsStatus(buf, all[..n]);
    } else {
      var last := if n == 2 then [Word(STATUS, status)] else [Word(STATUS, status), Notified];
      assert all[..n] == tag + last;
      ReplayAppend(buf, tag, last);
      ReplayWord(buf, SESSION, ToI32(session));
      ReplayWord(StoreWord(buf, SESSION, ToI32(session)), STATUS, status);
    }
  }
}
