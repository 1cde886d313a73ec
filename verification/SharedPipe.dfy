/**
 The two ends of a pipe as the source writes them (src/pipes/mod.rs): objects holding an
 offset into the shared array, whose calls load and store header words and copy bytes in two
 chunks. Each call is proved to be the byte-queue operation, touching only its own region.
 */
module SharedPipe {
  import opened Words
  import opened Ring
  import opened PipeMemory
  import opened SharedBytes
  import opened PipeProtocol
  import opened PipeSafety
  import PipePool

  /** The header word at `at` of the shared array. */
  method AtomicLoad(pool: array<byte>, at: nat) returns (v: u32)
    requires at + 4 <= pool.Length
    ensures v == PeekWord(pool[..], at)
  {
    v := PeekWord(pool[at..at + 4], 0);
  }

  method AtomicStore(pool: array<byte>, at: nat, v: u32)
    requires at + 4 <= pool.Length
    modifies pool
    ensures pool[..] == PokeWord(old(pool[..]), at, v)
  {
    pool[at] := v % 0x100;
    pool[at + 1] := v / 0x100 % 0x100;
    pool[at + 2] := v / 0x1_0000 % 0x100;
    pool[at + 3] := v / 0x100_0000 % 0x100;
  }

  method AtomicAdd(pool: array<byte>, at: nat, delta: int) returns (previous: u32)
    requires at + 4 <= pool.Length
    modifies pool
    ensures previous == PeekWord(old(pool[..]), at)
    ensures pool[..] == PokeWord(old(pool[..]), at, WrappingAdd(previous, delta))
  {
    previous := AtomicLoad(pool, at);
    AtomicStore(pool, at, WrappingAdd(previous, delta));
  }

  /** A region of `size` bytes at `offset` that holds a well-formed pipe. */
  ghost predicate HoldsPipe(bytes: seq<byte>, offset: nat, size: nat) {
    && HEADER_SIZE < size <= PipePool.PIPE_POOL_SIZE && offset + size <= |bytes|
    && var m := View(bytes, offset, size - HEADER_SIZE);
       m.writePos < size - HEADER_SIZE && m.readPos < size - HEADER_SIZE
  }

  /** Nothing outside the region differs. */
  ghost predicate OnlyRegion(before: seq<byte>, after: seq<byte>, offset: nat, size: nat) {
    && |before| == |after|
    && forall i :: 0 <= i < |before| && (i < offset || offset + size <= i) ==> after[i] == before[i]
  }

  /** Storing one header word is exactly that, seen through the view. */
  lemma StoreSeenThroughView(before: seq<byte>, after: seq<byte>, offset: nat, size: nat, f: Field, v: u32)
    requires HEADER_SIZE < size && offset + size <= |before|
    requires after == PokeWord(before, offset + 4 * f.Index(), v)
    ensures View(after, offset, size - HEADER_SIZE) == View(before, offset, size - HEADER_SIZE).SetWord(f, v)
    ensures OnlyRegion(before, after, offset, size)
  {
    PokeIsSetWord(before, offset, size - HEADER_SIZE, f, v);
  }

  /** `bytes` with `chunk` written at `at`. */
  function Splice(bytes: seq<byte>, at: nat, chunk: seq<byte>): (r: seq<byte>)
    requires at + |chunk| <= |bytes|
    ensures |r| == |bytes|
    ensures forall i :: 0 <= i < |bytes| ==> r[i] == if at <= i < at + |chunk| then chunk[i - at] else bytes[i]
  {
    bytes[..at] + chunk + bytes[at + |chunk|..]
  }

  lemma SplicesInARow(bytes: seq<byte>, first: seq<byte>, second: seq<byte>)
    requires |first| + |second| <= |bytes|
    ensures var r := Splice(Splice(bytes, 0, first), |first|, second); var n := |first| + |second|;
            r[..n] == first + second && r[n..] == bytes[n..]
  {
  }

  /** Store `chunk` at `at`, one byte at a time. */
  method StoreChunk(pool: array<byte>, at: nat, chunk: seq<byte>)
    requires at + |chunk| <= pool.Length
    modifies pool
    ensures pool[..] == Splice(old(pool[..]), at, chunk)
  {
    for i := 0 to |chunk|
      invariant pool[..] == old(pool[..at]) + chunk[..i] + old(pool[at + i..])
    {
      pool[at + i] := chunk[i];
    }
  }

  /** Load `n` bytes from `at` into `buf` from position `to` on, one byte at a time. */
  method LoadChunk(pool: array<byte>, at: nat, n: nat, buf: array<byte>, to: nat)
    requires buf != pool && at + n <= pool.Length && to + n <= buf.Length
    modifies buf
    ensures buf[..] == Splice(old(buf[..]), to, pool[at..at + n])
  {
    for i := 0 to n
      invariant buf[..] == old(buf[..to]) + pool[at..at + i] + old(buf[to + i..])
    {
      buf[to + i] := pool[at + i];
    }
  }

  /** Load `n` bytes of the ring at `base` from `readPos` on, in up to two chunks. */
  method LoadChunks(pool: array<byte>, base: nat, capacity: nat, readPos: nat, buf: array<byte>, n: nat)
    requires buf != pool && base + capacity <= pool.Length && readPos < capacity && n <= capacity && n <= buf.Length
    modifies buf
    ensures var first := Min(capacity - readPos, n);
            buf[..n] == pool[base + readPos..base + readPos + first] + pool[base..base + (n - first)]
    ensures buf[n..] == old(buf[n..])
  {
    hide Splice;
    var firstChunkSize := Min(capacity - readPos, n);
    var secondChunkSize := n - firstChunkSize;
    ghost var before := buf[..];
    ghost var first := pool[base + readPos..base + readPos + firstChunkSize];
    ghost var second := pool[base..base + secondChunkSize];
    LoadChunk(pool, base + readPos, firstChunkSize, buf, 0);
    LoadChunk(pool, base, secondChunkSize, buf, firstChunkSize);
    SplicesInARow(before, first, second);
    assert buf[..n] == buf[..][..n] && buf[n..] == buf[..][n..] && before[n..] == old(buf[n..]);
  }

  /** The two chunks a write stores. */
  function StoredChunks(bytes: seq<byte>, base: nat, capacity: nat, writePos: nat, data: seq<byte>, n: nat): (r: seq<byte>)
    requires writePos < capacity && n <= |data| && n < capacity && base + capacity <= |bytes|
    ensures |r| == |bytes|
  {
    var first := Min(capacity - writePos, n);
    Splice(Splice(bytes, base + writePos, data[..first]), base, data[first..n])
  }

  /** Where each byte of the array comes from once both chunks are stored. */
  lemma StoredByte(bytes: seq<byte>, base: nat, capacity: nat, writePos: nat, data: seq<byte>, n: nat, i: nat)
    requires writePos < capacity && n <= |data| && n < capacity && base + capacity <= |bytes| && i < |bytes|
    ensures var stored := StoredChunks(bytes, base, capacity, writePos, data, n);
            var first := Min(capacity - writePos, n);
            stored[i] == if base <= i < base + (n - first) then data[first + (i - base)]
                         else if base + writePos <= i < base + writePos + first then data[i - base - writePos]
                         else bytes[i]
  {
    var first := Min(capacity - writePos, n);
    var once := Splice(bytes, base + writePos, data[..first]);
    assert once[i] == if base + writePos <= i < base + writePos + first then data[i - base - writePos] else bytes[i];
    assert Splice(once, base, data[first..n])[i] == if base <= i < base + (n - first) then data[first..n][i - base] else once[i];
  }

  lemma StoredChunksFillSlots(bytes: seq<byte>, base: nat, capacity: nat, writePos: nat, data: seq<byte>, n: nat)
    requires writePos < capacity && n <= |data| && n < capacity && base + capacity <= |bytes|
    ensures var stored := StoredChunks(bytes, base, capacity, writePos, data, n);
            var ring := bytes[base..base + capacity];
            var ring' := stored[base..base + capacity];
            && (forall k :: 0 <= k < n ==> ring'[Slot(writePos, k, capacity)] == data[k])
            && (forall s :: 0 <= s < capacity && !InWindow(s, writePos, n, capacity) ==> ring'[s] == ring[s])
            && (forall i :: 0 <= i < |bytes| && !(base <= i < base + capacity) ==> stored[i] == bytes[i])
  {
    hide StoredChunks;
    var stored := StoredChunks(bytes, base, capacity, writePos, data, n);
    var ring := bytes[base..base + capacity];
    var ring' := stored[base..base + capacity];
    forall k | 0 <= k < n ensures ring'[Slot(writePos, k, capacity)] == data[k] {
      StoredByte(bytes, base, capacity, writePos, data, n, base + Slot(writePos, k, capacity));
    }
    forall s | 0 <= s < capacity && !InWindow(s, writePos, n, capacity) ensures ring'[s] == ring[s] {
      StoredByte(bytes, base, capacity, writePos, data, n, base + s);
    }
    forall i | 0 <= i < |bytes| && !(base <= i < base + capacity) ensures stored[i] == bytes[i] {
      StoredByte(bytes, base, capacity, writePos, data, n, i);
    }
  }

  /** Two chunks stored from the write position on fill exactly the n free slots there and leave the queue alone. */
  lemma StoringKeepsQueue(before: seq<byte>, offset: nat, capacity: nat, data: seq<byte>, n: nat)
    requires HoldsPipe(before, offset, HEADER_SIZE + capacity)
    requires n <= |data| && n <= Free(View(before, offset, capacity))
    ensures var m := View(before, offset, capacity);
            var after := StoredChunks(before, offset + HEADER_SIZE, capacity, m.writePos, data, n);
            var m' := View(after, offset, capacity);
            && HoldsPipe(after, offset, HEADER_SIZE + capacity) && OnlyRegion(before, after, offset, HEADER_SIZE + capacity)
            && m' == m.(data := m'.data) && Queue(m') == Queue(m)
            && forall k :: 0 <= k < n ==> m'.data[Slot(m.writePos, k, capacity)] == data[k]
  {
    hide StoredChunks;
    var m := View(before, offset, capacity);
    var after := StoredChunks(before, offset + HEADER_SIZE, capacity, m.writePos, data, n);
    StoredChunksFillSlots(before, offset + HEADER_SIZE, capacity, m.writePos, data, n);
    var m' := View(after, offset, capacity);
    FillingKeepsContents(m.data, m'.data, m.writePos, m.readPos, n);
  }

  /** The two chunks a read loads are the front of the queue. */
  lemma LoadedChunksAreQueue(bytes: seq<byte>, offset: nat, capacity: nat, n: nat)
    requires HoldsPipe(bytes, offset, HEADER_SIZE + capacity) && n <= Avail(View(bytes, offset, capacity))
    ensures var m := View(bytes, offset, capacity); var base := offset + HEADER_SIZE;
            var first := Min(capacity - m.readPos, n);
            && |Queue(m)| >= n && n <= capacity
            && bytes[base + m.readPos..base + m.readPos + first] + bytes[base..base + (n - first)] == Queue(m)[..n]
  {
    var m := View(bytes, offset, capacity);
    var base := offset + HEADER_SIZE;
    var first := Min(capacity - m.readPos, n);
    SpaceAndDataPartition(m.data, m.writePos, m.readPos);
    var loaded := bytes[base + m.readPos..base + m.readPos + first] + bytes[base..base + (n - first)];
    forall k | 0 <= k < n ensures loaded[k] == Queue(m)[k] {
      ContentsAt(m.data, m.writePos, m.readPos, k);
    }
  }

  class SharedPipeTx {
    const pool: array<byte>
    const poolOffset: nat
    const bufferSize: nat
    const dataCapacity: nat

    ghost predicate Valid()
      reads this, pool
    {
      HoldsPipe(pool[..], poolOffset, bufferSize) && dataCapacity == bufferSize - HEADER_SIZE
    }

    ghost function Memory(): Mem
      requires Valid()
      reads this, pool
    {
      View(pool[..], poolOffset, dataCapacity)
    }

    /** `SharedPipeTx::from_pool_offset`: a further end on an existing pipe, counted. */
    constructor FromPoolOffset(pool: array<byte>, offset: nat, size: nat)
      requires HoldsPipe(pool[..], offset, size)
      modifies pool
      ensures this.pool == pool && poolOffset == offset && bufferSize == size && Valid()
      ensures var m := old(View(pool[..], offset, size - HEADER_SIZE));
              Memory() == m.(txCount := WrappingAdd(m.txCount, 1))
      ensures OnlyRegion(old(pool[..]), pool[..], offset, size)
    {
      this.pool := pool;
      poolOffset := offset;
      bufferSize := size;
      dataCapacity := size - HEADER_SIZE;
      new;
      var previous := AtomicAdd(pool, offset + 4 * TxCount.Index(), 1);
      StoreSeenThroughView(old(pool[..]), pool[..], offset, size, TxCount, WrappingAdd(previous, 1));
    }

    method LoadHeader(f: Field) returns (v: u32)
      requires Valid()
      ensures v == Memory().Word(f)
    {
      v := AtomicLoad(pool, poolOffset + 4 * f.Index());
    }

    method IsClosed() returns (closed: bool)
      requires Valid()
      ensures closed == (Memory().closed != 0)
    {
      var flag := LoadHeader(Closed);
      closed := flag != 0;
    }

    method FreeSpace() returns (free: nat)
      requires Valid()
      ensures free == Free(Memory())
    {
      var writePos := LoadHeader(WritePos);
      var readPos := LoadHeader(ReadPos);
      if writePos >= readPos {
        free := dataCapacity - (writePos - readPos) - 1;
      } else {
        free := readPos - writePos - 1;
      }
    }

    /** `Close`: the flag goes up, nothing else changes. */
    method Close()
      requires Valid()
      modifies pool
      ensures Valid() && Memory() == old(Memory()).(closed := 1)
      ensures OnlyRegion(old(pool[..]), pool[..], poolOffset, bufferSize)
    {
      AtomicStore(pool, poolOffset + 4 * Closed.Index(), 1);
      StoreSeenThroughView(old(pool[..]), pool[..], poolOffset, bufferSize, Closed, 1);
    }

    /** `drop`: one reference less, and closed if that was the last one. */
    method Drop()
      requires Valid()
      modifies pool
      ensures Valid()
      ensures var m := old(Memory());
              Memory() == m.(txCount := WrappingAdd(m.txCount, -1), closed := if m.txCount == 1 then 1 else m.closed)
      ensures OnlyRegion(old(pool[..]), pool[..], poolOffset, bufferSize)
    {
      var previous := AtomicAdd(pool, poolOffset + 4 * TxCount.Index(), -1);
      StoreSeenThroughView(old(pool[..]), pool[..], poolOffset, bufferSize, TxCount, WrappingAdd(previous, -1));
      if previous == 1 {
        Close();
      }
    }

    /** Copy `n` bytes behind the write position, in up to two chunks, without publishing them. */
    method CopyIn(data: seq<byte>, n: nat, writePos: nat)
      requires Valid() && n <= |data| && n <= Free(Memory()) && writePos == Memory().writePos
      modifies pool
      ensures Valid() && OnlyRegion(old(pool[..]), pool[..], poolOffset, bufferSize)
      ensures Memory() == old(Memory()).(data := Memory().data) && Queue(Memory()) == old(Queue(Memory()))
      ensures forall k :: 0 <= k < n ==> Memory().data[Slot(writePos, k, dataCapacity)] == data[k]
    {
      hide View, Queue, Splice, Slot;
      StoringKeepsQueue(pool[..], poolOffset, dataCapacity, data, n);
      var base := poolOffset + HEADER_SIZE;
      var firstChunkSize := Min(dataCapacity - writePos, n);
      var secondChunkSize := n - firstChunkSize;
      StoreChunk(pool, base + writePos, data[..firstChunkSize]);
      StoreChunk(pool, base, data[firstChunkSize..n]);
    }

    /** `write_data`. */
    method WriteData(data: seq<byte>) returns (r: WriteResult)
      requires Valid()
      modifies pool
      ensures Valid() && OnlyRegion(old(pool[..]), pool[..], poolOffset, bufferSize)
      ensures var m := old(Memory());
              r == if m.closed != 0 then BrokenPipe
                   else if data == [] then Wrote(0)
                   else if Free(m) == 0 then WriteWouldBlock
                   else Wrote(Min(|data|, Free(m)))
      ensures !r.Wrote? ==> pool[..] == old(pool[..])
      ensures r.Wrote? ==> Queue(Memory()) == old(Queue(Memory())) + data[..r.n]
      ensures r.Wrote? ==> Memory() == old(Memory()).(writePos := Memory().writePos, data := Memory().data)
    {
      hide View, PeekWord, PokeWord, Contents;
      var closed := IsClosed();
      if closed {
        return BrokenPipe;
      }
      if data == [] {
        return Wrote(0);
      }
      var free := FreeSpace();
      if free == 0 {
        return WriteWouldBlock;
      }
      var toWrite := Min(|data|, free);
      var writePos := LoadHeader(WritePos);
      CopyIn(data, toWrite, writePos);
      ghost var copied := pool[..];
      ghost var m := Memory();
      PublishAppends(m.data, m.writePos, m.readPos, data, toWrite);
      NewPosIsSlot(m.writePos, toWrite, dataCapacity);
      AtomicStore(pool, poolOffset + 4 * WritePos.Index(), NewPos(writePos, toWrite, dataCapacity));
      StoreSeenThroughView(copied, pool[..], poolOffset, bufferSize, WritePos, NewPos(writePos, toWrite, dataCapacity));
      return Wrote(toWrite);
    }
  }

  class SharedPipeRx {
    const pool: array<byte>
    const poolOffset: nat
    const bufferSize: nat
    const dataCapacity: nat

    ghost predicate Valid()
      reads this, pool
    {
      HoldsPipe(pool[..], poolOffset, bufferSize) && dataCapacity == bufferSize - HEADER_SIZE
    }

    ghost function Memory(): Mem
      requires Valid()
      reads this, pool
    {
      View(pool[..], poolOffset, dataCapacity)
    }

    /** `SharedPipeRx::from_pool_offset`: receive ends are not counted. */
    constructor FromPoolOffset(pool: array<byte>, offset: nat, size: nat)
      requires HoldsPipe(pool[..], offset, size)
      ensures this.pool == pool && poolOffset == offset && bufferSize == size && Valid()
    {
      this.pool := pool;
      poolOffset := offset;
      bufferSize := size;
      dataCapacity := size - HEADER_SIZE;
    }

    method LoadHeader(f: Field) returns (v: u32)
      requires Valid()
      ensures v == Memory().Word(f)
    {
      v := AtomicLoad(pool, poolOffset + 4 * f.Index());
    }

    method DataAvailable() returns (n: nat)
      requires Valid()
      ensures n == Avail(Memory()) == |Queue(Memory())|
    {
      var writePos := LoadHeader(WritePos);
      var readPos := LoadHeader(ReadPos);
      SpaceAndDataPartition(Memory().data, Memory().writePos, Memory().readPos);
      if writePos >= readPos {
        n := writePos - readPos;
      } else {
        n := dataCapacity - readPos + writePos;
      }
    }

    method IsClosed() returns (closed: bool)
      requires Valid()
      ensures closed == (Memory().closed != 0)
    {
      var flag := LoadHeader(Closed);
      closed := flag != 0;
    }

    /** Copy the first `n` queued bytes into `buf` without consuming them. */
    method CopyOut(buf: array<byte>, n: nat, readPos: nat)
      requires Valid() && buf != pool && n <= buf.Length && n <= Avail(Memory()) && readPos == Memory().readPos
      modifies buf
      ensures pool[..] == old(pool[..]) && Valid()
      ensures buf[..n] == Queue(Memory())[..n] && buf[n..] == old(buf[n..])
    {
      hide View, Queue, Avail, PeekWord, Splice;
      LoadedChunksAreQueue(pool[..], poolOffset, dataCapacity, n);
      ghost var bytes := pool[..];
      LoadChunks(pool, poolOffset + HEADER_SIZE, dataCapacity, readPos, buf, n);
      assert pool[..] == bytes;
    }

    /** `try_read`: Some(0) is end of file unless the buffer is empty, None is would-block. */
    method TryRead(buf: array<byte>) returns (r: Option<nat>)
      requires Valid() && buf != pool
      modifies pool, buf
      ensures Valid() && OnlyRegion(old(pool[..]), pool[..], poolOffset, bufferSize)
      ensures var q := old(Queue(Memory()));
              && r == (if q == [] then (if old(Memory().closed) != 0 then Some(0) else None) else Some(Min(buf.Length, |q|)))
              && (r.Some? ==> r.value <= buf.Length && q == buf[..r.value] + Queue(Memory()) && buf[r.value..] == old(buf[r.value..]))
              && (r.None? ==> pool[..] == old(pool[..]) && buf[..] == old(buf[..]))
      ensures Memory() == old(Memory()).(readPos := Memory().readPos)
    {
      hide View, PeekWord, PokeWord, Contents;
      var available := DataAvailable();
      if available == 0 {
        var closed := IsClosed();
        return if closed then Some(0) else None;
      }
      var toRead := Min(buf.Length, available);
      var readPos := LoadHeader(ReadPos);
      CopyOut(buf, toRead, readPos);
      ghost var m := Memory();
      AdvancePops(m.data, m.writePos, m.readPos, toRead);
      NewPosIsSlot(m.readPos, toRead, dataCapacity);
      AtomicStore(pool, poolOffset + 4 * ReadPos.Index(), NewPos(readPos, toRead, dataCapacity));
      StoreSeenThroughView(old(pool[..]), pool[..], poolOffset, bufferSize, ReadPos, NewPos(readPos, toRead, dataCapacity));
      return Some(toRead);
    }
  }

  /**
   `SharedPipe::with_capacity` after its region was claimed: whatever bytes were there, an open
   empty pipe with one transmit end.
   */
  method InitialiseHeader(pool: array<byte>, offset: nat, size: nat)
    requires HEADER_SIZE < size <= PipePool.PIPE_POOL_SIZE && offset + size <= pool.Length
    modifies pool
    ensures HoldsPipe(pool[..], offset, size) && OnlyRegion(old(pool[..]), pool[..], offset, size)
    ensures var m := View(pool[..], offset, size - HEADER_SIZE);
            m == Mem(0, 0, 0, 0, 1, m.data) && Queue(m) == []
  {
    ghost var s0 := pool[..];
    AtomicStore(pool, offset + 4 * WritePos.Index(), 0);
    StoreSeenThroughView(s0, pool[..], offset, size, WritePos, 0);
    ghost var s1 := pool[..];
    AtomicStore(pool, offset + 4 * ReadPos.Index(), 0);
    StoreSeenThroughView(s1, pool[..], offset, size, ReadPos, 0);
    ghost var s2 := pool[..];
    AtomicStore(pool, offset + 4 * Closed.Index(), 0);
    StoreSeenThroughView(s2, pool[..], offset, size, Closed, 0);
    ghost var s3 := pool[..];
    AtomicStore(pool, offset + 4 * Notify.Index(), 0);
    StoreSeenThroughView(s3, pool[..], offset, size, Notify, 0);
    ghost var s4 := pool[..];
    AtomicStore(pool, offset + 4 * TxCount.Index(), 1);
    StoreSeenThroughView(s4, pool[..], offset, size, TxCount, 1);
  }
}
