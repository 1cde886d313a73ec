/** The ring-buffer arithmetic of src/pipes/mod.rs and the byte queue it represents. */
module Ring {
  import opened Words

  /** `data_available`: bytes between the read and the write position. */
  function Available(writePos: nat, readPos: nat, capacity: nat): nat
    requires writePos < capacity && readPos < capacity
  {
    if writePos >= readPos then writePos - readPos else capacity - readPos + writePos
  }

  /** `free_space`: one slot is always left unused. */
  function FreeSpace(writePos: nat, readPos: nat, capacity: nat): nat
    requires writePos < capacity && readPos < capacity
  {
    if writePos >= readPos then capacity - (writePos - readPos) - 1 else readPos - writePos - 1
  }

  /** Byte `i` of an `n`-byte transfer starting at `pos`: first chunk up to the end of the buffer, second from its start. */
  function ChunkSlot(pos: nat, n: nat, i: nat, capacity: nat): nat
    requires pos <= capacity && i < n
  {
    var firstChunkSize := Min(capacity - pos, n);
    if i < firstChunkSize then pos + i else i - firstChunkSize
  }

  /** The position after a transfer of `n` bytes. */
  function NewPos(pos: nat, n: nat, capacity: nat): nat
    requires capacity > 0
  {
    (pos + n) % capacity
  }

  /** The slot `k` places after `pos`, for k below the capacity, without the modulus. */
  function Slot(pos: nat, k: nat, capacity: nat): nat
    requires pos < capacity && k <= capacity
  {
    if pos + k < capacity then pos + k else pos + k - capacity
  }

  /** The queue that (data, writePos, readPos) stands for. */
  function Contents(data: seq<byte>, writePos: nat, readPos: nat): seq<byte>
    requires writePos < |data| && readPos < |data|
  {
    if writePos >= readPos then data[readPos..writePos] else data[readPos..] + data[..writePos]
  }

  lemma NewPosIsSlot(pos: nat, n: nat, capacity: nat)
    requires pos < capacity && n <= capacity
    ensures NewPos(pos, n, capacity) == Slot(pos, n, capacity)
  {
    Wrap(pos + n, capacity);
  }

  lemma Wrap(x: nat, capacity: nat)
    requires x < 2 * capacity
    ensures x % capacity == if x < capacity then x else x - capacity
  {
    assert x >= capacity ==> x / capacity == 1;
  }

  lemma ChunkSlotIsSlot(pos: nat, n: nat, i: nat, capacity: nat)
    requires pos < capacity && i < n <= capacity
    ensures ChunkSlot(pos, n, i, capacity) == Slot(pos, i, capacity) < capacity
  {
  }

  /** The ring holds at most capacity - 1 bytes and free space and data partition it. */
  lemma SpaceAndDataPartition(data: seq<byte>, writePos: nat, readPos: nat)
    requires writePos < |data| && readPos < |data|
    ensures |Contents(data, writePos, readPos)| == Available(writePos, readPos, |data|)
    ensures Available(writePos, readPos, |data|) + FreeSpace(writePos, readPos, |data|) == |data| - 1
  {
  }

  /** No slot a writer may fill is one a reader may copy out. */
  lemma FreeAndFullSlotsDisjoint(writePos: nat, readPos: nat, capacity: nat, j: nat, k: nat)
    requires writePos < capacity && readPos < capacity
    requires j < FreeSpace(writePos, readPos, capacity) && k < Available(writePos, readPos, capacity)
    ensures Slot(writePos, j, capacity) != Slot(readPos, k, capacity)
  {
  }

  lemma ContentsAt(data: seq<byte>, writePos: nat, readPos: nat, k: nat)
    requires writePos < |data| && readPos < |data|
    requires k < Available(writePos, readPos, |data|)
    ensures |Contents(data, writePos, readPos)| == Available(writePos, readPos, |data|)
    ensures Contents(data, writePos, readPos)[k] == data[Slot(readPos, k, |data|)]
  {
  }

  /** Filling a free slot does not disturb the queue. */
  lemma FillKeepsContents(data: seq<byte>, writePos: nat, readPos: nat, j: nat, b: byte)
    requires writePos < |data| && readPos < |data|
    requires j < FreeSpace(writePos, readPos, |data|)
    ensures Contents(data[Slot(writePos, j, |data|) := b], writePos, readPos) == Contents(data, writePos, readPos)
  {
    var filled := data[Slot(writePos, j, |data|) := b];
    var before := Contents(data, writePos, readPos);
    var after := Contents(filled, writePos, readPos);
    forall k | 0 <= k < |before| ensures before[k] == after[k] {
      ContentsAt(data, writePos, readPos, k);
      ContentsAt(filled, writePos, readPos, k);
      FreeAndFullSlotsDisjoint(writePos, readPos, |data|, j, k);
    }
  }

  /** `s` is one of the `n` slots from `pos` on. */
  predicate InWindow(s: nat, pos: nat, n: nat, capacity: nat) {
    pos <= s < pos + n || s + capacity < pos + n
  }

  /** Filling any number of free slots does not disturb the queue. */
  lemma FillingKeepsContents(data: seq<byte>, filled: seq<byte>, writePos: nat, readPos: nat, n: nat)
    requires writePos < |data| == |filled| && readPos < |data|
    requires n <= FreeSpace(writePos, readPos, |data|)
    requires forall s :: 0 <= s < |data| && !InWindow(s, writePos, n, |data|) ==> filled[s] == data[s]
    ensures Contents(filled, writePos, readPos) == Contents(data, writePos, readPos)
  {
    var before := Contents(data, writePos, readPos);
    var after := Contents(filled, writePos, readPos);
    forall k | 0 <= k < |before| ensures before[k] == after[k] {
      ContentsAt(data, writePos, readPos, k);
      ContentsAt(filled, writePos, readPos, k);
      assert !InWindow(Slot(readPos, k, |data|), writePos, n, |data|);
    }
  }

  /** Publishing `n` filled slots appends them to the queue. */
  lemma PublishAppends(data: seq<byte>, writePos: nat, readPos: nat, src: seq<byte>, n: nat)
    requires writePos < |data| && readPos < |data|
    requires n <= FreeSpace(writePos, readPos, |data|) && n <= |src|
    requires forall k :: 0 <= k < n ==> data[Slot(writePos, k, |data|)] == src[k]
    ensures Contents(data, NewPos(writePos, n, |data|), readPos) == Contents(data, writePos, readPos) + src[..n]
  {
    NewPosIsSlot(writePos, n, |data|);
    var before := Contents(data, writePos, readPos);
    var newPos := Slot(writePos, n, |data|);
    var after := Contents(data, newPos, readPos);
    assert |after| == |before| + n;
    forall k | 0 <= k < |after| ensures after[k] == (before + src[..n])[k] {
      ContentsAt(data, newPos, readPos, k);
      if k < |before| {
        ContentsAt(data, writePos, readPos, k);
      } else {
        assert Slot(readPos, k, |data|) == Slot(writePos, k - |before|, |data|);
      }
    }
  }

  /** Advancing the read position pops that many bytes. */
  lemma AdvancePops(data: seq<byte>, writePos: nat, readPos: nat, n: nat)
    requires writePos < |data| && readPos < |data|
    requires n <= Available(writePos, readPos, |data|)
    ensures |Contents(data, writePos, readPos)| == Available(writePos, readPos, |data|)
    ensures Contents(data, writePos, NewPos(readPos, n, |data|)) == Contents(data, writePos, readPos)[n..]
  {
    NewPosIsSlot(readPos, n, |data|);
    var before := Contents(data, writePos, readPos);
    var newPos := Slot(readPos, n, |data|);
    var after := Contents(data, writePos, newPos);
    assert |after| == |before| - n;
    forall k | 0 <= k < |after| ensures after[k] == before[n..][k] {
      ContentsAt(data, writePos, readPos, n + k);
      ContentsAt(data, writePos, newPos, k);
    }
  }
}
