/** Little-endian words and per-pipe views over the one shared byte array (src/pipes/pool.rs, get_pool_*_view). */
module SharedBytes {
  import opened Words
  import opened PipeMemory

  function PeekWord(bytes: seq<byte>, at: nat): u32
    requires at + 4 <= |bytes|
  {
    var (b0: int, b1: int, b2: int, b3: int) := (bytes[at], bytes[at + 1], bytes[at + 2], bytes[at + 3]);
    b0 + 0x100 * b1 + 0x1_0000 * b2 + 0x100_0000 * b3
  }

  function PokeWord(bytes: seq<byte>, at: nat, v: u32): (r: seq<byte>)
    requires at + 4 <= |bytes|
    ensures |r| == |bytes|
    ensures forall i :: 0 <= i < |bytes| && (i < at || at + 4 <= i) ==> r[i] == bytes[i]
    ensures r[at] == v % 0x100 && r[at + 1] == v / 0x100 % 0x100
    ensures r[at + 2] == v / 0x1_0000 % 0x100 && r[at + 3] == v / 0x100_0000 % 0x100
  {
    bytes[at := v % 0x100][at + 1 := v / 0x100 % 0x100][at + 2 := v / 0x1_0000 % 0x100][at + 3 := v / 0x100_0000 % 0x100]
  }

  lemma PokedWordReads(bytes: seq<byte>, at: nat, v: u32)
    requires at + 4 <= |bytes|
    ensures PeekWord(PokeWord(bytes, at, v), at) == v
  {
    FourDigits(v);
  }

  /** A word is the sum of its four bytes. */
  lemma FourDigits(v: u32)
    ensures v == v % 0x100 + 0x100 * (v / 0x100 % 0x100) + 0x1_0000 * (v / 0x1_0000 % 0x100) + 0x100_0000 * (v / 0x100_0000 % 0x100)
  {
    var (n: int, a: int, b: int, c: int) := (v, v / 0x100, v / 0x1_0000, v / 0x100_0000);
    assert n == n % 0x100 + 0x100 * a;
    assert a == a % 0x100 + 0x100 * b;
    assert b == b % 0x100 + 0x100 * c;
    assert c % 0x100 == c;
  }

  lemma PokeLeavesOtherWords(bytes: seq<byte>, at: nat, v: u32, other: nat)
    requires at + 4 <= |bytes| && other + 4 <= |bytes| && (other + 4 <= at || at + 4 <= other)
    ensures PeekWord(PokeWord(bytes, at, v), other) == PeekWord(bytes, other)
  {
  }

  /** The header words and the data bytes of the region at `offset`. */
  function View(bytes: seq<byte>, offset: nat, capacity: nat): (m: Mem)
    requires offset + HEADER_SIZE + capacity <= |bytes|
    ensures |m.data| == capacity
  {
    Mem(PeekWord(bytes, offset), PeekWord(bytes, offset + 4), PeekWord(bytes, offset + 8),
        PeekWord(bytes, offset + 12), PeekWord(bytes, offset + 16),
        bytes[offset + HEADER_SIZE..offset + HEADER_SIZE + capacity])
  }

  /** One atomic operation of the pipe at `offset`, performed on the shared array. */
  function Access(bytes: seq<byte>, offset: nat, capacity: nat, op: Op): (r: (seq<byte>, u32))
    requires offset + HEADER_SIZE + capacity <= |bytes|
    ensures |r.0| == |bytes|
  {
    match op
    case Skip => (bytes, 0)
    case Load(f) => (bytes, PeekWord(bytes, offset + 4 * f.Index()))
    case Store(f, v) => (PokeWord(bytes, offset + 4 * f.Index(), v), 0)
    case FetchAdd(f, d) =>
      var previous := PeekWord(bytes, offset + 4 * f.Index());
      (PokeWord(bytes, offset + 4 * f.Index(), WrappingAdd(previous, d)), previous)
    case LoadByte(slot) => (bytes, if slot < capacity then bytes[offset + HEADER_SIZE + slot] else 0)
    case StoreByte(slot, b) => (if slot < capacity then bytes[offset + HEADER_SIZE + slot := b] else bytes, 0)
  }

  lemma PokeIsSetWord(bytes: seq<byte>, offset: nat, capacity: nat, f: Field, v: u32)
    requires offset + HEADER_SIZE + capacity <= |bytes|
    ensures View(PokeWord(bytes, offset + 4 * f.Index(), v), offset, capacity) == View(bytes, offset, capacity).SetWord(f, v)
  {
    PokedWordReads(bytes, offset + 4 * f.Index(), v);
    var poked := PokeWord(bytes, offset + 4 * f.Index(), v);
    assert poked[offset + HEADER_SIZE..offset + HEADER_SIZE + capacity] == bytes[offset + HEADER_SIZE..offset + HEADER_SIZE + capacity];
  }

  /** Through its view, an access to the shared array is the access to the pipe's own memory. */
  lemma AccessIsExec(bytes: seq<byte>, offset: nat, capacity: nat, op: Op)
    requires offset + HEADER_SIZE + capacity <= |bytes|
    ensures var (bytes', v) := Access(bytes, offset, capacity, op);
            (View(bytes', offset, capacity), v) == Exec(View(bytes, offset, capacity), op)
  {
    var m := View(bytes, offset, capacity);
    match op
    case Store(f, v) => PokeIsSetWord(bytes, offset, capacity, f, v);
    case FetchAdd(f, d) => PokeIsSetWord(bytes, offset, capacity, f, WrappingAdd(m.Word(f), d));
    case StoreByte(slot, b) =>
      if slot < capacity {
        var stored := bytes[offset + HEADER_SIZE + slot := b];
        assert stored[offset + HEADER_SIZE..offset + HEADER_SIZE + capacity] == m.data[slot := b];
      }
    case _ =>
  }

  /** An access stays inside the pipe's region. */
  lemma AccessStaysInside(bytes: seq<byte>, offset: nat, capacity: nat, op: Op, i: nat)
    requires offset + HEADER_SIZE + capacity <= |bytes|
    requires i < |bytes| && (i < offset || offset + HEADER_SIZE + capacity <= i)
    ensures Access(bytes, offset, capacity, op).0[i] == bytes[i]
  {
  }

  /** A view depends on its own region only. */
  lemma ViewDependsOnRegion(bytes: seq<byte>, bytes': seq<byte>, offset: nat, capacity: nat)
    requires offset + HEADER_SIZE + capacity <= |bytes| == |bytes'|
    requires forall i :: offset <= i < offset + HEADER_SIZE + capacity ==> bytes'[i] == bytes[i]
    ensures View(bytes', offset, capacity) == View(bytes, offset, capacity)
  {
  }
}
