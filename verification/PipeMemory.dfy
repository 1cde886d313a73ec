/** What one pipe's region of the pool holds, and the atomic operations the pipe code performs on it. */
module PipeMemory {
  import opened Words

  const HEADER_SIZE: nat := 20

  /** The five header words, in the order of their offsets. */
  datatype Field = WritePos | ReadPos | Closed | Notify | TxCount
  {
    function Index(): nat {
      match this
      case WritePos => 0
      case ReadPos => 1
      case Closed => 2
      case Notify => 3
      case TxCount => 4
    }
  }

  datatype Mem = Mem(writePos: u32, readPos: u32, closed: u32, notify: u32, txCount: u32, data: seq<byte>)
  {
    function Word(f: Field): u32 {
      match f
      case WritePos => writePos
      case ReadPos => readPos
      case Closed => closed
      case Notify => notify
      case TxCount => txCount
    }

    function SetWord(f: Field, v: u32): Mem {
      match f
      case WritePos => this.(writePos := v)
      case ReadPos => this.(readPos := v)
      case Closed => this.(closed := v)
      case Notify => this.(notify := v)
      case TxCount => this.(txCount := v)
    }
  }

  /** One indivisible access. `Skip` touches nothing. */
  datatype Op =
    | Skip
    | Load(field: Field)
    | Store(field: Field, value: u32)
    | FetchAdd(field: Field, delta: int)
    | LoadByte(slot: nat)
    | StoreByte(slot: nat, b: byte)

  /** The memory after an access, and the value it returned; a typed array ignores accesses beyond its end. */
  function Exec(m: Mem, op: Op): (r: (Mem, u32))
    ensures |r.0.data| == |m.data|
  {
    match op
    case Skip => (m, 0)
    case Load(f) => (m, m.Word(f))
    case Store(f, v) => (m.SetWord(f, v), 0)
    case FetchAdd(f, d) => (m.SetWord(f, WrappingAdd(m.Word(f), d)), m.Word(f))
    case LoadByte(slot) => (m, if slot < |m.data| then m.data[slot] else 0)
    case StoreByte(slot, b) => (if slot < |m.data| then m.(data := m.data[slot := b]) else m, 0)
  }
}
