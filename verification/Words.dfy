/** Fixed-width integers, the casts between them, and the two stock result types. */
module Words {

  type byte = b: int | 0 <= b < 0x100
  type u32 = n: int | 0 <= n < 0x1_0000_0000
  type u64 = n: int | 0 <= n < 0x1_0000_0000_0000_0000
  type i32 = n: int | -0x8000_0000 <= n < 0x8000_0000

  datatype Option<+T> = None | Some(value: T)

  datatype Result<+T> = Ok(value: T) | Err {
    predicate IsFailure() { Err? }

    function PropagateFailure<U>(): Result<U>
      requires IsFailure()
    {
      Err
    }

    function Extract(): T
      requires !IsFailure()
    {
      value
    }
  }

  function Min(a: nat, b: nat): nat {
    if a <= b then a else b
  }

  /** `n as i32`: keep the low 32 bits and read them as two's complement. */
  function ToI32(n: int): i32 {
    var low := n % 0x1_0000_0000;
    if low < 0x8000_0000 then low else low - 0x1_0000_0000
  }

  /** `n as u32`: keep the low 32 bits. */
  function ToU32(n: int): u32 {
    n % 0x1_0000_0000
  }

  /** 32-bit addition with wrap-around, as Atomics.add and Atomics.sub perform it. */
  function WrappingAdd(n: u32, delta: int): u32 {
    ToU32((n as int) + delta)
  }

  /** `n as u64` for an `i32`: sign-extend. */
  function SignExtend(n: i32): u64 {
    if n >= 0 then n else n + 0x1_0000_0000_0000_0000
  }
}
