/** JavaScript objects as messages, and reading and writing their fields (src/tasks/interop.rs). */
module JsObject {
  import opened Words

  type Module = nat
  type Memory = nat

  /** A boxed task behind its address; `sharesMemory` is the part of it the decoder looks at. */
  datatype Task = Task(id: nat, sharesMemory: bool)

  datatype JsValue =
    | Undefined
    | Number(n: int)
    | Boolean(b: bool)
    | Text(s: string)
    | BigInt(big: int)
    | Pointer(task: Task)
    | ModuleObject(mod: Module)
    | MemoryObject(mem: Memory)
    | ByteArray(bytes: seq<byte>)
    | Object(fields: Fields)

  type Fields = map<string, JsValue>

  const TYPE: string := "type"

  // ---- Reading ----

  /** `Reflect.get`: a missing field is undefined. */
  function Get(o: Fields, field: string): JsValue { if field in o then o[field] else Undefined }

  function GetText(o: Fields, field: string): Result<string> {
    var v := Get(o, field);
    if v.Text? then Ok(v.s) else Err
  }

  /** `serde::<u32>`. */
  function GetU32(o: Fields, field: string): Result<u32> {
    var v := Get(o, field);
    if v.Number? && 0 <= v.n < 0x1_0000_0000 then Ok(v.n) else Err
  }

  /** `serde::<u64>`. */
  function GetU64(o: Fields, field: string): Result<u64> {
    var v := Get(o, field);
    if v.BigInt? && 0 <= v.big < 0x1_0000_0000_0000_0000 then Ok(v.big) else Err
  }

  function GetBool(o: Fields, field: string): Result<bool> {
    var v := Get(o, field);
    if v.Boolean? then Ok(v.b) else Err
  }

  function GetBytes(o: Fields, field: string): Result<seq<byte>> {
    var v := Get(o, field);
    if v.ByteArray? then Ok(v.bytes) else Err
  }

  function GetModule(o: Fields, field: string): Result<Module> {
    var v := Get(o, field);
    if v.ModuleObject? then Ok(v.mod) else Err
  }

  function GetMemory(o: Fields, field: string): Option<Memory> {
    var v := Get(o, field);
    if v.MemoryObject? then Some(v.mem) else None
  }

  /** Unbox a task from its address. */
  function Unbox(o: Fields, field: string): Result<Task> {
    var v := Get(o, field);
    if v.Pointer? then Ok(v.task) else Err
  }

  // ---- Writing ----

  /** A new message object holds only its type. */
  function NewObject(ty: string): Fields { map[TYPE := Text(ty)] }

  /** A call of `set`: a field, its value, and whether `Reflect.set` refused it. */
  datatype SetCall = SetCall(field: string, value: JsValue, refused: bool)

  /** The object after a list of calls none of which was refused. */
  function Build(ty: string, calls: seq<SetCall>): Fields {
    if calls == [] then NewObject(ty)
    else Build(ty, calls[..|calls| - 1])[calls[|calls| - 1].field := calls[|calls| - 1].value]
  }

  predicate AnyRefused(calls: seq<SetCall>) { exists i :: 0 <= i < |calls| && calls[i].refused }

  /** A refused `Reflect.set` sticks: later fields are skipped and `Finish` reports it. */
  class Serializer {
    const ty: string
    var obj: Fields
    var failed: bool
    /** Every call of `Set` so far. */
    ghost var calls: seq<SetCall>

    /** The sticky error is there exactly if some call was refused, and otherwise the object holds every field set. */
    ghost predicate Valid()
      reads this
    {
      (failed <==> AnyRefused(calls)) && (!failed ==> obj == Build(ty, calls))
    }

    constructor (ty: string)
      ensures Valid() && calls == [] && this.ty == ty && obj == NewObject(ty) && !failed
    {
      this.ty, obj, failed, calls := ty, NewObject(ty), false, [];
    }

    method Set(field: string, value: JsValue, refused: bool)
      requires Valid()
      modifies this
      ensures Valid() && calls == old(calls) + [SetCall(field, value, refused)]
      ensures failed == (old(failed) || refused)
      ensures obj == if failed then old(obj) else old(obj)[field := value]
    {
      calls := calls + [SetCall(field, value, refused)];
      assert calls[|calls| - 1].refused == refused && calls[..|calls| - 1] == old(calls);
      assert forall i :: 0 <= i < |old(calls)| ==> calls[i] == old(calls)[i];
      if failed {
        return;
      }
      if refused {
        failed := true;
      } else {
        obj := obj[field := value];
      }
    }

    /** The object with every field set, or an error, exactly if some field was refused. */
    method Finish() returns (r: Result<JsValue>)
      requires Valid()
      ensures r.Err? <==> exists i :: 0 <= i < |calls| && calls[i].refused
      ensures r.Ok? ==> r.value == Object(Build(ty, calls))
    {
      r := if failed then Err else Ok(Object(obj));
    }
  }

  // ---- Indexed keys ----

  predicate IsDigit(c: char) { '0' <= c <= '9' }

  function Digit(d: nat): (c: char)
    requires d < 10
    ensures IsDigit(c) && c as int == '0' as int + d
  {
    ('0' as int + d) as char
  }

  /** Decimal notation, as `format!("{}", n)` prints it. */
  function Decimal(n: nat): (s: string)
    ensures s != [] && forall i :: 0 <= i < |s| ==> IsDigit(s[i])
  {
    if n < 10 then [Digit(n)] else Decimal(n / 10) + [Digit(n % 10)]
  }

  function ParseDecimal(s: string): nat
    requires forall i :: 0 <= i < |s| ==> IsDigit(s[i])
  {
    if s == [] then 0
    else
      var last := s[|s| - 1];
      assert IsDigit(last);
      10 * ParseDecimal(s[..|s| - 1]) + (last as int - '0' as int)
  }

  lemma {:induction false} DecimalRoundTrip(n: nat)
    ensures ParseDecimal(Decimal(n)) == n
  {
    if n >= 10 {
      DecimalRoundTrip(n / 10);
      assert Decimal(n)[..|Decimal(n)| - 1] == Decimal(n / 10);
    } else {
      assert Decimal(n)[..0] == [];
    }
  }

  function Key(prefix: string, i: nat): string { prefix + Decimal(i) }

  predicate IsPrefix(p: string) { p != [] && p[|p| - 1] == '-' }

  predicate EndsInDigit(s: string) { s != [] && IsDigit(s[|s| - 1]) }

  /** Indexed keys with prefixes that end in a dash never collide across prefixes or indices. */
  lemma KeysDistinct(p: string, i: nat, q: string, j: nat)
    requires IsPrefix(p) && IsPrefix(q)
    ensures Key(p, i) == Key(q, j) <==> p == q && i == j
  {
    var d, e := Decimal(i), Decimal(j);
    if Key(p, i) == Key(q, j) {
      DashIsLast(p, d, q, e);
      DashIsLast(q, e, p, d);
      assert p == Key(p, i)[..|p|] && q == Key(q, j)[..|q|];
      assert d == Key(p, i)[|p|..] && e == Key(q, j)[|q|..];
      DecimalRoundTrip(i);
      DecimalRoundTrip(j);
    }
  }

  lemma DashIsLast(p: string, d: string, q: string, e: string)
    requires IsPrefix(p) && IsPrefix(q) && p + d == q + e
    requires forall i :: 0 <= i < |e| ==> IsDigit(e[i])
    ensures |p| <= |q|
  {
    assert (p + d)[|p| - 1] == '-';
    assert forall k :: |q| <= k < |q + e| ==> (q + e)[k] != '-';
  }

  /** An indexed key is none of the plain field names, which do not end in a digit. */
  lemma KeyIsNoPlainName(p: string, i: nat, name: string)
    requires !EndsInDigit(name)
    ensures Key(p, i) != name
  {
    var k := Key(p, i);
    assert k[|k| - 1] == Decimal(i)[|Decimal(i)| - 1];
  }
}
