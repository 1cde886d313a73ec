/** Payloads the scheduler posts to workers, as JavaScript objects (src/tasks/post_message_payload.rs). */
module PayloadCodec {
  import opened Words
  import opened JsObject
  import opened ForkPipes
  import S = SchedulerCodec

  const START_RESPONSE := "host-exec-start-response"
  const READ_RESPONSE := "host-exec-read-response"
  const ERROR := "error"
  const STDIN_OFFSET := "subprocess-stdin-offset"
  const STDIN_SIZE := "subprocess-stdin-size"
  const STDOUT_OFFSET := "subprocess-stdout-offset"
  const STDOUT_SIZE := "subprocess-stdout-size"
  const STDERR_OFFSET := "subprocess-stderr-offset"
  const STDERR_SIZE := "subprocess-stderr-size"

  /** A result whose error is a message. */
  datatype Outcome<T> = Success(value: T) | Failure(message: string)

  datatype Payload =
    | Async(task: Task)
    | Blocking(task: Task)
    | BlockingWithModule(mod: Module, task: Task)
    | BlockingWithModuleAndMemory(mod: Module, memory: Option<Memory>, task: Task, stdio: Option<S.Stdio>, forkPipes: Option<seq<Pipe>>)
    | CacheModule(hash: string, mod: Module)
    | StartResponse(request: u64, session: Outcome<u64>)
    | ReadResponse(request: u64, output: Outcome<(u32, seq<byte>)>)

  // ---- Encoding ----

  function PutStdio(o: Fields, stdio: Option<S.Stdio>): Fields {
    match stdio
    case None => o
    case Some(p) =>
      o[STDIN_OFFSET := Number(p.stdin.0)][STDIN_SIZE := Number(p.stdin.1)]
       [STDOUT_OFFSET := Number(p.stdout.0)][STDOUT_SIZE := Number(p.stdout.1)]
       [STDERR_OFFSET := Number(p.stderr.0)][STDERR_SIZE := Number(p.stderr.1)]
  }

  /** The fork payload without pipes; here an absent memory is written, as undefined. */
  function ForkObject(mod: Module, memory: Option<Memory>, task: Task): Fields {
    NewObject(S.SPAWN_WITH_MODULE_AND_MEMORY)[S.PTR := Pointer(task)][S.MODULE := ModuleObject(mod)]
      [S.MEMORY := if memory.Some? then MemoryObject(memory.value) else Undefined]
  }

  function Encode(p: Payload): Fields {
    match p
    case Async(t) => NewObject(S.SPAWN_ASYNC)[S.PTR := Pointer(t)]
    case Blocking(t) => NewObject(S.SPAWN_BLOCKING)[S.PTR := Pointer(t)]
    case BlockingWithModule(mod, t) => NewObject(S.SPAWN_WITH_MODULE)[S.PTR := Pointer(t)][S.MODULE := ModuleObject(mod)]
    case BlockingWithModuleAndMemory(mod, mem, t, stdio, pipes) => PutPipes(PutStdio(ForkObject(mod, mem, t), stdio), pipes)
    case CacheModule(h, mod) => NewObject(S.CACHE_MODULE)[S.MODULE_HASH := Text(h)][S.MODULE := ModuleObject(mod)]
    case StartResponse(r, session) =>
      var o := NewObject(START_RESPONSE)[S.REQUEST_ID := BigInt(r)];
      (match session
       case Success(s) => o[S.SESSION_ID := BigInt(s)]
       case Failure(message) => o[ERROR := Text(message)])
    case ReadResponse(r, output) =>
      var o := NewObject(READ_RESPONSE)[S.REQUEST_ID := BigInt(r)];
      (match output
       case Success(out) => o[S.MSG_TYPE := Number(out.0)][S.DATA := ByteArray(out.1)]
       case Failure(message) => o[ERROR := Text(message)])
  }

  // ---- Decoding ----

  function GetPair(o: Fields, a: string, b: string): Result<(u32, u32)> {
    var x :- GetU32(o, a);
    var y :- GetU32(o, b);
    Ok((x, y))
  }

  /** All six fields, or nothing. */
  function GetStdio(o: Fields): Option<S.Stdio> {
    var stdin := GetPair(o, STDIN_OFFSET, STDIN_SIZE);
    var stdout := GetPair(o, STDOUT_OFFSET, STDOUT_SIZE);
    var stderr := GetPair(o, STDERR_OFFSET, STDERR_SIZE);
    if stdin.Ok? && stdout.Ok? && stderr.Ok? then Some(S.Stdio(stdin.value, stdout.value, stderr.value)) else None
  }

  function DecodeFork(o: Fields): Result<Payload> {
    var mod :- GetModule(o, S.MODULE);
    var memory := GetMemory(o, S.MEMORY);
    var task :- Unbox(o, S.PTR);
    var stdio := GetStdio(o);
    var pipes :- GetPipes(o);
    Ok(BlockingWithModuleAndMemory(mod, memory, task, stdio, pipes))
  }

  function Decode(o: Fields): Result<Payload> {
    var ty :- GetText(o, TYPE);
    if ty == S.SPAWN_ASYNC then
      var t :- Unbox(o, S.PTR);
      Ok(Async(t))
    else if ty == S.SPAWN_BLOCKING then
      var t :- Unbox(o, S.PTR);
      Ok(Blocking(t))
    else if ty == S.CACHE_MODULE then
      var mod :- GetModule(o, S.MODULE);
      var h :- GetText(o, S.MODULE_HASH);
      Ok(CacheModule(h, mod))
    else if ty == S.SPAWN_WITH_MODULE then
      var t :- Unbox(o, S.PTR);
      var mod :- GetModule(o, S.MODULE);
      Ok(BlockingWithModule(mod, t))
    else if ty == S.SPAWN_WITH_MODULE_AND_MEMORY then DecodeFork(o)
    else if ty == START_RESPONSE then
      var r :- GetU64(o, S.REQUEST_ID);
      var session := GetU64(o, S.SESSION_ID);
      if session.Ok? then Ok(StartResponse(r, Success(session.value)))
      else
        var message :- GetText(o, ERROR);
        Ok(StartResponse(r, Failure(message)))
    else if ty == READ_RESPONSE then
      var r :- GetU64(o, S.REQUEST_ID);
      var msgType := GetU32(o, S.MSG_TYPE);
      if msgType.Ok? then
        var data :- GetBytes(o, S.DATA);
        Ok(ReadResponse(r, Success((msgType.value, data))))
      else
        var message :- GetText(o, ERROR);
        Ok(ReadResponse(r, Failure(message)))
    else Err
  }

  // ---- The round trip ----

  /** What arrives: everything, but for the pipes that cannot be counted. */
  function Carried(p: Payload): Payload {
    if p.BlockingWithModuleAndMemory? then p.(forkPipes := Counted(p.forkPipes)) else p
  }

  lemma StdioRoundTrip(o: Fields, stdio: Option<S.Stdio>)
    requires STDIN_OFFSET !in o
    ensures GetStdio(PutStdio(o, stdio)) == stdio
  {
  }

  lemma StdioFrame(o: Fields, stdio: Option<S.Stdio>, name: string)
    requires name in {TYPE, S.PTR, S.MODULE, S.MEMORY, COUNT}
    ensures Get(PutStdio(o, stdio), name) == Get(o, name)
    ensures name in PutStdio(o, stdio) <==> name in o
  {
  }

  lemma StdioThroughPipes(o: Fields, pipes: Option<seq<Pipe>>)
    ensures GetStdio(PutPipes(o, pipes)) == GetStdio(o)
  {
    hide PutPipes;
    PipesFrame(o, pipes, STDIN_OFFSET);
    PipesFrame(o, pipes, STDIN_SIZE);
    PipesFrame(o, pipes, STDOUT_OFFSET);
    PipesFrame(o, pipes, STDOUT_SIZE);
    PipesFrame(o, pipes, STDERR_OFFSET);
    PipesFrame(o, pipes, STDERR_SIZE);
  }

  lemma ForkRoundTrip(p: Payload)
    requires p.BlockingWithModuleAndMemory?
    ensures DecodeFork(Encode(p)) == Ok(Carried(p))
    ensures GetText(Encode(p), TYPE) == Ok(S.SPAWN_WITH_MODULE_AND_MEMORY)
  {
    hide PutPipes, GetPipes, PutStdio, GetStdio, EndsInDigit, Counted;
    var bare := ForkObject(p.mod, p.memory, p.task);
    var o := PutStdio(bare, p.stdio);
    S.PlainNames();
    forall name | name in {TYPE, S.PTR, S.MODULE, S.MEMORY}
      ensures Get(PutPipes(o, p.forkPipes), name) == Get(bare, name)
    {
      StdioFrame(bare, p.stdio, name);
      PipesFrame(o, p.forkPipes, name);
    }
    StdioFrame(bare, p.stdio, COUNT);
    StdioRoundTrip(bare, p.stdio);
    StdioThroughPipes(o, p.forkPipes);
    PipesRoundTrip(o, p.forkPipes);
  }

  /** Every payload decodes to itself, exactly when its pipe table can be counted in 32 bits. */
  lemma RoundTrip(p: Payload)
    ensures Decode(Encode(p)) == Ok(Carried(p))
    ensures Decode(Encode(p)) == Ok(p) <==>
            (p.BlockingWithModuleAndMemory? && p.forkPipes.Some? ==> |p.forkPipes.value| < 0x1_0000_0000)
  {
    hide DecodeFork, ForkObject, PutPipes, PutStdio;
    if p.BlockingWithModuleAndMemory? {
      ForkRoundTrip(p);
    }
  }
}
