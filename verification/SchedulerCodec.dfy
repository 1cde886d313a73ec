/** Scheduler messages as JavaScript objects (src/tasks/scheduler_message.rs). */
module SchedulerCodec {
  import opened Words
  import opened JsObject
  import opened ForkPipes

  const CLOSE := "close"
  const SPAWN_ASYNC := "spawn-async"
  const SPAWN_BLOCKING := "spawn-blocking"
  const WORKER_IDLE := "worker-idle"
  const WORKER_BUSY := "worker-busy"
  const CACHE_MODULE := "cache-module"
  const SPAWN_WITH_MODULE := "spawn-with-module"
  const SPAWN_WITH_MODULE_AND_MEMORY := "spawn-with-module-and-memory"
  const HOST_EXEC_START := "host-exec-start"
  const HOST_EXEC_READ := "host-exec-read"
  const HOST_EXEC_WRITE := "host-exec-write"
  const HOST_EXEC_CLOSE_STDIN := "host-exec-close-stdin"
  const HOST_EXEC_TRY_READ := "host-exec-try-read"
  const HOST_EXEC_POLL := "host-exec-poll"
  const HOST_EXEC_SIGNAL := "host-exec-signal"
  const HOST_EXEC_CHILD_OUTPUT := "host-exec-child-output"

  const MEMORY := "memory"
  const MODULE_HASH := "module-hash"
  const MODULE := "module"
  const PTR := "ptr"
  const WORKER_ID := "worker-id"
  const REQUEST_ID := "request-id"
  const REQUEST_JSON := "request-json"
  const SESSION_ID := "session-id"
  const DATA := "data"
  const SIGNAL := "signal"
  const CHILD_ID := "child-id"
  const MSG_TYPE := "msg-type"

  /** Pool offsets and sizes of a subprocess's three standard pipes. */
  datatype Stdio = Stdio(stdin: (u32, u32), stdout: (u32, u32), stderr: (u32, u32))

  datatype SchedulerMessage =
    | Close
    | SpawnAsync(task: Task)
    | SpawnBlocking(task: Task)
    | WorkerIdle(worker: u32)
    | WorkerBusy(worker: u32)
    | HostExecStart(worker: u32, request: u64, json: seq<byte>)
    | HostExecRead(worker: u32, request: u64, session: u64)
    | HostExecWrite(worker: u32, request: u64, session: u64, data: seq<byte>)
    | HostExecCloseStdin(worker: u32, request: u64, session: u64)
    | HostExecTryRead(worker: u32, request: u64, session: u64)
    | HostExecPoll(worker: u32, request: u64, session: u64)
    | HostExecSignal(worker: u32, request: u64, session: u64, signal: u32)
    | HostExecChildOutput(worker: u32, request: u64, session: u64, child: u64, msgType: u32, data: seq<byte>)
    | HostExecReadComplete(worker: u32, request: u64, msgType: u32, data: seq<byte>)
    | CacheModule(hash: string, mod: Module)
    | SpawnWithModule(mod: Module, task: Task)
    | SpawnWithModuleAndMemory(mod: Module, memory: Option<Memory>, task: Task, stdio: Option<Stdio>, forkPipes: Option<seq<Pipe>>)

  // ---- Encoding ----

  function HostExecObject(ty: string, worker: u32, request: u64, session: u64): Fields {
    NewObject(ty)[WORKER_ID := Number(worker)][REQUEST_ID := BigInt(request)][SESSION_ID := BigInt(session)]
  }

  /** The fork message without its pipe table; an absent memory leaves no field. */
  function ForkObject(mod: Module, memory: Option<Memory>, task: Task): Fields {
    var o := NewObject(SPAWN_WITH_MODULE_AND_MEMORY)[MODULE := ModuleObject(mod)][PTR := Pointer(task)];
    if memory.Some? then o[MEMORY := MemoryObject(memory.value)] else o
  }

  /** `into_js`; a read completion stays on the scheduler's thread and has no encoding. */
  function Encode(m: SchedulerMessage): Option<JsValue> {
    match m
    case Close => Some(Object(NewObject(CLOSE)))
    case SpawnAsync(t) => Some(Object(NewObject(SPAWN_ASYNC)[PTR := Pointer(t)]))
    case SpawnBlocking(t) => Some(Object(NewObject(SPAWN_BLOCKING)[PTR := Pointer(t)]))
    case WorkerIdle(w) => Some(Object(NewObject(WORKER_IDLE)[WORKER_ID := Number(w)]))
    case WorkerBusy(w) => Some(Object(NewObject(WORKER_BUSY)[WORKER_ID := Number(w)]))
    case CacheModule(h, mod) => Some(Object(NewObject(CACHE_MODULE)[MODULE_HASH := Text(h)][MODULE := ModuleObject(mod)]))
    case SpawnWithModule(mod, t) => Some(Object(NewObject(SPAWN_WITH_MODULE)[MODULE := ModuleObject(mod)][PTR := Pointer(t)]))
    case SpawnWithModuleAndMemory(mod, mem, t, _, pipes) => Some(Object(PutPipes(ForkObject(mod, mem, t), pipes)))
    case HostExecStart(w, r, json) =>
      Some(Object(NewObject(HOST_EXEC_START)[WORKER_ID := Number(w)][REQUEST_ID := BigInt(r)][REQUEST_JSON := ByteArray(json)]))
    case HostExecRead(w, r, s) => Some(Object(HostExecObject(HOST_EXEC_READ, w, r, s)))
    case HostExecWrite(w, r, s, d) => Some(Object(HostExecObject(HOST_EXEC_WRITE, w, r, s)[DATA := ByteArray(d)]))
    case HostExecCloseStdin(w, r, s) => Some(Object(HostExecObject(HOST_EXEC_CLOSE_STDIN, w, r, s)))
    case HostExecTryRead(w, r, s) => Some(Object(HostExecObject(HOST_EXEC_TRY_READ, w, r, s)))
    case HostExecPoll(w, r, s) => Some(Object(HostExecObject(HOST_EXEC_POLL, w, r, s)))
    case HostExecSignal(w, r, s, sig) => Some(Object(HostExecObject(HOST_EXEC_SIGNAL, w, r, s)[SIGNAL := Number(sig)]))
    case HostExecChildOutput(w, r, s, c, t, d) =>
      Some(Object(HostExecObject(HOST_EXEC_CHILD_OUTPUT, w, r, s)[CHILD_ID := BigInt(c)][MSG_TYPE := Number(t)][DATA := ByteArray(d)]))
    case HostExecReadComplete(_, _, _, _) => None
  }

  // ---- Decoding ----

  function DecodeFork(o: Fields): Result<SchedulerMessage> {
    var task :- Unbox(o, PTR);
    var mod :- GetModule(o, MODULE);
    var memory := if task.sharesMemory then GetMemory(o, MEMORY) else None;
    var pipes :- GetPipes(o);
    Ok(SpawnWithModuleAndMemory(mod, memory, task, None, pipes))
  }

  function DecodeHostExec(ty: string, o: Fields): Result<SchedulerMessage> {
    var w :- GetU32(o, WORKER_ID);
    var r :- GetU64(o, REQUEST_ID);
    if ty == HOST_EXEC_START then
      var json :- GetBytes(o, REQUEST_JSON);
      Ok(HostExecStart(w, r, json))
    else
      var s :- GetU64(o, SESSION_ID);
      if ty == HOST_EXEC_READ then Ok(HostExecRead(w, r, s))
      else if ty == HOST_EXEC_WRITE then
        var d :- GetBytes(o, DATA);
        Ok(HostExecWrite(w, r, s, d))
      else if ty == HOST_EXEC_CLOSE_STDIN then Ok(HostExecCloseStdin(w, r, s))
      else if ty == HOST_EXEC_TRY_READ then Ok(HostExecTryRead(w, r, s))
      else if ty == HOST_EXEC_POLL then Ok(HostExecPoll(w, r, s))
      else if ty == HOST_EXEC_SIGNAL then
        var sig :- GetU32(o, SIGNAL);
        Ok(HostExecSignal(w, r, s, sig))
      else
        var c :- GetU64(o, CHILD_ID);
        var t :- GetU32(o, MSG_TYPE);
        var d :- GetBytes(o, DATA);
        Ok(HostExecChildOutput(w, r, s, c, t, d))
  }

  const HOST_EXEC_TYPES: set<string> := {
    HOST_EXEC_START, HOST_EXEC_READ, HOST_EXEC_WRITE, HOST_EXEC_CLOSE_STDIN,
    HOST_EXEC_TRY_READ, HOST_EXEC_POLL, HOST_EXEC_SIGNAL, HOST_EXEC_CHILD_OUTPUT
  }

  /** `try_from_js`. */
  function Decode(v: JsValue): Result<SchedulerMessage> {
    if !v.Object? then Err
    else
      var o := v.fields;
      var ty :- GetText(o, TYPE);
      if ty == SPAWN_ASYNC then
        var t :- Unbox(o, PTR);
        Ok(SpawnAsync(t))
      else if ty == SPAWN_BLOCKING then
        var t :- Unbox(o, PTR);
        Ok(SpawnBlocking(t))
      else if ty == WORKER_IDLE then
        var w :- GetU32(o, WORKER_ID);
        Ok(WorkerIdle(w))
      else if ty == WORKER_BUSY then
        var w :- GetU32(o, WORKER_ID);
        Ok(WorkerBusy(w))
      else if ty == CACHE_MODULE then
        var h :- GetText(o, MODULE_HASH);
        var mod :- GetModule(o, MODULE);
        Ok(CacheModule(h, mod))
      else if ty == SPAWN_WITH_MODULE then
        var mod :- GetModule(o, MODULE);
        var t :- Unbox(o, PTR);
        Ok(SpawnWithModule(mod, t))
      else if ty == SPAWN_WITH_MODULE_AND_MEMORY then DecodeFork(o)
      else if ty in HOST_EXEC_TYPES then DecodeHostExec(ty, o)
      else Err
  }

  // ---- The round trip ----

  /** What arrives: a memory only if the task shares one, never the standard pipes, and the countable pipes. */
  function Carried(m: SchedulerMessage): SchedulerMessage {
    if m.SpawnWithModuleAndMemory? then
      m.(memory := if m.task.sharesMemory then m.memory else None, stdio := None, forkPipes := Counted(m.forkPipes))
    else m
  }

  lemma PlainNames()
    ensures !EndsInDigit(TYPE) && !EndsInDigit(PTR) && !EndsInDigit(MODULE) && !EndsInDigit(MEMORY)
    ensures TYPE != COUNT && PTR != COUNT && MODULE != COUNT && MEMORY != COUNT
  {
  }

  lemma ForkRoundTrip(m: SchedulerMessage)
    requires m.SpawnWithModuleAndMemory?
    ensures DecodeFork(PutPipes(ForkObject(m.mod, m.memory, m.task), m.forkPipes)) == Ok(Carried(m))
    ensures GetText(PutPipes(ForkObject(m.mod, m.memory, m.task), m.forkPipes), TYPE) == Ok(SPAWN_WITH_MODULE_AND_MEMORY)
  {
    hide PutPipes, GetPipes, EndsInDigit, Counted;
    var o := ForkObject(m.mod, m.memory, m.task);
    PlainNames();
    PipesFrame(o, m.forkPipes, TYPE);
    PipesFrame(o, m.forkPipes, PTR);
    PipesFrame(o, m.forkPipes, MODULE);
    PipesFrame(o, m.forkPipes, MEMORY);
    PipesRoundTrip(o, m.forkPipes);
  }

  predicate IsHostExec(m: SchedulerMessage) {
    m.HostExecStart? || m.HostExecRead? || m.HostExecWrite? || m.HostExecCloseStdin?
    || m.HostExecTryRead? || m.HostExecPoll? || m.HostExecSignal? || m.HostExecChildOutput?
  }

  lemma HostExecRoundTrip(m: SchedulerMessage)
    requires IsHostExec(m)
    ensures Encode(m).value.Object? && TYPE in Encode(m).value.fields && Encode(m).value.fields[TYPE].Text?
    ensures var o := Encode(m).value.fields;
            o[TYPE].s in HOST_EXEC_TYPES && DecodeHostExec(o[TYPE].s, o) == Ok(m)
  {
  }

  lemma HostExecTypesAreOthers()
    ensures {SPAWN_ASYNC, SPAWN_BLOCKING, WORKER_IDLE, WORKER_BUSY, CACHE_MODULE, SPAWN_WITH_MODULE, SPAWN_WITH_MODULE_AND_MEMORY, CLOSE}
            !! HOST_EXEC_TYPES
  {
  }

  /** Every message that has an encoding decodes to what it carries, but for Close, which has no decoder. */
  lemma RoundTrip(m: SchedulerMessage)
    requires !m.HostExecReadComplete?
    ensures Decode(Encode(m).value) == if m.Close? then Err else Ok(Carried(m))
    ensures Decode(Encode(m).value) == Ok(m) <==>
            && !m.Close?
            && (m.SpawnWithModuleAndMemory? ==>
                  && (m.memory.Some? ==> m.task.sharesMemory) && m.stdio.None?
                  && (m.forkPipes.Some? ==> |m.forkPipes.value| < 0x1_0000_0000))
  {
    hide DecodeFork, ForkObject, PutPipes, DecodeHostExec, HostExecObject;
    HostExecTypesAreOthers();
    if IsHostExec(m) {
      HostExecRoundTrip(m);
    } else if m.SpawnWithModuleAndMemory? {
      ForkRoundTrip(m);
    }
  }
}
