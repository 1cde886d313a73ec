/** What a worker sends back, with scheduler messages nested inside (src/tasks/worker_message.rs). */
module WorkerCodec {
  import opened Words
  import opened JsObject
  import S = SchedulerCodec

  const BUSY := "busy"
  const IDLE := "idle"
  const SCHEDULER := "scheduler"
  const MESSAGE := "msg"

  datatype WorkerMessage = MarkBusy | MarkIdle | Scheduler(message: S.SchedulerMessage)

  function Encode(m: WorkerMessage): Option<Fields> {
    match m
    case MarkBusy => Some(NewObject(BUSY))
    case MarkIdle => Some(NewObject(IDLE))
    case Scheduler(inner) =>
      var v := S.Encode(inner);
      if v.None? then None else Some(NewObject(SCHEDULER)[MESSAGE := v.value])
  }

  function Decode(o: Fields): Result<WorkerMessage> {
    var ty :- GetText(o, TYPE);
    if ty == BUSY then Ok(MarkBusy)
    else if ty == IDLE then Ok(MarkIdle)
    else if ty == SCHEDULER then
      var inner :- S.Decode(Get(o, MESSAGE));
      Ok(Scheduler(inner))
    else Err
  }

  /** How the scheduler's thread routes what worker `w` sent (`on_message`). */
  function Route(w: u32, m: WorkerMessage): S.SchedulerMessage {
    match m
    case MarkBusy => S.WorkerBusy(w)
    case MarkIdle => S.WorkerIdle(w)
    case Scheduler(inner) => inner
  }

  /** Nesting keeps the round trip of the inner message. */
  lemma RoundTrip(m: WorkerMessage)
    requires m.Scheduler? ==> !m.message.HostExecReadComplete?
    ensures Decode(Encode(m).value) ==
            if m.Scheduler? then (if m.message.Close? then Err else Ok(Scheduler(S.Carried(m.message)))) else Ok(m)
  {
    hide S.Encode, S.Decode, S.Carried;
    if m.Scheduler? {
      S.RoundTrip(m.message);
      assert S.Encode(m.message).Some? by { Encodes(m.message); }
    }
  }

  lemma Encodes(m: S.SchedulerMessage)
    ensures S.Encode(m).Some? <==> !m.HostExecReadComplete?
  {
  }
}
