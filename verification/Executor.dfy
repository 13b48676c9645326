/** hyper_executor_poll and select: the two points where a program waits for an answer.  While it polls, the
    executor calls back what the program registered. */
module Executor {
  import opened Basics
  import opened Ownership
  import opened PollLoop
  import opened HyperLib
  import opened Streams

  /** What the registered callbacks work on: connection data, upload.c's file, Get's response. */
  datatype Registered = Registered(conn: ConnData, upload: FileUpload?, response: HttpResponse?)

  /** Poll's result; NoAnswer ends the observed part of a run. */
  datatype PollResult =
    | NoAnswer
    | Nothing
    | Own(task: Handle, tag: Tag, result: TaskResult)
    | Foreign(task: Handle)

  function BodyOf(response: HttpResponse?): set<object>
    reads response
  {
    if response == null || response.body == null then {} else {response.body}
  }

  ghost function EmittedBy(upload: FileUpload?): seq<array<byte>>
    reads upload
  {
    if upload == null then [] else upload.emitted
  }

  /** The variables of main, with the buffer the response object points to. */
  function WithResponse(v: Locals, response: HttpResponse?): Locals
    reads response
  {
    if response == null then v else v.(response := response.buffer)
  }

  function Output(hyper: Hyper, response: HttpResponse?): seq<byte>
    reads hyper, response, BodyOf(response)
  {
    if response == null then hyper.output else response.Contents()
  }

  /** The state a running program is in. */
  function View(hyper: Hyper, status: Status, cb: Registered, v: Locals): State
    reads hyper, cb.conn, cb.response, BodyOf(cb.response)
  {
    State(status, hyper.world, hyper.calls, hyper.executing, hyper.download, hyper.sending, hyper.log,
          cb.conn.Slots(), WithResponse(v, cb.response), Output(hyper, cb.response))
  }

  ghost predicate Linked(hyper: Hyper, cb: Registered, v: Locals)
    reads hyper, cb.conn, cb.response, BodyOf(cb.response)
  {
    && hyper.executing.next > 0
    && cb.conn.handle == v.conn
    && (hyper.program == UploadC <==> cb.upload != null)
    && (hyper.program == GetGo <==> cb.response != null)
    && hyper.download.taken <= |hyper.world.peer|
    && (cb.response != null ==>
         cb.response.Valid() && cb.response.accepted == hyper.world.peer[..hyper.download.taken])
  }

  /** The file object agrees with what was handed to hyper. */
  ghost predicate FileLinked(hyper: Hyper, cb: Registered, v: Locals)
    reads hyper, cb.upload, EmittedBy(cb.upload)
  {
    cb.upload != null ==>
      && cb.upload.Valid()
      && cb.upload.file == hyper.world.file
      && cb.upload.handle == v.fileBuf
      && cb.upload.offset == hyper.sending.offset
      && cb.upload.chunks == hyper.sending.chunks
  }

  /** read_cb is called back. */
  method CallRead(hyper: Hyper, cb: Registered, v: Locals, sys: SysResult, id: nat)
    requires Linked(hyper, cb, v)
    modifies hyper`calls, hyper`executing, hyper`log, cb.conn
    ensures Linked(hyper, cb, v)
    ensures View(hyper, Polling, cb, v) == Renewed(OnRead(old(View(hyper, Polling, cb, v)), sys, id), id)
    ensures cb.conn.readWaker == (if sys.Again? then Some(Handle(Waker, id)) else old(cb.conn.readWaker))
    ensures cb.conn.writeWaker == old(cb.conn.writeWaker)
  {
    hyper.executing := hyper.executing.(next := id + 1);
    var ret := cb.conn.ReadCb(hyper, sys);
    var kept := if sys.Again? then cb.conn.readWaker else None;
    hyper.log := hyper.log.(history := hyper.log.history + [Returned(Read, ret, kept)]);
  }

  /** write_cb is called back. */
  method CallWrite(hyper: Hyper, cb: Registered, v: Locals, sys: SysResult, id: nat)
    requires Linked(hyper, cb, v)
    modifies hyper`calls, hyper`executing, hyper`log, cb.conn
    ensures Linked(hyper, cb, v)
    ensures View(hyper, Polling, cb, v) == Renewed(OnWrite(old(View(hyper, Polling, cb, v)), sys, id), id)
    ensures cb.conn.writeWaker == (if sys.Again? then Some(Handle(Waker, id)) else old(cb.conn.writeWaker))
    ensures cb.conn.readWaker == old(cb.conn.readWaker)
  {
    hyper.executing := hyper.executing.(next := id + 1);
    var ret := cb.conn.WriteCb(hyper, sys);
    var kept := if sys.Again? then cb.conn.writeWaker else None;
    hyper.log := hyper.log.(history := hyper.log.history + [Returned(Write, ret, kept)]);
  }

  /** The executor takes what poll_req_upload returned. */
  method TakeChunk(hyper: Hyper, code: nat, chunk: array?<byte>)
    modifies hyper`sending
    ensures hyper.sending ==
      if code != POLL_READY then old(hyper.sending)
      else if chunk == null then old(hyper.sending).(ended := true)
      else old(hyper.sending).(offset := old(hyper.sending).offset + chunk.Length,
                               chunks := old(hyper.sending).chunks + [chunk[..]])
  {
    if code == POLL_READY {
      if chunk == null {
        hyper.sending := hyper.sending.(ended := true);
      } else {
        hyper.sending := hyper.sending.(
          offset := hyper.sending.offset + chunk.Length, chunks := hyper.sending.chunks + [chunk[..]]);
      }
    }
  }

  /** poll_req_upload is called back, and the executor takes what it returned. */
  method TakeUpload(hyper: Hyper, upload: FileUpload, sys: SysResult)
    requires upload.Valid() && hyper.executing.next > 0
    requires upload.offset == hyper.sending.offset && upload.chunks == hyper.sending.chunks
    requires sys.Bytes? ==> upload.offset + sys.n <= |upload.file| && sys.n <= FILE_BUFFER_SIZE
    modifies hyper`calls, hyper`sending, upload, upload.buf
    ensures upload.Valid()
    ensures upload.offset == hyper.sending.offset && upload.chunks == hyper.sending.chunks
    ensures upload.offset == old(upload.offset) + if sys.Bytes? then sys.n else 0
    ensures hyper.sending.ended == (old(hyper.sending.ended) || sys == Bytes(0))
    ensures hyper.calls == old(hyper.calls) + UploadCalls(upload.handle, sys, hyper.Id())
    ensures hyper.sending == FileRead(old(hyper.sending), upload.file, sys)
  {
    var code, chunk := upload.PollReqUpload(hyper, sys);
    TakeChunk(hyper, code, chunk);
  }

  method CallFile(hyper: Hyper, cb: Registered, v: Locals, sys: SysResult, id: nat)
    requires Linked(hyper, cb, v) && FileLinked(hyper, cb, v) && cb.upload != null
    requires FileAllowed(View(hyper, Polling, cb, v), sys)
    modifies hyper`calls, hyper`executing, hyper`sending, cb.upload, cb.upload.buf
    ensures Linked(hyper, cb, v) && FileLinked(hyper, cb, v)
    ensures View(hyper, Polling, cb, v) == Renewed(UploadChunk(old(View(hyper, Polling, cb, v)), sys, id), id)
  {
    hyper.executing := hyper.executing.(next := id + 1);
    TakeUpload(hyper, cb.upload, sys);
  }

  /** print_each_chunk is called back with the next chunk and writes it out. */
  method CallPrint(hyper: Hyper, cb: Registered, v: Locals, id: nat)
    requires Linked(hyper, cb, v) && cb.response == null && hyper.download.taken < |hyper.world.peer|
    modifies hyper`executing, hyper`download, hyper`output
    ensures Linked(hyper, cb, v)
    ensures View(hyper, Polling, cb, v) == Renewed(PrintChunk(old(View(hyper, Polling, cb, v))), id)
  {
    hyper.executing := hyper.executing.(next := id + 1);
    hyper.output := hyper.output + hyper.world.peer[hyper.download.taken];
    hyper.download := hyper.download.(taken := hyper.download.taken + 1);
  }

  method NewChunk(bytes: seq<byte>) returns (chunk: array<byte>)
    ensures fresh(chunk) && chunk[..] == bytes
  {
    chunk := new byte[|bytes|](i requires 0 <= i < |bytes| => bytes[i]);
  }

  /** The next chunk reaches AppendToResponseBody, and the executor notes what came of it. */
  method Gather(hyper: Hyper, response: HttpResponse, memory: bool)
    requires response.Valid() && hyper.executing.next > 0 && hyper.download.taken < |hyper.world.peer|
    requires response.accepted == hyper.world.peer[..hyper.download.taken]
    requires memory ==> FitsMemory(response.Contents(), hyper.world.peer[hyper.download.taken])
    modifies hyper`calls, hyper`download, response
    ensures response.Valid() && BodyIsNew(response)
    ensures !memory ==> unchanged(response) && hyper.calls == old(hyper.calls)
    ensures !memory ==> hyper.download == old(hyper.download).(stopped := true)
    ensures memory ==>
      && hyper.download == old(hyper.download).(taken := old(hyper.download).taken + 1)
      && response.accepted == hyper.world.peer[..hyper.download.taken]
      && response.Contents() == old(response.Contents()) + hyper.world.peer[old(hyper.download).taken]
      && response.buffer == Some(Handle(ResponseBuffer, hyper.Id()))
      && hyper.calls == old(hyper.calls) + AppendCalls(old(response.buffer), hyper.Id())
  {
    var taken := hyper.download.taken;
    var chunk := NewChunk(hyper.world.peer[taken]);
    var code := response.Append(hyper, chunk, memory);
    if code == ITER_CONTINUE {
      hyper.download := hyper.download.(taken := taken + 1);
      assert hyper.world.peer[..taken + 1] == hyper.world.peer[..taken] + [chunk[..]];
    } else {
      hyper.download := hyper.download.(stopped := true);
    }
  }

  /** AppendToResponseBody is called back with the next chunk and gathers it, or stops. */
  method CallAppend(hyper: Hyper, cb: Registered, v: Locals, memory: bool, id: nat)
    requires Linked(hyper, cb, v) && cb.response != null && hyper.download.taken < |hyper.world.peer|
    requires memory ==> FitsMemory(cb.response.Contents(), hyper.world.peer[hyper.download.taken])
    modifies hyper`calls, hyper`executing, hyper`download, cb.response
    ensures Linked(hyper, cb, v) && BodyIsNew(cb.response)
    ensures View(hyper, Polling, cb, v) == Renewed(AppendChunk(old(View(hyper, Polling, cb, v)), memory, id), id)
  {
    hyper.executing := hyper.executing.(next := id + 1);
    Gather(hyper, cb.response, memory);
  }

  /** The callbacks of one answer. */
  method OnCallback(hyper: Hyper, cb: Registered, v: Locals, a: Answer)
    requires Linked(hyper, cb, v) && FileLinked(hyper, cb, v) && IsCallback(a)
    requires Possible(hyper.program, View(hyper, Polling, cb, v), a)
    modifies hyper`calls, hyper`executing, hyper`log, hyper`sending, hyper`download, hyper`output
    modifies cb.conn, cb.upload, BufferOf(cb.upload), cb.response
    ensures Linked(hyper, cb, v) && FileLinked(hyper, cb, v)
    ensures BodyIsNew(cb.response)
    ensures View(hyper, Polling, cb, v) == Step(hyper.program, old(View(hyper, Polling, cb, v)), a)
  {
    match a
    case ReadCall(_, sys, id) => CallRead(hyper, cb, v, sys, id);
    case WriteCall(_, sys, id) => CallWrite(hyper, cb, v, sys, id);
    case FileCall(sys, id) => CallFile(hyper, cb, v, sys, id);
    case ChunkCall(memory, id) =>
      if cb.response == null {
        CallPrint(hyper, cb, v, id);
      } else {
        CallAppend(hyper, cb, v, memory, id);
      }
  }

  function BufferOf(upload: FileUpload?): set<object> {
    if upload == null then {} else {upload.buf}
  }

  twostate predicate BodyIsNew(response: HttpResponse?)
    reads response
  {
    response != null ==> response.body == old(response.body) || fresh(response.body)
  }

  lemma RenewCommutes(p: Program, s: State, t: Handle, tag: Tag, result: TaskResult, id: nat)
    requires tag == RespBody ==> BodyAllowed(s, result)
    ensures Renewed(Dispatch(p, s, t, tag, result, id), id) == Dispatch(p, Renewed(s, id), t, tag, result, id)
  {
  }

  /** Poll has answered, and the program has done nothing yet. */
  function Polled(s: State, a: Answer): State
    requires EndsPoll(a) && (a.Finished? ==> a.task in s.executing.tasks)
  {
    match a
    case Finished(t, _, id) => Renewed(Delivered(s, t), id)
    case Background(id) =>
      Renewed(s, id).(calls := s.calls + [Use(s.locals.exec), Acquire(Handle(Task, id))],
                      log := s.log.(background := s.log.background + 1))
    case NoTask => s.(calls := s.calls + [Use(s.locals.exec)])
  }

  function ResultOf(s: State, a: Answer): PollResult
    requires EndsPoll(a) && (a.Finished? ==> a.task in s.executing.tasks)
  {
    match a
    case Finished(t, result, _) => Own(t, s.executing.tasks[t], result)
    case Background(id) => Foreign(Handle(Task, id))
    case NoTask => Nothing
  }

  method PollTask(hyper: Hyper, cb: Registered, v: Locals, t: Handle, id: nat)
    requires Linked(hyper, cb, v) && t in hyper.executing.tasks
    modifies hyper`calls, hyper`executing, hyper`log
    ensures Linked(hyper, cb, v)
    ensures View(hyper, Polling, cb, v) == Renewed(Delivered(old(View(hyper, Polling, cb, v)), t), id)
  {
    var tag := hyper.executing.tasks[t];
    hyper.Call(Use(v.exec));
    hyper.Call(Deliver(t));
    hyper.executing := Executing(id + 1, hyper.executing.tasks - {t});
    hyper.log := hyper.log.(delivered := hyper.log.delivered + [tag]);
  }

  /** The answer that ends a poll. */
  method Answered(hyper: Hyper, cb: Registered, v: Locals, a: Answer) returns (r: PollResult)
    requires Linked(hyper, cb, v) && EndsPoll(a) && (a.Finished? ==> a.task in hyper.executing.tasks)
    modifies hyper`calls, hyper`executing, hyper`log
    ensures Linked(hyper, cb, v)
    ensures View(hyper, Polling, cb, v) == Polled(old(View(hyper, Polling, cb, v)), a)
    ensures r == ResultOf(old(View(hyper, Polling, cb, v)), a)
  {
    match a
    case Finished(t, result, id) =>
      r := Own(t, hyper.executing.tasks[t], result);
      PollTask(hyper, cb, v, t, id);
    case Background(id) =>
      hyper.Call(Use(v.exec));
      hyper.executing := hyper.executing.(next := id + 1);
      hyper.log := hyper.log.(background := hyper.log.background + 1);
      var t := hyper.Create(Task);
      return Foreign(t);
    case NoTask =>
      hyper.Call(Use(v.exec));
      return Nothing;
  }

  /** What is left of a run, from `now` on, once poll has returned r. */
  ghost predicate LeadsTo(before: State, p: Program, now: State, r: PollResult, script: seq<Answer>) {
    match r
    case NoAnswer => before == now
    case Nothing => before == RunFrom(p, now.(status := Selecting), script)
    case Own(t, tag, result) =>
      now.executing.next > 0 && WellTyped(p, tag, result) && (tag == RespBody ==> BodyAllowed(now, result)) &&
      before == RunFrom(p, Dispatch(p, now, t, tag, result, now.executing.next - 1), script)
    case Foreign(t) => before == RunFrom(p, now.(calls := now.calls + [Release(t)]), script)
  }

  lemma AnswerLeads(p: Program, s: State, a: Answer, script: seq<Answer>)
    requires EndsPoll(a) && Allowed(p, s, a)
    ensures LeadsTo(RunFrom(p, Step(p, s, a), script), p, Polled(s, a), ResultOf(s, a), script)
  {
    match a
    case Finished(t, result, id) => RenewCommutes(p, Delivered(s, t), t, s.executing.tasks[t], result, id);
    case Background(id) => BackgroundStep(p, s, id);
    case NoTask =>
  }

  lemma BackgroundStep(p: Program, s: State, id: nat)
    requires Possible(p, s, Background(id))
    ensures Step(p, s, Background(id)) ==
      Polled(s, Background(id)).(calls := Polled(s, Background(id)).calls + [Release(Handle(Task, id))])
  {
  }

  predicate IsCallback(a: Answer) {
    a.ReadCall? || a.WriteCall? || a.FileCall? || a.ChunkCall?
  }

  predicate EndsPoll(a: Answer) {
    a.Finished? || a.Background? || a.NoTask?
  }

  lemma NextAnswer(p: Program, s: State, script: seq<Answer>)
    requires script != []
    ensures Allowed(p, s, script[0]) ==> RunFrom(p, s, script) == RunFrom(p, Step(p, s, script[0]), script[1..])
    ensures !Allowed(p, s, script[0]) ==> RunFrom(p, s, script) == s
  {
  }

  /** The answer that ends a poll is taken from the script. */
  method TakeAnswer(hyper: Hyper, cb: Registered, v: Locals) returns (r: PollResult)
    requires Linked(hyper, cb, v) && FileLinked(hyper, cb, v)
    requires hyper.script != [] && !IsCallback(hyper.script[0])
    modifies hyper
    ensures Linked(hyper, cb, v) && FileLinked(hyper, cb, v)
    ensures hyper.script == old(hyper.script[1..])
    ensures LeadsTo(RunFrom(hyper.program, old(View(hyper, Polling, cb, v)), old(hyper.script)),
                    hyper.program, View(hyper, Polling, cb, v), r, hyper.script)
  {
    NextAnswer(hyper.program, View(hyper, Polling, cb, v), hyper.script);
    var a := hyper.script[0];
    if EndsPoll(a) && Allowed(hyper.program, View(hyper, Polling, cb, v), a) {
      AnswerLeads(hyper.program, View(hyper, Polling, cb, v), a, hyper.script[1..]);
      r := Answered(hyper, cb, v, a);
    } else {
      r := NoAnswer;
    }
    hyper.script := hyper.script[1..];
  }

  /** What is left of a run once a callback ran, or could not run. */
  ghost predicate CallbackTaken(before: State, p: Program, now: State, ran: bool, script: seq<Answer>) {
    before == if ran then RunFrom(p, now, script) else now
  }

  /** A callback is taken from the script and run, if it may run now. */
  method TakeCallback(hyper: Hyper, cb: Registered, v: Locals) returns (ran: bool)
    requires Linked(hyper, cb, v) && FileLinked(hyper, cb, v)
    requires hyper.script != [] && IsCallback(hyper.script[0])
    modifies hyper, cb.conn, cb.upload, BufferOf(cb.upload), cb.response
    ensures Linked(hyper, cb, v) && FileLinked(hyper, cb, v) && BodyIsNew(cb.response)
    ensures hyper.script == old(hyper.script[1..])
    ensures CallbackTaken(RunFrom(hyper.program, old(View(hyper, Polling, cb, v)), old(hyper.script)),
                          hyper.program, View(hyper, Polling, cb, v), ran, hyper.script)
  {
    NextAnswer(hyper.program, View(hyper, Polling, cb, v), hyper.script);
    var a := hyper.script[0];
    ran := Allowed(hyper.program, View(hyper, Polling, cb, v), a);
    if ran {
      OnCallback(hyper, cb, v, a);
    }
    hyper.script := hyper.script[1..];
  }

  /** hyper_executor_poll: callbacks first, any number of them, then a finished task or null. */
  method Poll(hyper: Hyper, cb: Registered, v: Locals) returns (r: PollResult)
    requires Linked(hyper, cb, v) && FileLinked(hyper, cb, v)
    modifies hyper, cb.conn, cb.upload, BufferOf(cb.upload), cb.response
    ensures Linked(hyper, cb, v) && FileLinked(hyper, cb, v) && BodyIsNew(cb.response)
    ensures |hyper.script| <= |old(hyper.script)|
    ensures r.NoAnswer? || |hyper.script| < |old(hyper.script)|
    ensures LeadsTo(RunFrom(hyper.program, old(View(hyper, Polling, cb, v)), old(hyper.script)),
                    hyper.program, View(hyper, Polling, cb, v), r, hyper.script)
  {
    ghost var before := RunFrom(hyper.program, View(hyper, Polling, cb, v), hyper.script);
    while |hyper.script| > 0
      invariant Linked(hyper, cb, v) && FileLinked(hyper, cb, v) && BodyIsNew(cb.response)
      invariant |hyper.script| <= |old(hyper.script)|
      invariant before == RunFrom(hyper.program, View(hyper, Polling, cb, v), hyper.script)
      decreases |hyper.script|
    {
      if !IsCallback(hyper.script[0]) {
        r := TakeAnswer(hyper, cb, v);
        return;
      }
      var ran := TakeCallback(hyper, cb, v);
      if !ran {
        return NoAnswer;
      }
    }
    return NoAnswer;
  }

  /** select returned, or the run is not observed any further. */
  datatype Selected = NoMore | Ready(ret: int, readable: bool, writable: bool)

  /** select on the descriptor, for the directions whose bit is set. */
  method SelectFd(hyper: Hyper, cb: Registered, v: Locals, watchRead: bool, watchWrite: bool) returns (r: Selected)
    requires watchRead == cb.conn.readWaker.Some? && watchWrite == cb.conn.writeWaker.Some?
    modifies hyper`script
    ensures
      var before := RunFrom(hyper.program, View(hyper, Selecting, cb, v), old(hyper.script));
      match r
      case NoMore => before == View(hyper, Selecting, cb, v)
      case Ready(ret, readable, writable) =>
        |hyper.script| < |old(hyper.script)| &&
        (ret < 0 || ((readable ==> watchRead) && (writable ==> watchWrite))) &&
        before == RunFrom(hyper.program, OnSelect(hyper.program, View(hyper, Selecting, cb, v), ret, readable,
          writable),
                          hyper.script)
  {
    if |hyper.script| == 0 {
      return NoMore;
    }
    NextAnswer(hyper.program, View(hyper, Selecting, cb, v), hyper.script);
    if !Allowed(hyper.program, View(hyper, Selecting, cb, v), hyper.script[0]) {
      return NoMore;
    }
    var a := hyper.script[0];
    hyper.script := hyper.script[1..];
    return Ready(a.ret, a.readable, a.writable);
  }

  lemma StoppedRun(p: Program, s: State, script: seq<Answer>)
    requires s.status != Polling && s.status != Selecting
    ensures RunFrom(p, s, script) == s
  {
  }

  /** What draining the ready tasks leaves to do: wait in select, or nothing more. */
  ghost predicate Drained(before: State, p: Program, now: State, script: seq<Answer>) {
    before == if now.status == Selecting then RunFrom(p, now, script) else now
  }

  /** What is left of a run after one turn of the inner loop. */
  ghost predicate TurnTaken(before: State, p: Program, now: State, stop: bool, script: seq<Answer>) {
    before == if !stop || now.status == Selecting then RunFrom(p, now, script) else now
  }

  /** What is left of a run after the wait: the next poll, or nothing more. */
  ghost predicate Waited(before: State, p: Program, now: State, script: seq<Answer>) {
    before == if now.status == Polling then RunFrom(p, now, script) else now
  }

  lemma SelectedRun(p: Program, s: State, r: Selected, script: seq<Answer>)
    requires r.Ready?
    ensures
      var before := RunFrom(p, OnSelect(p, s, r.ret, r.readable, r.writable), script);
      if r.ret < 0 then Waited(before, p, s.(status := if p == GetGo then Panicked else Exited(1)), script)
      else if r.ret == 0 && p == GetGo then Waited(before, p, s.(status := Panicked), script)
      else Waited(before, p, WakeWrite(WakeRead(s, r.readable), r.writable).(status := Polling), script)
  {
    var next := OnSelect(p, s, r.ret, r.readable, r.writable);
    if next.status != Polling {
      StoppedRun(p, next, script);
    }
  }

  /** The second half of the outer loop: wait for the watched directions, then wake those that are ready.  Get
      also stops when nothing was ready in time. */
  method WaitAndWake(hyper: Hyper, cb: Registered, v: Locals) returns (status: Status)
    requires Linked(hyper, cb, v) && FileLinked(hyper, cb, v)
    modifies hyper, cb.conn
    ensures Linked(hyper, cb, v) && FileLinked(hyper, cb, v)
    ensures status == Polling ==> |hyper.script| < |old(hyper.script)|
    ensures Waited(RunFrom(hyper.program, old(View(hyper, Selecting, cb, v)), old(hyper.script)),
                   hyper.program, View(hyper, status, cb, v), hyper.script)
  {
    var conn := cb.conn;
    var r := SelectFd(hyper, cb, v, conn.readWaker.Some?, conn.writeWaker.Some?);
    if r.NoMore? {
      return Selecting;
    }
    SelectedRun(hyper.program, View(hyper, Selecting, cb, v), r, hyper.script);
    if r.ret < 0 {
      return if hyper.program == GetGo then Panicked else Exited(1);
    }
    if r.ret == 0 && hyper.program == GetGo {
      return Panicked;
    }
    WakeReady(hyper, cb, v, r.readable, r.writable);
    return Polling;
  }

  method WakeReady(hyper: Hyper, cb: Registered, v: Locals, readable: bool, writable: bool)
    requires Linked(hyper, cb, v)
    modifies hyper`calls, hyper`log, cb.conn
    ensures Linked(hyper, cb, v)
    ensures View(hyper, Polling, cb, v) ==
      WakeWrite(WakeRead(old(View(hyper, Selecting, cb, v)), readable), writable).(status := Polling)
    ensures cb.conn.readWaker == (if readable then None else old(cb.conn.readWaker))
    ensures cb.conn.writeWaker == (if writable then None else old(cb.conn.writeWaker))
  {
    var conn := cb.conn;
    if readable {
      hyper.Wake(conn.readWaker, Read);
      conn.readWaker := None;
    }
    assert View(hyper, Selecting, cb, v) == WakeRead(old(View(hyper, Selecting, cb, v)), readable);
    if writable {
      hyper.Wake(conn.writeWaker, Write);
      conn.writeWaker := None;
    }
  }

  /** The start of every program: connection data, transport, executor, options, and the pushed handshake. */
  method StartHandshake(hyper: Hyper) returns (conn: ConnData, exec: Handle)
    requires hyper.executing == Executing(1, map[])
    modifies hyper`calls, hyper`executing
    ensures fresh(conn) && conn.handle == FIRST_LOCALS.conn && exec == FIRST_LOCALS.exec
    ensures conn.Slots() == PollLoop.Slots(None, None)
    ensures hyper.calls == old(hyper.calls) + ConnectCalls(FIRST_LOCALS)
    ensures hyper.executing == Executing(1, map[Handle(Task, 0) := Handshake])
  {
    var record := hyper.Create(Connection);
    conn := new ConnData(record);
    var io := hyper.Create(Io);
    hyper.Call(Use(io));
    exec := hyper.Create(Kind.Executor);
    assert hyper.calls == old(hyper.calls) + [Acquire(record), Acquire(io), Use(io), Acquire(exec)];
    Configure(hyper, io, exec);
    PushHandshake(hyper, record, exec);
  }

  /** Client options over the executor; handshaking takes them and the transport. */
  method Configure(hyper: Hyper, io: Handle, exec: Handle)
    requires hyper.executing.next == 1
    modifies hyper`calls
    ensures
      var opts := Handle(Options, 0);
      hyper.calls == old(hyper.calls) + [Acquire(opts), Use(opts), Use(exec), Release(io), Release(opts)]
  {
    var opts := hyper.Create(Options);
    hyper.Call(Use(opts));
    hyper.Call(Use(exec));
    hyper.Call(Release(io));
    hyper.Call(Release(opts));
  }

  method PushHandshake(hyper: Hyper, record: Handle, exec: Handle)
    requires hyper.executing == Executing(1, map[])
    modifies hyper`calls, hyper`executing
    ensures
      var task := Handle(Task, 0);
      hyper.calls == old(hyper.calls) + [Acquire(task), Lend(record, exec), Use(task), Push(task)]
    ensures hyper.executing == Executing(1, map[Handle(Task, 0) := Handshake])
  {
    var handshake := hyper.Create(Task);
    hyper.Call(Lend(record, exec));
    hyper.PushTask(handshake, Tag.Handshake);
  }

  /** hyper_clientconn_send, tagged and pushed, for a request without a body. */
  method Submit(hyper: Hyper, v: Locals, client: Handle, req: Handle)
    requires hyper.executing.next > 0 && client == Handle(Client, hyper.Id()) && hyper.program != UploadC
    modifies hyper`calls, hyper`executing, hyper`log
    ensures hyper.executing.next == old(hyper.executing.next)
    ensures hyper.calls == old(hyper.calls) + SendCalls(hyper.program, v, req, hyper.Id())
    ensures hyper.executing == WithTask(old(hyper.executing), Handle(Task, hyper.Id()), Send)
    ensures hyper.log == old(hyper.log).(requests := old(hyper.log).requests + 1)
  {
    var send := hyper.Send(client, req);
    hyper.PushTask(send, Send);
  }

  /** The response is taken from its task and read, and its body from the response. */
  method TakeResponse(hyper: Hyper, t: Handle) returns (resp: Handle, body: Handle)
    requires hyper.executing.next > 0
    modifies hyper`calls
    ensures resp == Handle(Kind.Response, hyper.Id()) && body == Handle(Body, hyper.Id())
    ensures hyper.calls == old(hyper.calls) + ResponseCalls(t, hyper.Id())
  {
    hyper.Call(Use(t));
    resp := hyper.Create(Kind.Response);
    hyper.Call(Release(t));
    hyper.Call(Use(resp));
    body := hyper.Create(Body);
  }

  /** The response is read, its body handed to a foreach task, and the response freed. */
  method StartForeach(hyper: Hyper, t: Handle)
    requires hyper.executing.next > 0 && hyper.program != UploadC
    modifies hyper`calls, hyper`executing
    ensures hyper.executing.next == old(hyper.executing.next)
    ensures hyper.calls == old(hyper.calls) + BodyCalls(hyper.program, t, hyper.Id())
    ensures hyper.executing == WithTask(old(hyper.executing), Handle(Task, hyper.Id()), RespBody)
  {
    var resp, body := TakeResponse(hyper, t);
    ghost var taken := hyper.calls;
    hyper.Call(Release(body));
    var foreach := hyper.Create(Task);
    hyper.PushTask(foreach, RespBody);
    assert hyper.calls == taken + ForeachCalls(body, hyper.Id());
    hyper.Call(Release(resp));
    assert hyper.calls == old(hyper.calls) + BodyCalls(hyper.program, t, hyper.Id());
  }
}
