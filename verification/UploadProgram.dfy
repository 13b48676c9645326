/** upload.c: its switch on the userdata of a finished task, which sends a file and pulls the response body chunk
    by chunk. */
module UploadProgram {
  import opened Basics
  import opened Ownership
  import opened PollLoop
  import opened HyperLib
  import opened Executor

  /** A task that is not of the expected type: an error ends the program at once, any other type fails the
      assertion. */
  method Reject(hyper: Hyper, cb: Registered, v: Locals, t: Handle, result: TaskResult) returns (status: Status)
    requires Linked(hyper, cb, v)
    modifies hyper`calls
    ensures Linked(hyper, cb, v)
    ensures View(hyper, status, cb, v) ==
      if result.Failed? then Fail(UploadC, old(View(hyper, Polling, cb, v)), t, result.nullError, hyper.Id())
      else Unexpected(UploadC, old(View(hyper, Polling, cb, v)), t)
    ensures status == (if result.Failed? then Exited(1) else AssertFailed) && hyper.calls == old(hyper.calls) + [Use(t)]
  {
    hyper.Call(Use(t));
    return if result.Failed? then Exited(1) else AssertFailed;
  }

  /** The client connection is taken from the task, and a request is built for it. */
  method PrepareRequest(hyper: Hyper, t: Handle) returns (client: Handle, req: Handle)
    requires hyper.executing.next > 0
    modifies hyper`calls
    ensures hyper.calls == old(hyper.calls) + RequestCalls(UploadC, t, hyper.Id())
    ensures client == Handle(Client, hyper.Id()) && req == Handle(Request, hyper.Id())
  {
    hyper.Call(Use(t));
    client := hyper.Create(Client);
    hyper.Call(Release(t));
    req := hyper.Create(Request);
    hyper.Call(Use(req));
  }

  method CaseHandshake(hyper: Hyper, cb: Registered, v: Locals, t: Handle, result: TaskResult) returns (status: Status)
    requires Linked(hyper, cb, v) && hyper.program == UploadC
    modifies hyper`calls, hyper`executing, hyper`log
    ensures Linked(hyper, cb, v)
    ensures View(hyper, status, cb, v) == OnHandshake(UploadC, old(View(hyper, Polling, cb, v)), t, result,
      old(hyper.Id()))
    ensures !result.Connected? ==>
      status == (if result.Failed? then Exited(1) else AssertFailed) && hyper.calls == old(hyper.calls) + [Use(t)]
  {
    if !result.Connected? {
      status := Reject(hyper, cb, v, t, result);
      return;
    }
    var client, req := PrepareRequest(hyper, t);
    if !hyper.world.config.methodOk {
      return Exited(1);
    }
    if !hyper.world.config.uriOk {
      return Exited(1);
    }
    SendFile(hyper, v, client, req);
    assert hyper.calls == old(hyper.calls) + HandshakeCalls(UploadC, v, t, hyper.Id());
    hyper.Call(Release(client));
    return Polling;
  }

  /** The request gets a body whose data function reads the file, and is sent. */
  method SendFile(hyper: Hyper, v: Locals, client: Handle, req: Handle)
    requires hyper.executing.next > 0 && client == Handle(Client, hyper.Id())
    modifies hyper`calls, hyper`executing, hyper`log
    ensures hyper.executing.next == old(hyper.executing.next)
    ensures hyper.calls == old(hyper.calls) + (RequestBodyCalls(hyper.Id()) + SendCalls(UploadC, v, req, hyper.Id()))
    ensures hyper.executing == WithTask(old(hyper.executing), Handle(Task, hyper.Id()), Send)
    ensures hyper.log == old(hyper.log).(requests := old(hyper.log).requests + 1)
  {
    var body := hyper.Create(RequestBody);
    hyper.Call(Use(body));
    hyper.Call(Release(body));
    assert hyper.calls == old(hyper.calls) + RequestBodyCalls(hyper.Id());
    ghost var prepared := hyper.calls;
    var send := hyper.Send(client, req);
    hyper.Call(Lend(v.fileBuf, v.exec));
    hyper.PushTask(send, Send);
    assert hyper.calls == prepared + SendCalls(UploadC, v, req, hyper.Id());
  }

  /** hyper_body_data on the response body, tagged and pushed. */
  method Pull(hyper: Hyper, body: Handle)
    requires hyper.executing.next > 0
    modifies hyper`calls, hyper`executing
    ensures hyper.executing.next == old(hyper.executing.next)
    ensures hyper.calls == old(hyper.calls) + PullCalls(body, hyper.Id())
    ensures hyper.executing == WithTask(old(hyper.executing), Handle(Task, hyper.Id()), RespBody)
  {
    var data := hyper.Create(Task);
    hyper.Call(Lend(body, data));
    hyper.PushTask(data, RespBody);
  }

  /** The response body is kept in resp_body for the tasks to come. */
  method CaseSend(hyper: Hyper, cb: Registered, v: Locals, t: Handle, result: TaskResult)
      returns (status: Status, v': Locals)
    requires Linked(hyper, cb, v) && hyper.program == UploadC
    modifies hyper`calls, hyper`executing
    ensures Linked(hyper, cb, v') && v'.fileBuf == v.fileBuf
    ensures View(hyper, status, cb, v') == OnResponse(UploadC, old(View(hyper, Polling, cb, v)), t, result,
      old(hyper.Id()))
    ensures !result.Responded? ==>
      status == (if result.Failed? then Exited(1) else AssertFailed) && hyper.calls == old(hyper.calls) + [Use(t)]
  {
    v' := v;
    if !result.Responded? {
      status := Reject(hyper, cb, v, t, result);
      return;
    }
    var resp, body := TakeResponse(hyper, t);
    v' := v.(respBody := Some(body));
    Pull(hyper, body);
    hyper.Call(Release(resp));
    assert hyper.calls == old(hyper.calls) + BodyCalls(UploadC, t, hyper.Id());
    return Polling, v';
  }

  /** A chunk is written out and the next one asked for; the end releases everything. */
  method CaseBody(hyper: Hyper, cb: Registered, v: Locals, t: Handle, result: TaskResult) returns (status: Status)
    requires Linked(hyper, cb, v) && hyper.program == UploadC
    requires BodyAllowed(View(hyper, Polling, cb, v), result)
    modifies hyper`calls, hyper`executing, hyper`download, hyper`output, cb.conn
    ensures Linked(hyper, cb, v)
    ensures View(hyper, status, cb, v) == OnBody(UploadC, old(View(hyper, Polling, cb, v)), t, result,
      old(hyper.Id()))
    ensures !result.Empty? && !result.Data? ==>
      status == (if result.Failed? then Exited(1) else AssertFailed) && hyper.calls == old(hyper.calls) + [Use(t)]
  {
    match result
    case Data =>
      WriteChunk(hyper, v, t);
      hyper.output := hyper.output + hyper.world.peer[hyper.download.taken];
      hyper.download := hyper.download.(taken := hyper.download.taken + 1);
      return Polling;
    case Empty =>
      Cleanup(hyper, cb.conn, v, t);
      return Exited(0);
    case _ => status := Reject(hyper, cb, v, t, result);
  }

  /** Everything released in order before main returns 0. */
  method Cleanup(hyper: Hyper, conn: ConnData, v: Locals, t: Handle)
    requires hyper.program == UploadC && conn.handle == v.conn
    modifies hyper`calls, conn
    ensures hyper.calls == old(hyper.calls) + FinishCalls(UploadC, t, old(conn.Slots()), v)
    ensures conn.Slots() == PollLoop.Slots(None, None)
  {
    FreeTaskAndBody(hyper, v, t);
    hyper.Call(FreeExecutor(v.exec));
    conn.Free(hyper);
    hyper.Call(Release(v.fileBuf));
  }

  method FreeTaskAndBody(hyper: Hyper, v: Locals, t: Handle)
    modifies hyper`calls
    ensures hyper.calls == old(hyper.calls) + ([Use(t), Release(t)] +
      if v.respBody.Some? then [Release(v.respBody.value)] else [NullCall])
  {
    hyper.Call(Use(t));
    hyper.Call(Release(t));
    hyper.Call(if v.respBody.Some? then Release(v.respBody.value) else NullCall);
  }

  /** The calls around one pulled chunk. */
  method WriteChunk(hyper: Hyper, v: Locals, t: Handle)
    requires hyper.executing.next > 0
    modifies hyper`calls, hyper`executing
    ensures hyper.executing.next == old(hyper.executing.next)
    ensures hyper.calls == old(hyper.calls) + DataCalls(t, v.respBody, hyper.Id())
    ensures hyper.executing ==
      if v.respBody.Some? then WithTask(old(hyper.executing), Handle(Task, hyper.Id()),
        RespBody) else old(hyper.executing)
  {
    hyper.Call(Use(t));
    var chunk := hyper.Create(Buffer);
    hyper.Call(Use(chunk));
    hyper.Call(Release(chunk));
    hyper.Call(Release(t));
    assert hyper.calls == old(hyper.calls) + [Use(t), Acquire(chunk), Use(chunk), Release(chunk), Release(t)];
    if v.respBody.Some? {
      Pull(hyper, v.respBody.value);
    } else {
      hyper.Call(NullCall);
    }
  }

  /** The switch on the userdata of a finished task. */
  method Act(hyper: Hyper, cb: Registered, v: Locals, t: Handle, tag: Tag, result: TaskResult)
      returns (status: Status, v': Locals)
    requires Linked(hyper, cb, v) && FileLinked(hyper, cb, v) && hyper.program == UploadC
    requires tag == RespBody ==> BodyAllowed(View(hyper, Polling, cb, v), result)
    modifies hyper`calls, hyper`executing, hyper`log, hyper`download, hyper`output, cb.conn
    ensures Linked(hyper, cb, v') && FileLinked(hyper, cb, v')
    ensures View(hyper, status, cb, v') ==
      Dispatch(UploadC, old(View(hyper, Polling, cb, v)), t, tag, result, old(hyper.Id()))
  {
    v' := v;
    match tag
    case Handshake => status := CaseHandshake(hyper, cb, v, t, result);
    case Send => status, v' := CaseSend(hyper, cb, v, t, result);
    case RespBody => status := CaseBody(hyper, cb, v, t, result);
  }
}
