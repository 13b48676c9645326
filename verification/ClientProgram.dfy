/** client.c: its switch on the userdata of a finished task. */
module ClientProgram {
  import opened Ownership
  import opened PollLoop
  import opened HyperLib
  import opened Executor

  /** The error branch of a case, and the label fail. */
  method Fail(hyper: Hyper, nullError: bool)
    requires hyper.executing.next > 0
    modifies hyper`calls
    ensures
      var err := Handle(Error, hyper.Id());
      hyper.calls == old(hyper.calls) + if nullError then [] else [Acquire(err), Use(err), Release(err)]
  {
    if !nullError {
      var err := hyper.Create(Error);
      hyper.Call(Use(err));
      hyper.Call(Release(err));
    }
  }

  /** A task that is not of the expected type: an error ends the program, any other type fails the assertion. */
  method Reject(hyper: Hyper, cb: Registered, v: Locals, t: Handle, result: TaskResult) returns (status: Status)
    requires Linked(hyper, cb, v)
    modifies hyper`calls
    ensures Linked(hyper, cb, v)
    ensures View(hyper, status, cb, v) ==
      if result.Failed? then PollLoop.Fail(ClientC, old(View(hyper, Polling, cb, v)), t, result.nullError, hyper.Id())
      else Unexpected(ClientC, old(View(hyper, Polling, cb, v)), t)
    ensures status == if result.Failed? then Exited(1) else AssertFailed
    ensures hyper.calls == old(hyper.calls) + [Use(t)] +
      if result.Failed? && !result.nullError then
        [Acquire(Handle(Error, hyper.Id())), Use(Handle(Error, hyper.Id())), Release(Handle(Error, hyper.Id()))]
      else []
  {
    hyper.Call(Use(t));
    if result.Failed? {
      Fail(hyper, result.nullError);
      return Exited(1);
    }
    return AssertFailed;
  }

  /** The client connection is taken from the task, and a request is built for it. */
  method PrepareRequest(hyper: Hyper, t: Handle) returns (client: Handle, req: Handle)
    requires hyper.executing.next > 0
    modifies hyper`calls
    ensures hyper.calls == old(hyper.calls) + RequestCalls(ClientC, t, hyper.Id())
    ensures client == Handle(Client, hyper.Id()) && req == Handle(Request, hyper.Id())
  {
    hyper.Call(Use(t));
    client := hyper.Create(Client);
    hyper.Call(Release(t));
    req := hyper.Create(Request);
    hyper.Call(Use(req));
  }

  method CaseHandshake(hyper: Hyper, cb: Registered, v: Locals, t: Handle, result: TaskResult) returns (status: Status)
    requires Linked(hyper, cb, v) && hyper.program == ClientC
    modifies hyper`calls, hyper`executing, hyper`log
    ensures Linked(hyper, cb, v)
    ensures View(hyper, status, cb, v) == OnHandshake(ClientC, old(View(hyper, Polling, cb, v)), t, result,
      old(hyper.Id()))
    ensures !result.Connected? ==>
      && status == (if result.Failed? then Exited(1) else AssertFailed)
      && hyper.calls == old(hyper.calls) + [Use(t)] +
           if result.Failed? && !result.nullError then
             [Acquire(Handle(Error, hyper.Id())), Use(Handle(Error, hyper.Id())), Release(Handle(Error, hyper.Id()))]
           else []
  {
    if !result.Connected? {
      status := Reject(hyper, cb, v, t, result);
      return;
    }
    var client, req := PrepareRequest(hyper, t);
    if !hyper.world.config.methodOk {
      return Exited(1);
    }
    if !hyper.world.config.uriOk {
      return Exited(1);
    }
    Submit(hyper, v, client, req);
    assert hyper.calls == old(hyper.calls) + HandshakeCalls(ClientC, v, t, hyper.Id());
    hyper.Call(Release(client));
    return Polling;
  }

  method CaseSend(hyper: Hyper, cb: Registered, v: Locals, t: Handle, result: TaskResult) returns (status: Status)
    requires Linked(hyper, cb, v) && hyper.program == ClientC
    modifies hyper`calls, hyper`executing
    ensures Linked(hyper, cb, v)
    ensures View(hyper, status, cb, v) == OnResponse(ClientC, old(View(hyper, Polling, cb, v)), t, result,
      old(hyper.Id()))
    ensures !result.Responded? ==>
      && status == (if result.Failed? then Exited(1) else AssertFailed)
      && hyper.calls == old(hyper.calls) + [Use(t)] +
           if result.Failed? && !result.nullError then
             [Acquire(Handle(Error, hyper.Id())), Use(Handle(Error, hyper.Id())), Release(Handle(Error, hyper.Id()))]
           else []
  {
    if result.Responded? {
      StartForeach(hyper, t);
      return Polling;
    }
    status := Reject(hyper, cb, v, t, result);
  }

  method CaseBody(hyper: Hyper, cb: Registered, v: Locals, t: Handle, result: TaskResult) returns (status: Status)
    requires Linked(hyper, cb, v) && hyper.program == ClientC
    requires BodyAllowed(View(hyper, Polling, cb, v), result)
    modifies hyper`calls, cb.conn
    ensures Linked(hyper, cb, v)
    ensures View(hyper, status, cb, v) == OnBody(ClientC, old(View(hyper, Polling, cb, v)), t, result,
      old(hyper.Id()))
    ensures !result.Empty? ==>
      && status == (if result.Failed? then Exited(1) else AssertFailed)
      && hyper.calls == old(hyper.calls) + [Use(t)] +
           if result.Failed? && !result.nullError then
             [Acquire(Handle(Error, hyper.Id())), Use(Handle(Error, hyper.Id())), Release(Handle(Error, hyper.Id()))]
           else []
  {
    if !result.Empty? {
      status := Reject(hyper, cb, v, t, result);
      return;
    }
    hyper.Call(Use(t));
    hyper.Call(Release(t));
    hyper.Call(FreeExecutor(v.exec));
    cb.conn.Free(hyper);
    return Exited(0);
  }

  /** The switch on the userdata of a finished task. */
  method Act(hyper: Hyper, cb: Registered, v: Locals, t: Handle, tag: Tag, result: TaskResult) returns (status: Status)
    requires Linked(hyper, cb, v) && hyper.program == ClientC
    requires tag == RespBody ==> BodyAllowed(View(hyper, Polling, cb, v), result)
    modifies hyper`calls, hyper`executing, hyper`log, cb.conn
    ensures Linked(hyper, cb, v)
    ensures View(hyper, status, cb, v) ==
      Dispatch(ClientC, old(View(hyper, Polling, cb, v)), t, tag, result, old(hyper.Id()))
  {
    match tag
    case Handshake => status := CaseHandshake(hyper, cb, v, t, result);
    case Send => status := CaseSend(hyper, cb, v, t, result);
    case RespBody => status := CaseBody(hyper, cb, v, t, result);
  }
}
