/** hyper.go: the switch of Get on the userdata of a finished task. */
module GetProgram {
  import opened Ownership
  import opened PollLoop
  import opened HyperLib
  import opened Executor

  /** fail: it panics on an error and only returns on nil, so its caller goes on.  Get calls it with the error
      of a failed task, and with nil when the type is not the expected one. */
  method Fail(hyper: Hyper, nullError: bool) returns (status: Status)
    requires hyper.executing.next > 0
    modifies hyper`calls
    ensures status == if nullError then FellThrough else Panicked
    ensures
      var err := Handle(Error, hyper.Id());
      hyper.calls == old(hyper.calls) + if nullError then [] else [Acquire(err), Use(err), Release(err)]
  {
    if nullError {
      return FellThrough;
    }
    var err := hyper.Create(Error);
    hyper.Call(Use(err));
    hyper.Call(Release(err));
    return Panicked;
  }

  /** A task that is not of the expected type: fail is called with its error, or with nil. */
  method Reject(hyper: Hyper, cb: Registered, v: Locals, t: Handle, result: TaskResult) returns (status: Status)
    requires Linked(hyper, cb, v)
    modifies hyper`calls
    ensures Linked(hyper, cb, v)
    ensures View(hyper, status, cb, v) ==
      if result.Failed? then PollLoop.Fail(GetGo, old(View(hyper, Polling, cb, v)), t, result.nullError, hyper.Id())
      else Unexpected(GetGo, old(View(hyper, Polling, cb, v)), t)
  {
    hyper.Call(Use(t));
    status := Fail(hyper, result.Failed? ==> result.nullError);
  }

  /** The client connection is taken from the task. */
  method TakeClient(hyper: Hyper, t: Handle) returns (client: Handle)
    requires hyper.executing.next > 0
    modifies hyper`calls
    ensures hyper.calls == old(hyper.calls) + RequestCalls(GetGo, t, hyper.Id())
    ensures client == Handle(Client, hyper.Id())
  {
    hyper.Call(Use(t));
    client := hyper.Create(Client);
    hyper.Call(Release(t));
  }

  /** The request built before the loop goes out over it. */
  method SendRequest(hyper: Hyper, v: Locals, t: Handle) returns (client: Handle)
    requires hyper.executing.next > 0 && hyper.program == GetGo
    modifies hyper`calls, hyper`executing, hyper`log
    ensures hyper.executing.next == old(hyper.executing.next) && client == Handle(Client, hyper.Id())
    ensures hyper.calls == old(hyper.calls) + HandshakeCalls(GetGo, v, t, hyper.Id())
    ensures hyper.executing == WithTask(old(hyper.executing), Handle(Task, hyper.Id()), Send)
    ensures hyper.log == old(hyper.log).(requests := old(hyper.log).requests + 1)
  {
    client := TakeClient(hyper, t);
    Submit(hyper, v, client, v.req);
    assert hyper.calls == old(hyper.calls) + HandshakeCalls(GetGo, v, t, hyper.Id());
  }

  method CaseHandshake(hyper: Hyper, cb: Registered, v: Locals, t: Handle, result: TaskResult) returns (status: Status)
    requires Linked(hyper, cb, v) && hyper.program == GetGo
    modifies hyper`calls, hyper`executing, hyper`log
    ensures Linked(hyper, cb, v)
    ensures View(hyper, status, cb, v) == OnHandshake(GetGo, old(View(hyper, Polling, cb, v)), t, result,
      old(hyper.Id()))
  {
    if !result.Connected? {
      status := Reject(hyper, cb, v, t, result);
      return;
    }
    var client := SendRequest(hyper, v, t);
    if !hyper.world.config.pushOk {
      return Panicked;
    }
    hyper.Call(Release(client));
    return Polling;
  }

  method CaseSend(hyper: Hyper, cb: Registered, v: Locals, t: Handle, result: TaskResult) returns (status: Status)
    requires Linked(hyper, cb, v) && hyper.program == GetGo
    modifies hyper`calls, hyper`executing
    ensures Linked(hyper, cb, v)
    ensures View(hyper, status, cb, v) == OnResponse(GetGo, old(View(hyper, Polling, cb, v)), t, result,
      old(hyper.Id()))
  {
    if result.Responded? {
      StartForeach(hyper, t);
      return Polling;
    }
    status := Reject(hyper, cb, v, t, result);
  }

  method CaseBody(hyper: Hyper, cb: Registered, v: Locals, t: Handle, result: TaskResult) returns (status: Status)
    requires Linked(hyper, cb, v) && hyper.program == GetGo
    requires BodyAllowed(View(hyper, Polling, cb, v), result)
    modifies hyper`calls, cb.conn
    ensures Linked(hyper, cb, v)
    ensures View(hyper, status, cb, v) == OnBody(GetGo, old(View(hyper, Polling, cb, v)), t, result,
      old(hyper.Id()))
  {
    if !result.Empty? {
      status := Reject(hyper, cb, v, t, result);
      return;
    }
    hyper.Call(Use(t));
    hyper.Call(Release(t));
    hyper.Call(FreeExecutor(v.exec));
    cb.conn.Free(hyper);
    return Exited(0);
  }

  /** The switch on the userdata of a finished task. */
  method Act(hyper: Hyper, cb: Registered, v: Locals, t: Handle, tag: Tag, result: TaskResult) returns (status: Status)
    requires Linked(hyper, cb, v) && hyper.program == GetGo
    requires tag == RespBody ==> BodyAllowed(View(hyper, Polling, cb, v), result)
    modifies hyper`calls, hyper`executing, hyper`log, cb.conn
    ensures Linked(hyper, cb, v)
    ensures View(hyper, status, cb, v) ==
      Dispatch(GetGo, old(View(hyper, Polling, cb, v)), t, tag, result, old(hyper.Id()))
  {
    match tag
    case Handshake => status := CaseHandshake(hyper, cb, v, t, result);
    case Send => status := CaseSend(hyper, cb, v, t, result);
    case RespBody => status := CaseBody(hyper, cb, v, t, result);
  }
}
