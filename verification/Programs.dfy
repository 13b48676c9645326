/** The three programs from end to end: what happens before the first poll, and the two nested loops they share
    around their switches. */
module Programs {
  import opened Basics
  import opened Ownership
  import opened PollLoop
  import opened HyperLib
  import opened Streams
  import opened Executor
  import ClientProgram
  import UploadProgram
  import GetProgram

  /** The switch of the program that is running; only upload.c changes a variable of main in it. */
  method Act(hyper: Hyper, cb: Registered, v: Locals, t: Handle, tag: Tag, result: TaskResult)
      returns (status: Status, v': Locals)
    requires Linked(hyper, cb, v) && FileLinked(hyper, cb, v)
    requires tag == RespBody ==> BodyAllowed(View(hyper, Polling, cb, v), result)
    modifies hyper`calls, hyper`executing, hyper`log, hyper`download, hyper`output, cb.conn
    ensures Linked(hyper, cb, v') && FileLinked(hyper, cb, v')
    ensures View(hyper, status, cb, v') ==
      Dispatch(hyper.program, old(View(hyper, Polling, cb, v)), t, tag, result, old(hyper.Id()))
  {
    v' := v;
    match hyper.program
    case ClientC => status := ClientProgram.Act(hyper, cb, v, t, tag, result);
    case UploadC => status, v' := UploadProgram.Act(hyper, cb, v, t, tag, result);
    case GetGo => status := GetProgram.Act(hyper, cb, v, t, tag, result);
  }

  /** One turn of the inner loop: a poll, and what its task asks for. */
  method Turn(hyper: Hyper, cb: Registered, v0: Locals) returns (status: Status, stop: bool, v: Locals)
    requires Linked(hyper, cb, v0) && FileLinked(hyper, cb, v0)
    modifies hyper, cb.conn, cb.upload, BufferOf(cb.upload), cb.response
    ensures Linked(hyper, cb, v) && FileLinked(hyper, cb, v) && BodyIsNew(cb.response)
    ensures |hyper.script| <= |old(hyper.script)|
    ensures !stop || status == Selecting ==> |hyper.script| < |old(hyper.script)|
    ensures !stop ==> status == Polling
    ensures TurnTaken(RunFrom(hyper.program, old(View(hyper, Polling, cb, v0)), old(hyper.script)),
                      hyper.program, View(hyper, status, cb, v), stop, hyper.script)
  {
    v := v0;
    ghost var before := RunFrom(hyper.program, View(hyper, Polling, cb, v), hyper.script);
    var r := Poll(hyper, cb, v);
    match r
    case NoAnswer => return Polling, true, v;
    case Nothing => return Selecting, true, v;
    case Foreign(t) =>
      hyper.Call(Release(t));
      return Polling, false, v;
    case Own(t, tag, result) =>
      status, v := Settle(hyper, cb, v, t, tag, result, before);
      return status, status != Polling, v;
  }

  /** The task is handled; a program that stops there has come to the end of its run. */
  method Settle(hyper: Hyper, cb: Registered, v0: Locals, t: Handle, tag: Tag, result: TaskResult, ghost before: State)
      returns (status: Status, v: Locals)
    requires Linked(hyper, cb, v0) && FileLinked(hyper, cb, v0)
    requires LeadsTo(before, hyper.program, View(hyper, Polling, cb, v0), Own(t, tag, result), hyper.script)
    modifies hyper`calls, hyper`executing, hyper`log, hyper`download, hyper`output, cb.conn
    ensures Linked(hyper, cb, v) && FileLinked(hyper, cb, v)
    ensures TurnTaken(before, hyper.program, View(hyper, status, cb, v), status != Polling, hyper.script)
    ensures status != Selecting
  {
    ghost var now := View(hyper, Polling, cb, v0);
    status, v := Act(hyper, cb, v0, t, tag, result);
    SettledRun(before, hyper.program, now, t, tag, result, View(hyper, status, cb, v), hyper.script);
  }

  lemma SettledRun(before: State, p: Program, now: State, t: Handle, tag: Tag, result: TaskResult, next: State,
                   script: seq<Answer>)
    requires now.status == Polling && LeadsTo(before, p, now, Own(t, tag, result), script)
    requires next == Dispatch(p, now, t, tag, result, now.executing.next - 1)
    ensures TurnTaken(before, p, next, next.status != Polling, script) && next.status != Selecting
  {
    if next.status != Polling {
      StoppedRun(p, next, script);
    }
  }

  /** The inner loop: act on all ready tasks until poll returns null. */
  method Drain(hyper: Hyper, cb: Registered, v0: Locals) returns (status: Status, v: Locals)
    requires Linked(hyper, cb, v0) && FileLinked(hyper, cb, v0)
    modifies hyper, cb.conn, cb.upload, BufferOf(cb.upload), cb.response
    ensures Linked(hyper, cb, v) && FileLinked(hyper, cb, v) && BodyIsNew(cb.response)
    ensures status == Selecting ==> |hyper.script| < |old(hyper.script)|
    ensures Drained(RunFrom(hyper.program, old(View(hyper, Polling, cb, v0)), old(hyper.script)),
                    hyper.program, View(hyper, status, cb, v), hyper.script)
  {
    var stop := false;
    status, v := Polling, v0;
    ghost var before := RunFrom(hyper.program, View(hyper, Polling, cb, v), hyper.script);
    while !stop
      invariant Linked(hyper, cb, v) && FileLinked(hyper, cb, v) && BodyIsNew(cb.response)
      invariant |hyper.script| <= |old(hyper.script)|
      invariant stop && status == Selecting ==> |hyper.script| < |old(hyper.script)|
      invariant !stop ==> status == Polling
      invariant TurnTaken(before, hyper.program, View(hyper, status, cb, v), stop, hyper.script)
      decreases !stop, |hyper.script|
    {
      status, stop, v := Turn(hyper, cb, v);
    }
  }

  /** The outer loop: act on what is ready, then wait, until the program ends or is not observed any further. */
  method Loop(hyper: Hyper, cb: Registered, v0: Locals) returns (status: Status, v: Locals)
    requires Linked(hyper, cb, v0) && FileLinked(hyper, cb, v0)
    modifies hyper, cb.conn, cb.upload, BufferOf(cb.upload), cb.response
    ensures Linked(hyper, cb, v)
    ensures View(hyper, status, cb, v) ==
      RunFrom(hyper.program, old(View(hyper, Polling, cb, v0)), old(hyper.script))
  {
    ghost var before := RunFrom(hyper.program, View(hyper, Polling, cb, v0), hyper.script);
    v := v0;
    while true
      invariant Linked(hyper, cb, v) && FileLinked(hyper, cb, v) && BodyIsNew(cb.response)
      invariant before == RunFrom(hyper.program, View(hyper, Polling, cb, v), hyper.script)
      decreases |hyper.script|
    {
      status, v := Drain(hyper, cb, v);
      if status != Selecting {
        return;
      }
      status := WaitAndWake(hyper, cb, v);
      if status != Polling {
        return;
      }
    }
  }

  /** main of client.c, from the moment the socket is connected.  It returns the state the run is left in. */
  method Client(w: World, script: seq<Answer>) returns (final: State)
    ensures final == Run(ClientC, w, script)
  {
    var hyper := new Hyper(ClientC, w, script);
    var conn, exec := StartHandshake(hyper);
    var cb := Registered(conn, null, null);
    var v := FIRST_LOCALS.(exec := exec);
    assert View(hyper, Polling, cb, v) == Start(ClientC, w);
    var status;
    status, v := Loop(hyper, cb, v);
    return View(hyper, status, cb, v);
  }

  /** The start of upload.c: its buffer is allocated before anything else. */
  method OpenFile(w: World, script: seq<Answer>) returns (hyper: Hyper, upload: FileUpload)
    ensures fresh(hyper) && fresh(upload) && fresh(upload.buf) && upload.Valid()
    ensures upload.file == w.file && upload.offset == 0 && upload.chunks == []
    ensures hyper.program == UploadC && hyper.world == w && hyper.script == script && hyper.output == []
    ensures upload.handle == FIRST_LOCALS.fileBuf && hyper.calls == PreludeCalls(UploadC, FIRST_LOCALS)
    ensures hyper.executing == Executing(1, map[]) && hyper.download == Download(0, false)
    ensures hyper.sending == Sending(0, [], false) && hyper.log == Log([], [], 0, 0)
  {
    hyper := new Hyper(UploadC, w, script);
    var fileBuf := hyper.Create(FileBuffer);
    upload := new FileUpload(w.file, fileBuf);
  }

  /** main of upload.c, from the moment file and socket are open. */
  method Upload(w: World, script: seq<Answer>) returns (final: State)
    ensures final == Run(UploadC, w, script)
  {
    var hyper, upload := OpenFile(w, script);
    var conn, exec := StartHandshake(hyper);
    var cb := Registered(conn, upload, null);
    var v := FIRST_LOCALS.(exec := exec, fileBuf := upload.handle);
    assert View(hyper, Polling, cb, v) == Start(UploadC, w);
    var status;
    status, v := Loop(hyper, cb, v);
    return View(hyper, status, cb, v);
  }

  /** The start of Get: its request is built before anything else. */
  method BuildRequest(w: World, script: seq<Answer>) returns (hyper: Hyper, response: HttpResponse, req: Handle)
    ensures fresh(hyper) && fresh(response) && response.Valid() && response.accepted == [] && response.body == null
    ensures hyper.program == GetGo && hyper.world == w && hyper.script == script
    ensures req == FIRST_LOCALS.req && hyper.calls == PreludeCalls(GetGo, FIRST_LOCALS)
    ensures hyper.executing == Executing(1, map[]) && hyper.download == Download(0, false)
    ensures hyper.sending == Sending(0, [], false) && hyper.log == Log([], [], 0, 0)
  {
    hyper := new Hyper(GetGo, w, script);
    response := new HttpResponse();
    req := hyper.Create(Request);
    hyper.Call(Use(req));
  }

  /** Get, with its response; `final` is the state the run is left in. */
  method Get(w: World, script: seq<Answer>) returns (final: State, response: HttpResponse)
    ensures final == Run(GetGo, w, script)
    ensures response.Valid() && response.Contents() == final.out
    ensures final.download.taken <= |w.peer| && response.accepted == w.peer[..final.download.taken]
  {
    var hyper, req;
    hyper, response, req := BuildRequest(w, script);
    if !(w.config.methodOk && w.config.uriOk && w.config.headerOk) {
      final := State(Panicked, w, hyper.calls, hyper.executing, hyper.download, hyper.sending, hyper.log,
                     Slots(None, None), FIRST_LOCALS, []);
      assert final.calls == PreludeCalls(GetGo, FIRST_LOCALS) + [];
      StoppedRun(GetGo, final, script);
      return;
    }
    var conn, exec := StartHandshake(hyper);
    var cb := Registered(conn, null, response);
    var v := FIRST_LOCALS.(exec := exec, req := req);
    assert View(hyper, Polling, cb, v) == Start(GetGo, w);
    var status;
    status, v := Loop(hyper, cb, v);
    final := View(hyper, status, cb, v);
  }
}
