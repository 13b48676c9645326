/** What one answer leads to, spelled out from the sources: the state after it, with every call made and nothing
    else changed.  These statements are about `Step` as a whole and name none of its parts. */
module LoopAnswers {
  import opened Basics
  import opened Ownership
  import opened PollLoop

  // ---------------------------------------------------------------- callbacks

  /** read_cb: a count is returned as it is, EAGAIN keeps a new waker in the read field and frees the one it
      replaces, any other error is HYPER_IO_ERROR.  The write field is not touched. */
  lemma ReadAnswer(p: Program, s: State, len: nat, sys: SysResult, id: nat)
    requires Allowed(p, s, ReadCall(len, sys, id))
    ensures Step(p, s, ReadCall(len, sys, id)) == s.(
      slots := Slots(if sys.Again? then Some(Handle(Waker, id)) else s.slots.read, s.slots.write),
      calls := s.calls + [Use(s.locals.conn)] +
        (if sys.Again? && s.slots.read.Some? then [Release(s.slots.read.value)] else []) +
        (if sys.Again? then [Acquire(Handle(Waker, id))] else []),
      log := s.log.(history := s.log.history + [
        match sys
        case Bytes(n) => Returned(Read, n, None)
        case Again => Returned(Read, 0xFFFF_FFFF, Some(Handle(Waker, id)))
        case Broken => Returned(Read, 0xFFFF_FFFE, None)]),
      executing := s.executing.(next := id + 1))
  {
  }

  /** write_cb, with the write field. */
  lemma WriteAnswer(p: Program, s: State, len: nat, sys: SysResult, id: nat)
    requires Allowed(p, s, WriteCall(len, sys, id))
    ensures Step(p, s, WriteCall(len, sys, id)) == s.(
      slots := Slots(s.slots.read, if sys.Again? then Some(Handle(Waker, id)) else s.slots.write),
      calls := s.calls + [Use(s.locals.conn)] +
        (if sys.Again? && s.slots.write.Some? then [Release(s.slots.write.value)] else []) +
        (if sys.Again? then [Acquire(Handle(Waker, id))] else []),
      log := s.log.(history := s.log.history + [
        match sys
        case Bytes(n) => Returned(Write, n, None)
        case Again => Returned(Write, 0xFFFF_FFFF, Some(Handle(Waker, id)))
        case Broken => Returned(Write, 0xFFFF_FFFE, None)]),
      executing := s.executing.(next := id + 1))
  {
  }

  /** poll_req_upload: n bytes read are handed over as the next n bytes of the file, 0 is the end, and an error
      hands over nothing. */
  lemma FileAnswer(p: Program, s: State, sys: SysResult, id: nat)
    requires Allowed(p, s, FileCall(sys, id))
    ensures sys.Bytes? && sys.n > 0 ==>
      Step(p, s, FileCall(sys, id)) == s.(
        sending := Sending(s.sending.offset + sys.n,
                           s.sending.chunks + [s.world.file[s.sending.offset..s.sending.offset + sys.n]],
                           s.sending.ended),
        calls := s.calls + [Use(s.locals.fileBuf), Acquire(Handle(Buffer, id)), Release(Handle(Buffer, id))],
        executing := s.executing.(next := id + 1))
    ensures sys == Bytes(0) || !sys.Bytes? ==>
      Step(p, s, FileCall(sys, id)) == s.(
        sending := Sending(s.sending.offset, s.sending.chunks, s.sending.ended || sys == Bytes(0)),
        calls := s.calls + [Use(s.locals.fileBuf)],
        executing := s.executing.(next := id + 1))
  {
  }

  /** print_each_chunk writes the next chunk out. */
  lemma PrintAnswer(s: State, memory: bool, id: nat)
    requires Allowed(ClientC, s, ChunkCall(memory, id))
    ensures Step(ClientC, s, ChunkCall(memory, id)) == s.(
      out := s.out + s.world.peer[s.download.taken],
      download := Download(s.download.taken + 1, s.download.stopped),
      executing := s.executing.(next := id + 1))
  {
  }

  /** AppendToResponseBody: a new buffer holds the response and the next chunk and the old one is freed; without
      memory the iteration stops and nothing else changes. */
  lemma AppendAnswer(s: State, memory: bool, id: nat)
    requires Allowed(GetGo, s, ChunkCall(memory, id))
    ensures memory ==>
      Step(GetGo, s, ChunkCall(memory, id)) == s.(
        out := s.out + s.world.peer[s.download.taken],
        download := Download(s.download.taken + 1, s.download.stopped),
        locals := s.locals.(response := Some(Handle(ResponseBuffer, id))),
        calls := s.calls + [Acquire(Handle(ResponseBuffer, id))] +
          (if s.locals.response.Some? then [Use(s.locals.response.value), Release(s.locals.response.value)] else []) +
          [Use(Handle(ResponseBuffer, id))],
        executing := s.executing.(next := id + 1))
    ensures !memory ==>
      Step(GetGo, s, ChunkCall(memory, id)) == s.(
        download := Download(s.download.taken, true),
        executing := s.executing.(next := id + 1))
  {
  }

  // ---------------------------------------------------------------- poll without a task of the application

  /** A task without userdata is freed; null leaves the inner loop. */
  lemma PollAnswer(p: Program, s: State, id: nat)
    requires s.status == Polling && s.executing.next <= id
    ensures Step(p, s, Background(id)) == s.(
      calls := s.calls + [Use(s.locals.exec), Acquire(Handle(Task, id)), Release(Handle(Task, id))],
      log := s.log.(background := s.log.background + 1),
      executing := s.executing.(next := id + 1))
    ensures Step(p, s, NoTask) == s.(status := Selecting, calls := s.calls + [Use(s.locals.exec)])
  {
  }

  // ---------------------------------------------------------------- select

  /** The ready directions are woken, reading first, and their fields emptied; then the tasks are polled again. */
  lemma ReadyAnswer(p: Program, s: State, ret: int, r: bool, w: bool)
    requires Allowed(p, s, Select(ret, r, w)) && (ret > 0 || (ret == 0 && p != GetGo))
    ensures Step(p, s, Select(ret, r, w)) == s.(
      status := Polling,
      slots := Slots(if r then None else s.slots.read, if w then None else s.slots.write),
      calls := s.calls + (if r then [Release(s.slots.read.value)] else []) +
        (if w then [Release(s.slots.write.value)] else []),
      log := s.log.(history := s.log.history + (if r then [Woken(Read)] else []) + (if w then [Woken(Write)] else [])))
    ensures ret > 0 <==> r || w
  {
  }

  /** A select that fails ends the program, in Go also one that times out; nothing is woken or freed. */
  lemma StopAnswer(p: Program, s: State, ret: int, r: bool, w: bool)
    requires Allowed(p, s, Select(ret, r, w)) && (ret < 0 || (ret == 0 && p == GetGo))
    ensures Step(p, s, Select(ret, r, w)) == s.(status := if p == GetGo then Panicked else Exited(1))
  {
  }

  // ---------------------------------------------------------------- a finished task of the application

  /** An error: the C programs return 1, Get panics; client.c and Get take, read and free the error first. */
  lemma ErrorAnswer(p: Program, s: State, t: Handle, id: nat)
    requires Allowed(p, s, Finished(t, Failed(false), id))
    ensures Step(p, s, Finished(t, Failed(false), id)) == s.(
      status := if p == GetGo then Panicked else Exited(1),
      calls := s.calls + [Use(s.locals.exec), Deliver(t), Use(t)] +
        (if p == UploadC then []
         else [Acquire(Handle(Kind.Error, id)), Use(Handle(Kind.Error, id)), Release(Handle(Kind.Error, id))]),
      log := s.log.(delivered := s.log.delivered + [s.executing.tasks[t]]),
      executing := Executing(id + 1, s.executing.tasks - {t}))
  {
  }

  /** A handshake whose request cannot be built: the C programs return 1 with it half made. */
  lemma UnbuiltAnswer(p: Program, s: State, t: Handle, id: nat)
    requires Allowed(p, s, Finished(t, Connected, id)) && s.executing.tasks[t] == Handshake && p != GetGo
    requires !s.world.config.methodOk || !s.world.config.uriOk
    ensures Step(p, s, Finished(t, Connected, id)) == s.(
      status := Exited(1),
      calls := s.calls + [Use(s.locals.exec), Deliver(t), Use(t), Acquire(Handle(Client, id)), Release(t),
                          Acquire(Handle(Request, id)), Use(Handle(Request, id))],
      log := s.log.(delivered := s.log.delivered + [Tag.Handshake]),
      executing := Executing(id + 1, s.executing.tasks - {t}))
  {
  }

  /** client.c takes the connection, builds and sends a request, and frees the connection. */
  lemma ClientConnected(s: State, t: Handle, id: nat)
    requires Allowed(ClientC, s, Finished(t, Connected, id)) && s.executing.tasks[t] == Handshake
    requires s.world.config.methodOk && s.world.config.uriOk
    ensures Step(ClientC, s, Finished(t, Connected, id)) == s.(
      calls := s.calls + [
        Use(s.locals.exec), Deliver(t), Use(t), Acquire(Handle(Client, id)), Release(t),
        Acquire(Handle(Request, id)), Use(Handle(Request, id)),
        Use(Handle(Client, id)), Release(Handle(Request, id)), Acquire(Handle(Task, id)),
        Use(Handle(Task, id)), Push(Handle(Task, id)), Release(Handle(Client, id))],
      log := s.log.(delivered := s.log.delivered + [Tag.Handshake], requests := s.log.requests + 1),
      executing := Executing(id + 1, (s.executing.tasks - {t})[Handle(Task, id) := Send]))
  {
  }

  /** upload.c also gives the request a body that reads from its buffer. */
  lemma UploadConnected(s: State, t: Handle, id: nat)
    requires Allowed(UploadC, s, Finished(t, Connected, id)) && s.executing.tasks[t] == Handshake
    requires s.world.config.methodOk && s.world.config.uriOk
    ensures Step(UploadC, s, Finished(t, Connected, id)) == s.(
      calls := s.calls + [
        Use(s.locals.exec), Deliver(t), Use(t), Acquire(Handle(Client, id)), Release(t),
        Acquire(Handle(Request, id)), Use(Handle(Request, id)),
        Acquire(Handle(RequestBody, id)), Use(Handle(RequestBody, id)), Release(Handle(RequestBody, id)),
        Use(Handle(Client, id)), Release(Handle(Request, id)), Acquire(Handle(Task, id)),
        Lend(s.locals.fileBuf, s.locals.exec),
        Use(Handle(Task, id)), Push(Handle(Task, id)), Release(Handle(Client, id))],
      log := s.log.(delivered := s.log.delivered + [Tag.Handshake], requests := s.log.requests + 1),
      executing := Executing(id + 1, (s.executing.tasks - {t})[Handle(Task, id) := Send]))
  {
  }

  /** Get sends the request it built before the loop; if the push fails it panics. */
  lemma GetConnected(s: State, t: Handle, id: nat)
    requires Allowed(GetGo, s, Finished(t, Connected, id)) && s.executing.tasks[t] == Handshake
    ensures s.world.config.pushOk ==>
      Step(GetGo, s, Finished(t, Connected, id)) == s.(
      calls := s.calls + [
        Use(s.locals.exec), Deliver(t), Use(t), Acquire(Handle(Client, id)), Release(t),
        Use(Handle(Client, id)), Release(s.locals.req), Acquire(Handle(Task, id)),
        Use(Handle(Task, id)), Push(Handle(Task, id)), Release(Handle(Client, id))],
      log := s.log.(delivered := s.log.delivered + [Tag.Handshake], requests := s.log.requests + 1),
      executing := Executing(id + 1, (s.executing.tasks - {t})[Handle(Task, id) := Send]))
    ensures !s.world.config.pushOk ==>
      Step(GetGo, s, Finished(t, Connected, id)) == s.(
      status := Panicked,
      calls := s.calls + [
        Use(s.locals.exec), Deliver(t), Use(t), Acquire(Handle(Client, id)), Release(t),
        Use(Handle(Client, id)), Release(s.locals.req), Acquire(Handle(Task, id)),
        Use(Handle(Task, id)), Push(Handle(Task, id))],
      log := s.log.(delivered := s.log.delivered + [Tag.Handshake], requests := s.log.requests + 1),
      executing := Executing(id + 1, (s.executing.tasks - {t})[Handle(Task, id) := Send]))
  {
  }

  /** The response is read and freed; client.c and Get hand its body to a foreach task, upload.c keeps it and
      lends it to a first data task. */
  lemma RespondedAnswer(p: Program, s: State, t: Handle, id: nat)
    requires Allowed(p, s, Finished(t, Responded, id)) && s.executing.tasks[t] == Send
    ensures Step(p, s, Finished(t, Responded, id)) == s.(
      locals := if p == UploadC then s.locals.(respBody := Some(Handle(Body, id))) else s.locals,
      calls := s.calls + [Use(s.locals.exec), Deliver(t), Use(t), Acquire(Handle(Kind.Response, id)), Release(t),
                          Use(Handle(Kind.Response, id)), Acquire(Handle(Body, id))] +
        (if p == UploadC then [Acquire(Handle(Task, id)), Lend(Handle(Body, id), Handle(Task, id))]
         else [Release(Handle(Body, id)), Acquire(Handle(Task, id))]) +
        [Use(Handle(Task, id)), Push(Handle(Task, id)), Release(Handle(Kind.Response, id))],
      log := s.log.(delivered := s.log.delivered + [Tag.Send]),
      executing := Executing(id + 1, (s.executing.tasks - {t})[Handle(Task, id) := RespBody]))
  {
  }

  /** upload.c writes the chunk out, frees it and the task, and lends the body to the next data task. */
  lemma DataAnswer(s: State, t: Handle, id: nat)
    requires Allowed(UploadC, s, Finished(t, Data, id)) && s.locals.respBody.Some?
    ensures Step(UploadC, s, Finished(t, Data, id)) == s.(
      out := s.out + s.world.peer[s.download.taken],
      download := Download(s.download.taken + 1, s.download.stopped),
      calls := s.calls + [Use(s.locals.exec), Deliver(t), Use(t), Acquire(Handle(Buffer, id)), Use(Handle(Buffer, id)),
                          Release(Handle(Buffer, id)), Release(t),
                          Acquire(Handle(Task, id)), Lend(s.locals.respBody.value, Handle(Task, id)),
                          Use(Handle(Task, id)), Push(Handle(Task, id))],
      log := s.log.(delivered := s.log.delivered + [RespBody]),
      executing := Executing(id + 1, (s.executing.tasks - {t})[Handle(Task, id) := RespBody]))
  {
  }

  lemma FinishSpelled(p: Program, t: Handle, slots: Slots, v: Locals)
    requires p == UploadC ==> v.respBody.Some?
    ensures FinishCalls(p, t, slots, v) ==
      [Use(t), Release(t)] +
      (if p == UploadC then [Release(v.respBody.value)] else []) +
      [FreeExecutor(v.exec)] +
      ((if slots.read.Some? then [Release(slots.read.value)] else []) +
       (if slots.write.Some? then [Release(slots.write.value)] else []) +
       (if p == GetGo then [] else [Release(v.conn)])) +
      (if p == UploadC then [Release(v.fileBuf)] else [])
  {
  }

  /** The end of the body: task, upload.c's body, executor, wakers and, in C, the record are freed, upload.c's
      buffer last, and the program returns 0. */
  lemma EmptyAnswer(p: Program, s: State, t: Handle, id: nat)
    requires Allowed(p, s, Finished(t, Empty, id)) && (p == UploadC ==> s.locals.respBody.Some?)
    ensures Step(p, s, Finished(t, Empty, id)) == s.(
      status := Exited(0),
      slots := Slots(None, None),
      calls := s.calls + [Use(s.locals.exec), Deliver(t)] +
        ([Use(t), Release(t)] +
         (if p == UploadC then [Release(s.locals.respBody.value)] else []) +
         [FreeExecutor(s.locals.exec)] +
         ((if s.slots.read.Some? then [Release(s.slots.read.value)] else []) +
          (if s.slots.write.Some? then [Release(s.slots.write.value)] else []) +
          (if p == GetGo then [] else [Release(s.locals.conn)])) +
         (if p == UploadC then [Release(s.locals.fileBuf)] else [])),
      log := s.log.(delivered := s.log.delivered + [RespBody]),
      executing := Executing(id + 1, s.executing.tasks - {t}))
  {
    FinishSpelled(p, t, s.slots, s.locals);
  }

  /** Any other type, or an error without value: the C programs stop at their assertion, or return 1 for the error;
      Get goes on after fail(nil). */
  lemma MisfitAnswer(p: Program, s: State, t: Handle, result: TaskResult, id: nat)
    requires Possible(p, s, Finished(t, result, id)) && result != Failed(false)
    requires
      match s.executing.tasks[t]
      case Handshake => !result.Connected?
      case Send => !result.Responded?
      case RespBody => !result.Empty? && !(p == UploadC && result.Data?)
    ensures Step(p, s, Finished(t, result, id)) == s.(
      status := if p == GetGo then FellThrough else if result.Failed? then Exited(1) else AssertFailed,
      calls := s.calls + [Use(s.locals.exec), Deliver(t), Use(t)],
      log := s.log.(delivered := s.log.delivered + [s.executing.tasks[t]]),
      executing := Executing(id + 1, s.executing.tasks - {t}))
  {
  }

  // ---------------------------------------------------------------- the start

  /** client.c and upload.c, and Get when its request can be built. */
  lemma StartAnswer(p: Program, w: World)
    requires p == GetGo ==> w.config.methodOk && w.config.uriOk && w.config.headerOk
    ensures Start(p, w) == State(
      Polling, w,
      (match p
       case ClientC => []
       case UploadC => [Acquire(Handle(FileBuffer, 0))]
       case GetGo => [Acquire(Handle(Request, 0)), Use(Handle(Request, 0))]) +
      [Acquire(Handle(Connection, 0)), Acquire(Handle(Io, 0)), Use(Handle(Io, 0)), Acquire(Handle(Executor, 0)),
       Acquire(Handle(Options, 0)), Use(Handle(Options, 0)), Use(Handle(Executor, 0)),
       Release(Handle(Io, 0)), Release(Handle(Options, 0)),
       Acquire(Handle(Task, 0)), Lend(Handle(Connection, 0), Handle(Executor, 0)), Use(Handle(Task, 0)),
       Push(Handle(Task, 0))],
      Executing(1, map[Handle(Task, 0) := Handshake]), Download(0, false), Sending(0, [], false), Log([], [], 0, 0),
      Slots(None, None),
      Locals(Handle(Connection, 0), Handle(Executor, 0), Handle(FileBuffer, 0), Handle(Request, 0), None, None), [])
  {
  }

  /** Get when its request cannot be built: it panics before it connects. */
  lemma StartRefused(w: World)
    requires !(w.config.methodOk && w.config.uriOk && w.config.headerOk)
    ensures Start(GetGo, w).status == Panicked
    ensures Start(GetGo, w).calls == [Acquire(Handle(Request, 0)), Use(Handle(Request, 0))]
  {
  }

  // ---------------------------------------------------------------- which answers a run may meet

  /** While a program polls, the executor may call back and return in these ways and in no others. */
  lemma PollingAnswers(p: Program, s: State, len: nat, sys: SysResult, t: Handle, result: TaskResult, memory: bool,
                       id: nat)
    requires s.status == Polling && s.executing.next <= id
    ensures Allowed(p, s, ReadCall(len, sys, id)) <==> len < 0xFFFF_FFFE && (sys.Bytes? ==> sys.n <= len)
    ensures Allowed(p, s, WriteCall(len, sys, id)) <==> len < 0xFFFF_FFFE && (sys.Bytes? ==> sys.n <= len)
    ensures Allowed(p, s, FileCall(sys, id)) <==>
      p == UploadC && s.log.requests > 0 &&
      (sys.Bytes? ==>
         s.sending.offset + sys.n <= |s.world.file| && sys.n <= 8192 &&
         (sys.n == 0 <==> s.sending.offset == |s.world.file|))
    ensures Allowed(p, s, Background(id)) && Allowed(p, s, NoTask)
    ensures Allowed(p, s, ChunkCall(memory, id)) <==>
      p != UploadC && (exists b :: b in s.executing.tasks && s.executing.tasks[b] == RespBody) &&
      !s.download.stopped && s.download.taken < |s.world.peer| &&
      (p == GetGo && memory ==> |s.out| + |s.world.peer[s.download.taken]| < 0x1_0000_0000_0000_0000)
    ensures Allowed(p, s, Finished(t, result, id)) <==>
      t in s.executing.tasks &&
      (result == Failed(false) ||
       match s.executing.tasks[t]
       case Handshake => result.Connected?
       case Send => result.Responded?
       case RespBody =>
         if result.Data? then p == UploadC && s.download.taken < |s.world.peer|
         else result.Empty? && (s.download.taken == |s.world.peer| || s.download.stopped))
  {
    FinishedAllowed(p, s, t, result, id);
    if exists b :: b in s.executing.tasks && s.executing.tasks[b] == RespBody {
      var b :| b in s.executing.tasks && s.executing.tasks[b] == RespBody;
      assert RespBody in s.executing.tasks.Values;
    }
  }

  lemma FinishedAllowed(p: Program, s: State, t: Handle, result: TaskResult, id: nat)
    requires s.status == Polling && s.executing.next <= id
    ensures Allowed(p, s, Finished(t, result, id)) <==>
      t in s.executing.tasks &&
      (result == Failed(false) ||
       match s.executing.tasks[t]
       case Handshake => result.Connected?
       case Send => result.Responded?
       case RespBody =>
         if result.Data? then p == UploadC && s.download.taken < |s.world.peer|
         else result.Empty? && (s.download.taken == |s.world.peer| || s.download.stopped))
  {
  }

  /** While it waits, select may fail, or report a subset of the watched directions and its size. */
  lemma SelectingAnswers(p: Program, s: State, ret: int, r: bool, w: bool)
    requires s.status == Selecting
    ensures Allowed(p, s, Select(ret, r, w)) <==>
      ret < 0 ||
      (ret == (if r && w then 2 else if r || w then 1 else 0) &&
       (r ==> s.slots.read.Some?) && (w ==> s.slots.write.Some?))
  {
  }

  /** Nothing else: no callback and no task reaches a program that waits or has stopped, and no answer names a
      handle that is not new. */
  lemma NoOtherAnswers(p: Program, s: State, a: Answer)
    requires Allowed(p, s, a)
    ensures if a.Select? then s.status == Selecting else s.status == Polling
    ensures a.ReadCall? || a.WriteCall? || a.ChunkCall? || a.FileCall? || a.Finished? || a.Background? ==>
      s.executing.next <= a.id
  {
  }
}
