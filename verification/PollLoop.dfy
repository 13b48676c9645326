/** The polling client as a transition system.

    client.c, upload.c and hyper.go run the same two nested loops and the same read and write callbacks, and
    differ in how they handle a finished task.  The application is deterministic.  Everything hyper, the
    kernel and the peer decide arrives as a sequence of answers; `Allowed` lists what is assumed
    of them. */
module PollLoop {
  import opened Basics
  import opened Ownership

  const IO_PENDING: nat := 4294967295
  const IO_ERROR: nat := 4294967294
  const FILE_BUFFER_SIZE: nat := 8192
  const WORD_SIZE: nat := 0x1_0000_0000_0000_0000

  datatype Program = ClientC | UploadC | GetGo

  /** The number an application stores in the userdata of its own tasks. */
  datatype Tag = Handshake | Send | RespBody

  /** What hyper_task_type reports, with whether the error value is null. */
  datatype TaskResult = Empty | Failed(nullError: bool) | Connected | Responded | Data

  /** What read, write or the file read returned: a count, -1 with EAGAIN, or -1 with another errno. */
  datatype SysResult = Bytes(n: nat) | Again | Broken

  datatype Direction = Read | Write

  /** One line of I/O history: a callback returned `ret` and kept `waker`, or the loop woke a direction. */
  datatype IoEvent =
    | Returned(d: Direction, ret: nat, waker: Option<Handle>)
    | Woken(d: Direction)

  /** Outcomes of request building and pushing, the same each time they are asked for. */
  datatype Config = Config(methodOk: bool, uriOk: bool, headerOk: bool, pushOk: bool)

  /** One answer of the environment.  `id` names the handles created while it is handled. */
  datatype Answer =
    | ReadCall(bufLen: nat, sys: SysResult, id: nat)     // the executor calls the read callback
    | WriteCall(bufLen: nat, sys: SysResult, id: nat)    // the executor calls the write callback
    | ChunkCall(memory: bool, id: nat)                   // the next chunk goes to the foreach callback
    | FileCall(sys: SysResult, id: nat)                  // the executor asks for more of the request body
    | Finished(task: Handle, result: TaskResult, id: nat)  // poll returns a task of the application
    | Background(id: nat)                                // poll returns a task without userdata
    | NoTask                                             // poll returns null
    | Select(ret: int, readable: bool, writable: bool)   // select returns

  datatype Status =
    | Polling               // in the inner loop, about to poll
    | Selecting             // in the outer loop, about to select
    | Exited(code: int)     // returned; Get returns its response with code 0
    | Panicked
    | AssertFailed          // assert of an unexpected task type (C)
    | FellThrough           // went on after fail(nil) with a value of another type (Go)

  /** The two waker fields of conn_data. */
  datatype Slots = Slots(read: Option<Handle>, write: Option<Handle>)

  /** The other variables of main that outlive one iteration. */
  datatype Locals = Locals(
    conn: Handle,
    exec: Handle,
    fileBuf: Handle,          // upload.buf
    req: Handle,              // Get's request, built before the loop
    respBody: Option<Handle>, // upload.c's resp_body
    response: Option<Handle>) // Get's ResponseBody

  /** What is fixed for a whole run: request building, the chunks of the response body, the file. */
  datatype World = World(config: Config, peer: seq<seq<byte>>, file: seq<byte>)

  /** The executor: handles with id `next` or more are new; userdata of the tasks not yet delivered. */
  datatype Executing = Executing(next: nat, tasks: map<Handle, Tag>)

  /** The response body: chunks taken, and whether its consumer asked to stop. */
  datatype Download = Download(taken: nat, stopped: bool)

  /** The request body: bytes of the file read, chunks given to hyper, whether the end was reported. */
  datatype Sending = Sending(offset: nat, chunks: seq<seq<byte>>, ended: bool)

  /** What a spectator wrote down. */
  datatype Log = Log(history: seq<IoEvent>, delivered: seq<Tag>, background: nat, requests: nat)

  datatype State = State(
    status: Status,
    world: World,
    calls: seq<Event>,        // every call made so far that names a handle
    executing: Executing,
    download: Download,
    sending: Sending,
    log: Log,
    slots: Slots,
    locals: Locals,
    out: seq<byte>)           // bytes written to standard output, or gathered in Get's response

  // ---------------------------------------------------------------- what is assumed

  /** hyper_task_type of a finished task, by the call that made the task. */
  predicate WellTyped(p: Program, tag: Tag, result: TaskResult) {
    match tag
    case Handshake => result.Connected? || result == Failed(false)
    case Send => result.Responded? || result == Failed(false)
    case RespBody => result.Empty? || result == Failed(false) || (p == UploadC && result.Data?)
  }

  /** read and write never report more than they were asked for; the callbacks' two sentinels lie outside
      the counts they can report. */
  predicate SysAllowed(bufLen: nat, sys: SysResult) {
    bufLen < IO_ERROR && (sys.Bytes? ==> sys.n <= bufLen)
  }

  /** A file read returns at least a byte and at most what is left and fits, or zero exactly at the end. */
  predicate FileAllowed(s: State, sys: SysResult) {
    sys.Bytes? ==>
      s.sending.offset + sys.n <= |s.world.file| && sys.n <= FILE_BUFFER_SIZE &&
      (sys.n == 0 <==> s.sending.offset == |s.world.file|)
  }

  /** A response body is finished when all its chunks were taken, or when its consumer stopped it. */
  predicate BodyAllowed(s: State, result: TaskResult) {
    match result
    case Empty => s.download.taken == |s.world.peer| || s.download.stopped
    case Data => s.download.taken < |s.world.peer|
    case _ => true
  }

  /** The response gathered so far and the chunk to append fit into one address space. */
  predicate FitsMemory(body: seq<byte>, chunk: seq<byte>) {
    |body| + |chunk| < WORD_SIZE
  }

  function BoolToInt(b: bool): int { if b then 1 else 0 }

  /** The answers hyper, the kernel and the peer may give, task types apart. */
  predicate Possible(p: Program, s: State, a: Answer) {
    match a
    case ReadCall(len, sys, id) => s.status == Polling && s.executing.next <= id && SysAllowed(len, sys)
    case WriteCall(len, sys, id) => s.status == Polling && s.executing.next <= id && SysAllowed(len, sys)
    case ChunkCall(memory, id) =>
      s.status == Polling && s.executing.next <= id && p != UploadC &&
      RespBody in s.executing.tasks.Values && !s.download.stopped && s.download.taken < |s.world.peer| &&
      (p == GetGo && memory ==> FitsMemory(s.out, s.world.peer[s.download.taken]))
    case FileCall(sys, id) =>
      s.status == Polling && s.executing.next <= id && p == UploadC && s.log.requests > 0 &&
      FileAllowed(s, sys)
    case Finished(t, result, id) =>
      s.status == Polling && s.executing.next <= id && t in s.executing.tasks &&
      (s.executing.tasks[t] == RespBody ==> BodyAllowed(s, result))
    case Background(id) => s.status == Polling && s.executing.next <= id
    case NoTask => s.status == Polling
    case Select(ret, r, w) =>
      s.status == Selecting &&
      (ret < 0 ||
       (ret == BoolToInt(r) + BoolToInt(w) && (r ==> s.slots.read.Some?) && (w ==> s.slots.write.Some?)))
  }

  predicate TypesHold(p: Program, s: State, a: Answer)
    requires Possible(p, s, a)
  {
    a.Finished? ==> WellTyped(p, s.executing.tasks[a.task], a.result)
  }

  predicate Allowed(p: Program, s: State, a: Answer) {
    Possible(p, s, a) && TypesHold(p, s, a)
  }

  // ---------------------------------------------------------------- callbacks

  /** What the executor gets back from a read or write callback. */
  function IoReturn(sys: SysResult): nat {
    match sys
    case Bytes(n) => n
    case Again => IO_PENDING
    case Broken => IO_ERROR
  }

  /** The waker fields after read_cb or write_cb ran on `slot`. */
  function IoSlot(slot: Option<Handle>, sys: SysResult, id: nat): Option<Handle> {
    if sys.Again? then Some(Handle(Waker, id)) else slot
  }

  /** The calls of read_cb and write_cb: a blocked callback frees the waker it replaces and takes a new one. */
  function IoCalls(conn: Handle, slot: Option<Handle>, sys: SysResult, id: nat): seq<Event> {
    if !sys.Again? then [Use(conn)]
    else if slot.None? then [Use(conn), Acquire(Handle(Waker, id))]
    else [Use(conn), Release(slot.value), Acquire(Handle(Waker, id))]
  }

  function IoLine(d: Direction, sys: SysResult, id: nat): IoEvent {
    Returned(d, IoReturn(sys), if sys.Again? then Some(Handle(Waker, id)) else None)
  }

  function OnRead(s: State, sys: SysResult, id: nat): State {
    s.(calls := s.calls + IoCalls(s.locals.conn, s.slots.read, sys, id),
       slots := s.slots.(read := IoSlot(s.slots.read, sys, id)),
       log := s.log.(history := s.log.history + [IoLine(Read, sys, id)]))
  }

  function OnWrite(s: State, sys: SysResult, id: nat): State {
    s.(calls := s.calls + IoCalls(s.locals.conn, s.slots.write, sys, id),
       slots := s.slots.(write := IoSlot(s.slots.write, sys, id)),
       log := s.log.(history := s.log.history + [IoLine(Write, sys, id)]))
  }

  /** print_each_chunk: the chunk goes to standard output. */
  function PrintChunk(s: State): State
    requires s.download.taken < |s.world.peer|
  {
    s.(out := s.out + s.world.peer[s.download.taken],
       download := s.download.(taken := s.download.taken + 1))
  }

  /** AppendToResponseBody: a new buffer replaces the old one, or nothing changes and iteration stops. */
  function AppendChunk(s: State, memory: bool, id: nat): State
    requires s.download.taken < |s.world.peer|
  {
    if !memory then s.(download := s.download.(stopped := true)) else
    s.(out := s.out + s.world.peer[s.download.taken],
       calls := s.calls + AppendCalls(s.locals.response, id),
       download := s.download.(taken := s.download.taken + 1),
       locals := s.locals.(response := Some(Handle(ResponseBuffer, id))))
  }

  function AppendCalls(former: Option<Handle>, id: nat): seq<Event> {
    var newBuf := Handle(ResponseBuffer, id);
    if former.None? then [Acquire(newBuf), Use(newBuf)]
    else [Acquire(newBuf), Use(former.value), Release(former.value), Use(newBuf)]
  }

  /** poll_req_upload: read into the shared buffer, hand hyper a copy of what was read. */
  function UploadChunk(s: State, sys: SysResult, id: nat): State
    requires FileAllowed(s, sys)
  {
    s.(calls := s.calls + UploadCalls(s.locals.fileBuf, sys, id), sending := FileRead(s.sending, s.world.file, sys))
  }

  /** The request body after a file read: one chunk more, or its end. */
  function FileRead(r: Sending, file: seq<byte>, sys: SysResult): Sending
    requires sys.Bytes? ==> r.offset + sys.n <= |file|
  {
    if !sys.Bytes? then r
    else if sys.n == 0 then r.(ended := true)
    else r.(offset := r.offset + sys.n, chunks := r.chunks + [file[r.offset..r.offset + sys.n]])
  }

  function UploadCalls(fileBuf: Handle, sys: SysResult, id: nat): seq<Event> {
    if sys.Bytes? && sys.n > 0
    then [Use(fileBuf), Acquire(Handle(Buffer, id)), Release(Handle(Buffer, id))]
    else [Use(fileBuf)]
  }

  // ---------------------------------------------------------------- cleaning up

  function ReleaseSlot(slot: Option<Handle>): seq<Event> {
    if slot.Some? then [Release(slot.value)] else []
  }

  /** FreeConnData in Go; free_conn_data in C also frees the record. */
  function FreeConnCalls(p: Program, slots: Slots, conn: Handle): seq<Event> {
    ReleaseSlot(slots.read) + ReleaseSlot(slots.write) + if p == GetGo then [] else [Release(conn)]
  }

  /** The error exit of a finished task: client.c frees a non-null error and returns, Get does the same and
      panics, upload.c returns at once.  fail(nil) only returns, and Get goes on. */
  function Fail(p: Program, s: State, t: Handle, nullError: bool, id: nat): State {
    var err := Handle(Error, id);
    var freed := if nullError || p == UploadC then [Use(t)] else [Use(t), Acquire(err), Use(err), Release(err)];
    s.(calls := s.calls + freed,
       status := if p != GetGo then Exited(1) else if nullError then FellThrough else Panicked)
  }

  /** A type that is neither an error nor the expected one. */
  function Unexpected(p: Program, s: State, t: Handle): State {
    s.(calls := s.calls + [Use(t)], status := if p == GetGo then FellThrough else AssertFailed)
  }

  // ---------------------------------------------------------------- finished tasks

  function WithTask(x: Executing, t: Handle, tag: Tag): Executing {
    x.(tasks := x.tasks[t := tag])
  }

  /** hyper_executor_poll returns t. */
  function Delivered(s: State, t: Handle): State
    requires t in s.executing.tasks
  {
    s.(calls := s.calls + [Use(s.locals.exec), Deliver(t)],
       executing := s.executing.(tasks := s.executing.tasks - {t}),
       log := s.log.(delivered := s.log.delivered + [s.executing.tasks[t]]))
  }

  /** The delivered handshake is read and freed, and C builds its request here; Get built its own before the
      loop. */
  function RequestCalls(p: Program, t: Handle, id: nat): seq<Event> {
    [Use(t), Acquire(Handle(Client, id)), Release(t)] +
    if p == GetGo then [] else [Acquire(Handle(Request, id)), Use(Handle(Request, id))]
  }

  /** upload.c gives the request a body whose data function reads the file. */
  function RequestBodyCalls(id: nat): seq<Event> {
    var body := Handle(RequestBody, id);
    [Acquire(body), Use(body), Release(body)]
  }

  /** hyper_clientconn_send takes the request; what upload.c registered can be reached by the executor from
      then on.  Then userdata and push. */
  function SendCalls(p: Program, v: Locals, req: Handle, id: nat): seq<Event> {
    [Use(Handle(Client, id)), Release(req), Acquire(Handle(Task, id))] +
    (if p == UploadC then [Lend(v.fileBuf, v.exec)] else []) +
    [Use(Handle(Task, id)), Push(Handle(Task, id))]
  }

  /** Everything a delivered handshake leads to, up to the pushed send task. */
  function HandshakeCalls(p: Program, v: Locals, t: Handle, id: nat): seq<Event> {
    RequestCalls(p, t, id) +
    (if p == UploadC then RequestBodyCalls(id) else []) +
    SendCalls(p, v, if p == GetGo then v.req else Handle(Request, id), id)
  }

  function OnHandshake(p: Program, s: State, t: Handle, result: TaskResult, id: nat): State {
    match result
    case Failed(nullError) => Fail(p, s, t, nullError, id)
    case Connected =>
      if p != GetGo && !(s.world.config.methodOk && s.world.config.uriOk) then
        s.(calls := s.calls + RequestCalls(p, t, id), status := Exited(1))
      else
        var sent := s.(calls := s.calls + HandshakeCalls(p, s.locals, t, id),
                       executing := WithTask(s.executing, Handle(Task, id), Send),
                       log := s.log.(requests := s.log.requests + 1));
        if p == GetGo && !s.world.config.pushOk then sent.(status := Panicked)
        else sent.(calls := sent.calls + [Release(Handle(Client, id))])
    case _ => Unexpected(p, s, t)
  }

  /** hyper_body_data: a task that borrows the body until it is delivered. */
  function PullCalls(body: Handle, id: nat): seq<Event> {
    var task := Handle(Task, id);
    [Acquire(task), Lend(body, task), Use(task), Push(task)]
  }

  /** hyper_body_foreach: a task that owns the body. */
  function ForeachCalls(body: Handle, id: nat): seq<Event> {
    var task := Handle(Task, id);
    [Release(body), Acquire(task), Use(task), Push(task)]
  }

  /** From the delivered send task up to the response body. */
  function ResponseCalls(t: Handle, id: nat): seq<Event> {
    var resp := Handle(Response, id);
    [Use(t), Acquire(resp), Release(t), Use(resp), Acquire(Handle(Body, id))]
  }

  /** Everything a delivered response leads to. */
  function BodyCalls(p: Program, t: Handle, id: nat): seq<Event> {
    ResponseCalls(t, id) +
    (if p == UploadC then PullCalls(Handle(Body, id), id) else ForeachCalls(Handle(Body, id), id)) +
    [Release(Handle(Response, id))]
  }

  function OnResponse(p: Program, s: State, t: Handle, result: TaskResult, id: nat): State {
    match result
    case Failed(nullError) => Fail(p, s, t, nullError, id)
    case Responded =>
      s.(calls := s.calls + BodyCalls(p, t, id),
         executing := WithTask(s.executing, Handle(Task, id), RespBody),
         locals := if p == UploadC then s.locals.(respBody := Some(Handle(Body, id))) else s.locals)
    case _ => Unexpected(p, s, t)
  }

  /** The end of a run: the delivered task, upload.c's body, the executor, and only then the connection data
      and upload.c's file buffer. */
  function FinishCalls(p: Program, t: Handle, slots: Slots, v: Locals): seq<Event> {
    [Use(t), Release(t)] +
    (if p != UploadC then [] else if v.respBody.Some? then [Release(v.respBody.value)] else [NullCall]) +
    [FreeExecutor(v.exec)] +
    FreeConnCalls(p, slots, v.conn) +
    if p == UploadC then [Release(v.fileBuf)] else []
  }

  /** upload.c writes a chunk and asks for the next one. */
  function DataCalls(t: Handle, respBody: Option<Handle>, id: nat): seq<Event> {
    var chunk := Handle(Buffer, id);
    [Use(t), Acquire(chunk), Use(chunk), Release(chunk), Release(t)] +
    if respBody.Some? then PullCalls(respBody.value, id) else [NullCall]
  }

  function OnBody(p: Program, s: State, t: Handle, result: TaskResult, id: nat): State
    requires BodyAllowed(s, result)
  {
    match result
    case Failed(nullError) => Fail(p, s, t, nullError, id)
    case Empty =>
      s.(status := Exited(0), slots := Slots(None, None),
         calls := s.calls + FinishCalls(p, t, s.slots, s.locals))
    case Data =>
      if p != UploadC then Unexpected(p, s, t)
      else
        PrintChunk(s).(
          calls := s.calls + DataCalls(t, s.locals.respBody, id),
          executing := if s.locals.respBody.Some? then WithTask(s.executing, Handle(Task, id),
            RespBody) else s.executing)
    case _ => Unexpected(p, s, t)
  }

  /** The switch on the userdata of a delivered task. */
  function Dispatch(p: Program, s: State, t: Handle, tag: Tag, result: TaskResult, id: nat): State
    requires tag == RespBody ==> BodyAllowed(s, result)
  {
    match tag
    case Handshake => OnHandshake(p, s, t, result, id)
    case Send => OnResponse(p, s, t, result, id)
    case RespBody => OnBody(p, s, t, result, id)
  }

  /** A task of hyper's own is freed and nothing else. */
  function OnBackground(s: State, id: nat): State {
    var t := Handle(Task, id);
    s.(calls := s.calls + [Use(s.locals.exec), Acquire(t), Release(t)],
       log := s.log.(background := s.log.background + 1))
  }

  /** hyper_executor_poll returns null. */
  function OnNoTask(s: State): State {
    s.(status := Selecting, calls := s.calls + [Use(s.locals.exec)])
  }

  // ---------------------------------------------------------------- select

  /** Waking consumes the waker; there must be one. */
  function WakeCalls(slot: Option<Handle>): seq<Event> {
    if slot.Some? then [Release(slot.value)] else [NullCall]
  }

  function WakeRead(s: State, ready: bool): State {
    if !ready then s else
    s.(calls := s.calls + WakeCalls(s.slots.read), slots := s.slots.(read := None),
       log := s.log.(history := s.log.history + [Woken(Read)]))
  }

  function WakeWrite(s: State, ready: bool): State {
    if !ready then s else
    s.(calls := s.calls + WakeCalls(s.slots.write), slots := s.slots.(write := None),
       log := s.log.(history := s.log.history + [Woken(Write)]))
  }

  /** Get also gives up when nothing was ready within its timeout. */
  function OnSelect(p: Program, s: State, ret: int, readable: bool, writable: bool): State {
    if ret < 0 then s.(status := if p == GetGo then Panicked else Exited(1))
    else if ret == 0 && p == GetGo then s.(status := Panicked)
    else WakeWrite(WakeRead(s, readable), writable).(status := Polling)
  }

  // ---------------------------------------------------------------- runs

  function Renewed(s: State, id: nat): State {
    s.(executing := s.executing.(next := id + 1))
  }

  function Step(p: Program, s: State, a: Answer): State
    requires Possible(p, s, a)
  {
    match a
    case ReadCall(_, sys, id) => Renewed(OnRead(s, sys, id), id)
    case WriteCall(_, sys, id) => Renewed(OnWrite(s, sys, id), id)
    case ChunkCall(memory, id) => Renewed(if p == ClientC then PrintChunk(s) else AppendChunk(s, memory, id), id)
    case FileCall(sys, id) => Renewed(UploadChunk(s, sys, id), id)
    case Finished(t, result, id) =>
      Renewed(Dispatch(p, Delivered(s, t), t, s.executing.tasks[t], result, id), id)
    case Background(id) => Renewed(OnBackground(s, id), id)
    case NoTask => OnNoTask(s)
    case Select(ret, r, w) => OnSelect(p, s, ret, r, w)
  }

  /** A run follows the answers as long as they are allowed. */
  function RunFrom(p: Program, s: State, script: seq<Answer>): State
    decreases |script|
  {
    if script == [] || !Allowed(p, s, script[0]) then s
    else RunFrom(p, Step(p, s, script[0]), script[1..])
  }

  /** Connection data, transport, executor, options and the handshake, which takes transport and options;
      the connection data is reached through them by the callbacks from then on. */
  function ConnectCalls(v: Locals): seq<Event> {
    var io := Handle(Io, 0);
    var opts := Handle(Options, 0);
    var task := Handle(Task, 0);
    [Acquire(v.conn), Acquire(io), Use(io), Acquire(v.exec)] +
    [Acquire(opts), Use(opts), Use(v.exec), Release(io), Release(opts)] +
    [Acquire(task), Lend(v.conn, v.exec), Use(task), Push(task)]
  }

  const FIRST_LOCALS :=
    Locals(Handle(Connection, 0), Handle(Executor, 0), Handle(FileBuffer, 0), Handle(Request, 0), None, None)

  /** upload.c allocates its buffer before connecting, Get builds its request. */
  function PreludeCalls(p: Program, v: Locals): seq<Event> {
    match p
    case ClientC => []
    case UploadC => [Acquire(v.fileBuf)]
    case GetGo => [Acquire(v.req), Use(v.req)]
  }

  /** Everything up to the first poll.  Get panics if its request cannot be built. */
  function Start(p: Program, w: World): State {
    var refused := p == GetGo && !(w.config.methodOk && w.config.uriOk && w.config.headerOk);
    State(
      if refused then Panicked else Polling,
      w,
      PreludeCalls(p, FIRST_LOCALS) + if refused then [] else ConnectCalls(FIRST_LOCALS),
      Executing(1, if refused then map[] else map[Handle(Task, 0) := Handshake]),
      Download(0, false), Sending(0, [], false), Log([], [], 0, 0), Slots(None, None), FIRST_LOCALS, [])
  }

  function Run(p: Program, w: World, script: seq<Answer>): State {
    RunFrom(p, Start(p, w), script)
  }
}
