/** The hyper library, the kernel and the peer as a program meets them: one object that answers from a
    script, notes every call, and calls the application back while it polls. */
module HyperLib {
  import opened Basics
  import opened Ownership
  import opened PollLoop

  const ITER_CONTINUE: nat := 0
  const ITER_BREAK: nat := 1
  const POLL_READY: nat := 0
  const POLL_ERROR: nat := 3

  class Hyper {
    const program: Program
    const world: World
    var script: seq<Answer>   // answers still to come
    var calls: seq<Event>
    var executing: Executing
    var download: Download
    var sending: Sending
    var log: Log
    var output: seq<byte>     // standard output

    constructor (program: Program, world: World, script: seq<Answer>)
      ensures this.program == program && this.world == world && this.script == script
      ensures calls == [] && executing == Executing(1, map[]) && output == []
      ensures download == Download(0, false) && sending == Sending(0, [], false) && log == Log([], [], 0, 0)
    {
      this.program := program;
      this.world := world;
      this.script := script;
      calls, executing, output := [], Executing(1, map[]), [];
      download, sending, log := Download(0, false), Sending(0, [], false), Log([], [], 0, 0);
    }

    /** Handles created from now on carry this number. */
    function Id(): int
      reads this
    {
      executing.next - 1
    }

    method Call(e: Event)
      modifies this`calls
      ensures calls == old(calls) + [e]
    {
      calls := calls + [e];
    }

    /** A call that returns a new handle. */
    method Create(kind: Kind) returns (h: Handle)
      requires executing.next > 0
      modifies this`calls
      ensures h == Handle(kind, Id()) && calls == old(calls) + [Acquire(h)]
    {
      h := Handle(kind, Id());
      Call(Acquire(h));
    }

    /** hyper_clientconn_send: takes the request and returns the task that sends it. */
    method Send(client: Handle, req: Handle) returns (task: Handle)
      requires executing.next > 0
      modifies this`calls, this`log
      ensures task == Handle(Task, Id())
      ensures calls == old(calls) + [Use(client), Release(req), Acquire(task)]
      ensures log == old(log).(requests := old(log).requests + 1)
    {
      Call(Use(client));
      Call(Release(req));
      task := Create(Task);
      log := log.(requests := log.requests + 1);
    }

    /** hyper_waker_wake. */
    method Wake(waker: Option<Handle>, d: Direction)
      modifies this`calls, this`log
      ensures calls == old(calls) + WakeCalls(waker)
      ensures log == old(log).(history := old(log).history + [Woken(d)])
    {
      if waker.Some? {
        Call(Release(waker.value));
      } else {
        Call(NullCall);
      }
      log := log.(history := log.history + [Woken(d)]);
    }

    /** hyper_task_set_userdata and hyper_executor_push. */
    method PushTask(t: Handle, tag: Tag)
      modifies this`calls, this`executing
      ensures calls == old(calls) + [Use(t), Push(t)]
      ensures executing == WithTask(old(executing), t, tag)
    {
      Call(Use(t));
      Call(Push(t));
      executing := executing.(tasks := executing.tasks[t := tag]);
    }
  }

  /** struct conn_data and ConnData. */
  class ConnData {
    const handle: Handle
    var readWaker: Option<Handle>
    var writeWaker: Option<Handle>

    constructor (handle: Handle)
      ensures this.handle == handle && readWaker.None? && writeWaker.None?
    {
      this.handle := handle;
      readWaker, writeWaker := None, None;
    }

    function Slots(): Slots
      reads this
    {
      PollLoop.Slots(readWaker, writeWaker)
    }

    /** read_cb: the bytes moved, or an error, or a new waker in place of the old one. */
    method ReadCb(hyper: Hyper, sys: SysResult) returns (ret: nat)
      requires hyper.executing.next > 0
      modifies this`readWaker, hyper`calls
      ensures ret == IoReturn(sys)
      ensures readWaker == IoSlot(old(readWaker), sys, hyper.Id())
      ensures hyper.calls == old(hyper.calls) + IoCalls(handle, old(readWaker), sys, hyper.Id())
    {
      hyper.Call(Use(handle));
      if sys.Bytes? {
        return sys.n;
      }
      if !sys.Again? {
        return IO_ERROR;
      }
      if readWaker.Some? {
        hyper.Call(Release(readWaker.value));
      }
      var w := hyper.Create(Waker);
      readWaker := Some(w);
      return IO_PENDING;
    }

    /** write_cb, the same for the other direction. */
    method WriteCb(hyper: Hyper, sys: SysResult) returns (ret: nat)
      requires hyper.executing.next > 0
      modifies this`writeWaker, hyper`calls
      ensures ret == IoReturn(sys)
      ensures writeWaker == IoSlot(old(writeWaker), sys, hyper.Id())
      ensures hyper.calls == old(hyper.calls) + IoCalls(handle, old(writeWaker), sys, hyper.Id())
    {
      hyper.Call(Use(handle));
      if sys.Bytes? {
        return sys.n;
      }
      if !sys.Again? {
        return IO_ERROR;
      }
      if writeWaker.Some? {
        hyper.Call(Release(writeWaker.value));
      }
      var w := hyper.Create(Waker);
      writeWaker := Some(w);
      return IO_PENDING;
    }

    /** free_conn_data; in Go the record itself is left to the collector. */
    method Free(hyper: Hyper)
      modifies this`readWaker, this`writeWaker, hyper`calls
      ensures Slots() == PollLoop.Slots(None, None)
      ensures hyper.calls == old(hyper.calls) + FreeConnCalls(hyper.program, old(Slots()), handle)
    {
      if readWaker.Some? {
        hyper.Call(Release(readWaker.value));
        readWaker := None;
      }
      if writeWaker.Some? {
        hyper.Call(Release(writeWaker.value));
        writeWaker := None;
      }
      if hyper.program != GetGo {
        hyper.Call(Release(handle));
      }
    }
  }
}
