/** Ownership in every reachable state of the three programs. */
module LoopOwnership {
  import opened Basics
  import opened Ownership
  import opened PollLoop

  predicate Running(s: State) {
    s.status == Polling || s.status == Selecting
  }

  ghost function SetOf(h: Option<Handle>): set<Handle> {
    if h.Some? then {h.value} else {}
  }

  /** What each program holds besides its connection: upload.c its file buffer and response body, Get its
      response buffer and, until it is sent, its request. */
  ghost function Rest(p: Program, v: Locals, sent: bool): set<Handle> {
    match p
    case ClientC => {}
    case UploadC => {v.fileBuf} + SetOf(v.respBody)
    case GetGo => SetOf(v.response) + if sent then {} else {v.req}
  }

  /** Each variable names a handle of its own kind, and the two slots never share a waker. */
  ghost predicate WellKinded(slots: Slots, v: Locals) {
    && v.conn.kind == Connection && v.exec.kind == Executor
    && v.fileBuf.kind == FileBuffer && v.req.kind == Request
    && (v.respBody.Some? ==> v.respBody.value.kind == Body)
    && (v.response.Some? ==> v.response.value.kind == ResponseBuffer)
    && (slots.read.Some? ==> slots.read.value.kind == Waker)
    && (slots.write.Some? ==> slots.write.value.kind == Waker)
    && (slots.read.Some? ==> slots.read != slots.write)
  }

  /** Only the connection data, the file buffer once it is registered, and the body being pulled are lent. */
  ghost predicate LoansInPlace(l: Ledger, v: Locals, rest: set<Handle>, sent: bool, t: Handle) {
    && v.conn in l.loans
    && (v.fileBuf in rest && sent ==> v.fileBuf in l.loans)
    && (v.respBody.Some? ==> v.respBody.value in l.loans)
    && forall x :: x in l.loans ==>
         || (x == v.conn && l.loans[x] == v.exec)
         || (x == v.fileBuf && sent && l.loans[x] == v.exec)
         || (v.respBody == Some(x) && l.loans[x] == t)
  }

  ghost predicate Numbered(l: Ledger, next: nat) {
    && (forall h :: h in l.issued ==> h.id < next)
    && l.mine <= l.issued
    && l.theirs <= l.issued
    && l.loans.Keys <= l.issued
  }

  /** What every program holds while its connection is up. */
  ghost function Base(slots: Slots, v: Locals): set<Handle> {
    {v.conn, v.exec} + SetOf(slots.read) + SetOf(slots.write)
  }

  /** The application holds exactly the handles its variables name, the executor exactly the pending task. */
  ghost predicate Holding(l: Ledger, next: nat, slots: Slots, v: Locals, rest: set<Handle>, sent: bool, t: Handle) {
    && l.ok
    && WellKinded(slots, v)
    && t.kind == Task
    && (forall h :: h in rest ==> h.kind != Waker && h.kind != Task && h.kind != Connection && h.kind != Executor)
    && l.mine == Base(slots, v) + rest
    && l.theirs == {t}
    && LoansInPlace(l, v, rest, sent, t)
    && Numbered(l, next)
  }

  /** The stage of the exchange: one task of the application is out, and it is t with this tag. */
  ghost predicate InStage(p: Program, s: State, t: Handle, tag: Tag) {
    && s.executing.tasks == map[t := tag]
    && s.log.requests == (if tag == Handshake then 0 else 1)
    && (s.locals.respBody.Some? <==> p == UploadC && tag == RespBody)
    && (s.locals.response.Some? ==> p == GetGo && tag == RespBody)
  }

  ghost predicate Sound(p: Program, s: State, t: Handle, tag: Tag) {
    && InStage(p, s, t, tag)
    && Holding(Replay(s.calls), s.executing.next, s.slots, s.locals, Rest(p, s.locals, tag != Handshake),
      tag != Handshake, t)
  }

  /** The application has let go of everything; Get leaves the connection record to the collector and
      the response buffer to its caller. */
  ghost predicate AllReleased(p: Program, s: State) {
    && s.locals.conn.kind == Connection
    && (s.locals.response.Some? ==> s.locals.response.value.kind == ResponseBuffer)
    && Replay(s.calls).theirs == {}
    && Replay(s.calls).mine == if p == GetGo then {s.locals.conn} + SetOf(s.locals.response) else {}
  }

  // ---------------------------------------------------------------- what each run of calls does to the ledger

  /** Calls that take handles from the application and give it new ones, touching nothing else. */
  ghost function Exchange(l: Ledger, gone: set<Handle>, made: set<Handle>, kept: set<Handle>): Ledger {
    l.(mine := (l.mine - gone) + kept, issued := l.issued + made)
  }

  ghost predicate Disposable(l: Ledger, h: Handle) {
    h in l.mine && !l.Lent(h) && h.kind != Executor
  }

  /** The ledger when t has just been delivered: the application has it back, the executor nothing. */
  ghost function Back(l: Ledger, t: Handle): Ledger {
    l.(mine := l.mine + {t}, theirs := {})
  }

  lemma IoLedger(l: Ledger, conn: Handle, slot: Option<Handle>, sys: SysResult, id: nat)
    requires l.ok && conn in l.mine
    requires slot.Some? ==> Disposable(l, slot.value) && slot.value != conn
    requires Handle(Waker, id) !in l.issued
    ensures l.AfterAll(IoCalls(conn, slot, sys, id)) ==
      if sys.Again? then Exchange(l, SetOf(slot), {Handle(Waker, id)}, {Handle(Waker, id)}) else l
  {
    var made := Acquire(Handle(Waker, id));
    After1(l, Use(conn));
    After2(l, Use(conn), made);
    if slot.Some? {
      After3(l, Use(conn), Release(slot.value), made);
    }
  }

  lemma AppendLedger(l: Ledger, former: Option<Handle>, id: nat)
    requires l.ok && Handle(ResponseBuffer, id) !in l.issued
    requires former.Some? ==> Disposable(l, former.value) && former.value in l.issued
    ensures l.AfterAll(AppendCalls(former, id)) ==
      Exchange(l, SetOf(former), {Handle(ResponseBuffer, id)}, {Handle(ResponseBuffer, id)})
  {
    var n := Handle(ResponseBuffer, id);
    After2(l, Acquire(n), Use(n));
    if former.Some? {
      After4(l, Acquire(n), Use(former.value), Release(former.value), Use(n));
      assert l.mine + {n} - {former.value} == l.mine - {former.value} + {n};
    }
  }

  lemma UploadLedger(l: Ledger, fileBuf: Handle, sys: SysResult, id: nat)
    requires l.ok && fileBuf in l.mine && l.mine <= l.issued
    requires Handle(Buffer, id) !in l.issued && Handle(Buffer, id) !in l.loans
    ensures l.AfterAll(UploadCalls(fileBuf, sys, id)) ==
      if sys.Bytes? && sys.n > 0 then l.(issued := l.issued + {Handle(Buffer, id)}) else l
  {
    var copy := Handle(Buffer, id);
    After1(l, Use(fileBuf));
    After3(l, Use(fileBuf), Acquire(copy), Release(copy));
  }

  lemma BackgroundLedger(l: Ledger, exec: Handle, id: nat)
    requires l.ok && exec in l.mine && l.mine <= l.issued
    requires Handle(Task, id) !in l.issued && Handle(Task, id) !in l.loans
    ensures l.AfterAll([Use(exec), Acquire(Handle(Task, id)), Release(Handle(Task, id))]) ==
      l.(issued := l.issued + {Handle(Task, id)})
  {
    After3(l, Use(exec), Acquire(Handle(Task, id)), Release(Handle(Task, id)));
  }

  lemma RequestLedger(p: Program, l: Ledger, t: Handle, id: nat)
    requires l.ok && Disposable(l, t) && t.kind == Task && t in l.issued
    requires Handle(Client, id) !in l.issued && Handle(Request, id) !in l.issued
    ensures
      var made := if p == GetGo then {Handle(Client, id)} else {Handle(Client, id), Handle(Request, id)};
      l.AfterAll(RequestCalls(p, t, id)) == Exchange(l, {t}, made, made)
  {
    var client, req := Handle(Client, id), Handle(Request, id);
    var first := [Use(t), Acquire(client), Release(t)];
    After3(l, Use(t), Acquire(client), Release(t));
    if p == GetGo {
      assert first + [] == first;
    } else {
      AfterConcat(l, first, [Acquire(req), Use(req)]);
      After2(l.AfterAll(first), Acquire(req), Use(req));
    }
  }

  lemma RequestBodyLedger(l: Ledger, id: nat)
    requires l.ok && Handle(RequestBody, id) !in l.issued && l.mine <= l.issued
    requires Handle(RequestBody, id) !in l.loans
    ensures l.AfterAll(RequestBodyCalls(id)) == l.(issued := l.issued + {Handle(RequestBody, id)})
  {
    var body := Handle(RequestBody, id);
    After3(l, Acquire(body), Use(body), Release(body));
  }

  /** Lending and pushing, the end of every send. */
  lemma SendLedger(p: Program, l: Ledger, v: Locals, req: Handle, id: nat)
    requires l.ok && Handle(Client, id) in l.mine && Handle(Task, id) !in l.issued && l.mine <= l.issued
    requires req.kind == Request && Disposable(l, req)
    requires p == UploadC ==>
      v.fileBuf in l.mine && v.fileBuf.kind == FileBuffer && !l.Lent(v.fileBuf) && v.exec in l.mine && v.exec.kind ==
        Executor
    ensures l.AfterAll(SendCalls(p, v, req, id)) ==
      l.(mine := l.mine - {req}, theirs := l.theirs + {Handle(Task, id)}, issued := l.issued + {Handle(Task, id)},
         loans := if p == UploadC then l.loans[v.fileBuf := v.exec] else l.loans)
  {
    var client, task := Handle(Client, id), Handle(Task, id);
    var first := [Use(client), Release(req), Acquire(task)];
    var lend := if p == UploadC then [Lend(v.fileBuf, v.exec)] else [];
    After3(l, Use(client), Release(req), Acquire(task));
    AfterConcat(l, first, lend);
    AfterConcat(l, first + lend, [Use(task), Push(task)]);
    var m := l.AfterAll(first);
    assert m == l.(mine := l.mine - {req} + {task}, issued := l.issued + {task});
    LendLedger(p, m, v);
    PushLedger(m.AfterAll(lend), task);
    assert m.mine - {task} == l.mine - {req};
  }

  lemma LendLedger(p: Program, l: Ledger, v: Locals)
    requires l.ok
    requires p == UploadC ==>
      v.fileBuf in l.mine && v.fileBuf.kind == FileBuffer && !l.Lent(v.fileBuf) && v.exec in l.mine && v.exec.kind ==
        Executor
    ensures l.AfterAll(if p == UploadC then [Lend(v.fileBuf, v.exec)] else []) ==
      if p == UploadC then l.(loans := l.loans[v.fileBuf := v.exec]) else l
  {
    if p == UploadC {
      After1(l, Lend(v.fileBuf, v.exec));
    }
  }

  lemma PushLedger(l: Ledger, task: Handle)
    requires l.ok && task in l.mine && task.kind == Task
    ensures l.AfterAll([Use(task), Push(task)]) == l.(mine := l.mine - {task}, theirs := l.theirs + {task})
  {
    After2(l, Use(task), Push(task));
  }

  lemma PullLedger(l: Ledger, body: Handle, id: nat)
    requires l.ok && body in l.mine && body.kind == Body && !l.Lent(body)
    requires Handle(Task, id) !in l.issued && l.mine <= l.issued
    ensures l.AfterAll(PullCalls(body, id)) ==
      l.(theirs := l.theirs + {Handle(Task, id)}, issued := l.issued + {Handle(Task, id)},
         loans := l.loans[body := Handle(Task, id)])
  {
    var task := Handle(Task, id);
    After4(l, Acquire(task), Lend(body, task), Use(task), Push(task));
    assert l.mine + {task} - {task} == l.mine;
  }

  lemma ForeachLedger(l: Ledger, body: Handle, id: nat)
    requires l.ok && Disposable(l, body) && body.kind == Body
    requires Handle(Task, id) !in l.issued && l.mine <= l.issued
    ensures l.AfterAll(ForeachCalls(body, id)) ==
      l.(mine := l.mine - {body}, theirs := l.theirs + {Handle(Task, id)}, issued := l.issued + {Handle(Task, id)})
  {
    var task := Handle(Task, id);
    After4(l, Release(body), Acquire(task), Use(task), Push(task));
    assert l.mine - {body} + {task} - {task} == l.mine - {body};
  }

  lemma ResponseLedger(l: Ledger, t: Handle, id: nat)
    requires l.ok && Disposable(l, t) && t.kind == Task && t in l.issued
    requires Handle(Response, id) !in l.issued && Handle(Body, id) !in l.issued
    ensures
      var made := {Handle(Response, id), Handle(Body, id)};
      l.AfterAll(ResponseCalls(t, id)) == Exchange(l, {t}, made, made)
  {
    var resp := Handle(Response, id);
    After5(l, Use(t), Acquire(resp), Release(t), Use(resp), Acquire(Handle(Body, id)));
  }

  lemma DataLedger(l: Ledger, t: Handle, body: Handle, id: nat)
    requires l.ok && Disposable(l, t) && t.kind == Task
    requires body in l.mine && body.kind == Body && !l.Lent(body) && l.mine <= l.issued
    requires Handle(Buffer, id) !in l.issued && Handle(Buffer, id) !in l.loans
    requires Handle(Task, id) !in l.issued
    ensures l.AfterAll(DataCalls(t, Some(body), id)) ==
      l.(mine := l.mine - {t}, theirs := l.theirs + {Handle(Task, id)},
         issued := l.issued + {Handle(Buffer, id)} + {Handle(Task, id)}, loans := l.loans[body := Handle(Task, id)])
  {
    var chunk := Handle(Buffer, id);
    var first := [Use(t), Acquire(chunk), Use(chunk), Release(chunk), Release(t)];
    After5(l, Use(t), Acquire(chunk), Use(chunk), Release(chunk), Release(t));
    assert l.mine + {chunk} - {chunk} - {t} == l.mine - {t};
    AfterConcat(l, first, PullCalls(body, id));
    PullLedger(l.AfterAll(first), body, id);
  }

  lemma SlotLedger(l: Ledger, slot: Option<Handle>)
    requires l.ok && (slot.Some? ==> Disposable(l, slot.value))
    ensures l.AfterAll(ReleaseSlot(slot)) == l.(mine := l.mine - SetOf(slot))
    ensures slot.Some? ==> l.AfterAll(WakeCalls(slot)) == l.(mine := l.mine - SetOf(slot))
  {
    if slot.Some? {
      After1(l, Release(slot.value));
    }
  }

  lemma FreeConnLedger(p: Program, l: Ledger, slots: Slots, conn: Handle)
    requires l.ok && Disposable(l, conn) && conn.kind == Connection
    requires slots.read.Some? ==> Disposable(l, slots.read.value) && slots.read.value.kind == Waker
    requires slots.write.Some? ==> Disposable(l, slots.write.value) && slots.write.value.kind == Waker
    requires slots.read.Some? ==> slots.read != slots.write
    ensures l.AfterAll(FreeConnCalls(p, slots, conn)) ==
      l.(mine := l.mine - SetOf(slots.read) - SetOf(slots.write) - if p == GetGo then {} else {conn})
  {
    var r, w := ReleaseSlot(slots.read), ReleaseSlot(slots.write);
    SlotLedger(l, slots.read);
    AfterConcat(l, r, w);
    SlotLedger(l.AfterAll(r), slots.write);
    if p == GetGo {
      assert r + w + [] == r + w;
    } else {
      AfterConcat(l, r + w, [Release(conn)]);
      After1(l.AfterAll(r + w), Release(conn));
    }
  }

  // ---------------------------------------------------------------- holdings before and after

  lemma ReaderReplaced(l: Ledger, next: nat, slots: Slots, v: Locals, rest: set<Handle>, sent: bool, t: Handle, id: nat)
    requires Holding(l, next, slots, v, rest, sent, t) && next <= id
    ensures Holding(Exchange(l, SetOf(slots.read), {Handle(Waker, id)}, {Handle(Waker, id)}), id + 1,
                    slots.(read := Some(Handle(Waker, id))), v, rest, sent, t)
  {
    var w := Handle(Waker, id);
    var m := Exchange(l, SetOf(slots.read), {w}, {w});
    assert m.mine == Base(slots.(read := Some(w)), v) + rest;
    assert LoansInPlace(m, v, rest, sent, t);
    assert Numbered(m, id + 1);
  }

  lemma WriterReplaced(l: Ledger, next: nat, slots: Slots, v: Locals, rest: set<Handle>, sent: bool, t: Handle, id: nat)
    requires Holding(l, next, slots, v, rest, sent, t) && next <= id
    ensures Holding(Exchange(l, SetOf(slots.write), {Handle(Waker, id)}, {Handle(Waker, id)}), id + 1,
                    slots.(write := Some(Handle(Waker, id))), v, rest, sent, t)
  {
    var w := Handle(Waker, id);
    var m := Exchange(l, SetOf(slots.write), {w}, {w});
    assert m.mine == Base(slots.(write := Some(w)), v) + rest;
    assert LoansInPlace(m, v, rest, sent, t);
    assert Numbered(m, id + 1);
  }

  lemma ReaderGone(l: Ledger, next: nat, slots: Slots, v: Locals, rest: set<Handle>, sent: bool, t: Handle)
    requires Holding(l, next, slots, v, rest, sent, t)
    ensures Holding(l.(mine := l.mine - SetOf(slots.read)), next, slots.(read := None), v, rest, sent, t)
  {
    assert l.mine - SetOf(slots.read) == {v.conn, v.exec} + {} + SetOf(slots.write) + rest;
  }

  lemma WriterGone(l: Ledger, next: nat, slots: Slots, v: Locals, rest: set<Handle>, sent: bool, t: Handle)
    requires Holding(l, next, slots, v, rest, sent, t)
    ensures Holding(l.(mine := l.mine - SetOf(slots.write)), next, slots.(write := None), v, rest, sent, t)
  {
    assert l.mine - SetOf(slots.write) == {v.conn, v.exec} + SetOf(slots.read) + {} + rest;
  }

  lemma Later(l: Ledger, next: nat, slots: Slots, v: Locals, rest: set<Handle>, sent: bool, t: Handle,
              made: set<Handle>, next': nat)
    requires Holding(l, next, slots, v, rest, sent, t) && next <= next'
    requires forall h :: h in made ==> h.id < next'
    ensures Holding(l.(issued := l.issued + made), next', slots, v, rest, sent, t)
    ensures Holding(l, next', slots, v, rest, sent, t)
  {
  }

  lemma BufferReplaced(l: Ledger, next: nat, slots: Slots, v: Locals, t: Handle, id: nat, n: Handle, v': Locals)
    requires Holding(l, next, slots, v, Rest(GetGo, v, true), true, t) && next <= id
    requires n == Handle(ResponseBuffer, id) && v' == v.(response := Some(n))
    ensures Holding(Exchange(l, SetOf(v.response), {n}, {n}), id + 1, slots, v', Rest(GetGo, v', true), true, t)
  {
    var m := Exchange(l, SetOf(v.response), {n}, {n});
    assert m.mine == Base(slots, v) + {n} && Rest(GetGo, v', true) == {n} + {};
    assert LoansInPlace(m, v', Rest(GetGo, v', true), true, t);
    assert Numbered(m, id + 1);
  }

  // ---------------------------------------------------------------- every step keeps the programs sound

  /** A step that leaves tasks and locals alone and makes these calls. */
  ghost predicate Quiet(s: State, s': State, calls: seq<Event>, next: nat, slots: Slots) {
    && s'.executing == Executing(next, s.executing.tasks)
    && s'.log.requests == s.log.requests
    && s'.locals == s.locals
    && s'.calls == s.calls + calls
    && s'.slots == slots
  }

  lemma QuietKeeps(p: Program, s: State, t: Handle, tag: Tag, s': State, calls: seq<Event>, next: nat, slots: Slots,
                   m: Ledger)
    requires InStage(p, s, t, tag) && Quiet(s, s', calls, next, slots)
    requires Replay(s.calls).AfterAll(calls) == m
    requires Holding(m, next, slots, s.locals, Rest(p, s.locals, tag != Handshake), tag != Handshake, t)
    ensures Sound(p, s', t, tag)
  {
    AfterConcat(EMPTY_LEDGER, s.calls, calls);
  }

  /** A state at its stage whose calls lead to such a ledger. */
  lemma ReachedSound(p: Program, s': State, t: Handle, tag: Tag, before: seq<Event>, calls: seq<Event>, m: Ledger)
    requires InStage(p, s', t, tag) && s'.calls == before + calls && Replay(before).AfterAll(calls) == m
    requires Holding(m, s'.executing.next, s'.slots, s'.locals, Rest(p, s'.locals, tag != Handshake),
                     tag != Handshake, t)
    ensures Sound(p, s', t, tag)
  {
    AfterConcat(EMPTY_LEDGER, before, calls);
  }

  /** What a running program may count on when it makes a call. */
  lemma HoldingFacts(l: Ledger, next: nat, slots: Slots, v: Locals, rest: set<Handle>, sent: bool, t: Handle, id: nat)
    requires Holding(l, next, slots, v, rest, sent, t) && next <= id
    ensures v.conn in l.mine && v.exec in l.mine && v.conn.kind == Connection && v.exec.kind == Executor
    ensures slots.read.Some? ==> Disposable(l, slots.read.value) && slots.read.value.kind == Waker
    ensures slots.write.Some? ==> Disposable(l, slots.write.value) && slots.write.value.kind == Waker
    ensures l.ok && l.theirs == {t} && l.mine <= l.issued
    ensures forall k: Kind :: Handle(k, id) !in l.issued && Handle(k, id) !in l.loans
  {
  }

  lemma ReadSound(p: Program, s: State, t: Handle, tag: Tag, sys: SysResult, id: nat)
    requires Sound(p, s, t, tag) && s.executing.next <= id
    ensures Sound(p, Renewed(OnRead(s, sys, id), id), t, tag)
  {
    var l, rest, w := Replay(s.calls), Rest(p, s.locals, tag != Handshake), {Handle(Waker, id)};
    var calls := IoCalls(s.locals.conn, s.slots.read, sys, id);
    var slots := s.slots.(read := IoSlot(s.slots.read, sys, id));
    var m := if sys.Again? then Exchange(l, SetOf(s.slots.read), w, w) else l;
    HoldingFacts(l, s.executing.next, s.slots, s.locals, rest, tag != Handshake, t, id);
    IoLedger(l, s.locals.conn, s.slots.read, sys, id);
    if sys.Again? {
      ReaderReplaced(l, s.executing.next, s.slots, s.locals, rest, tag != Handshake, t, id);
    } else {
      Later(l, s.executing.next, s.slots, s.locals, rest, tag != Handshake, t, {}, id + 1);
    }
    QuietKeeps(p, s, t, tag, Renewed(OnRead(s, sys, id), id), calls, id + 1, slots, m);
  }

  lemma WriteSound(p: Program, s: State, t: Handle, tag: Tag, sys: SysResult, id: nat)
    requires Sound(p, s, t, tag) && s.executing.next <= id
    ensures Sound(p, Renewed(OnWrite(s, sys, id), id), t, tag)
  {
    var l, rest, w := Replay(s.calls), Rest(p, s.locals, tag != Handshake), {Handle(Waker, id)};
    var calls := IoCalls(s.locals.conn, s.slots.write, sys, id);
    var slots := s.slots.(write := IoSlot(s.slots.write, sys, id));
    var m := if sys.Again? then Exchange(l, SetOf(s.slots.write), w, w) else l;
    HoldingFacts(l, s.executing.next, s.slots, s.locals, rest, tag != Handshake, t, id);
    IoLedger(l, s.locals.conn, s.slots.write, sys, id);
    if sys.Again? {
      WriterReplaced(l, s.executing.next, s.slots, s.locals, rest, tag != Handshake, t, id);
    } else {
      Later(l, s.executing.next, s.slots, s.locals, rest, tag != Handshake, t, {}, id + 1);
    }
    QuietKeeps(p, s, t, tag, Renewed(OnWrite(s, sys, id), id), calls, id + 1, slots, m);
  }

  /** print_each_chunk names no handle. */
  lemma PrintSound(s: State, t: Handle, tag: Tag, id: nat)
    requires Sound(ClientC, s, t, tag) && s.executing.next <= id && s.download.taken < |s.world.peer|
    ensures Sound(ClientC, Renewed(PrintChunk(s), id), t, tag)
  {
    Later(Replay(s.calls), s.executing.next, s.slots, s.locals, Rest(ClientC, s.locals, tag != Handshake),
          tag != Handshake, t, {}, id + 1);
    assert s.calls + [] == s.calls;
    QuietKeeps(ClientC, s, t, tag, Renewed(PrintChunk(s), id), [], id + 1, s.slots, Replay(s.calls));
  }

  lemma RefusedSound(s: State, t: Handle, id: nat)
    requires Sound(GetGo, s, t, RespBody) && s.executing.next <= id && s.download.taken < |s.world.peer|
    ensures Sound(GetGo, Renewed(AppendChunk(s, false, id), id), t, RespBody)
  {
    Later(Replay(s.calls), s.executing.next, s.slots, s.locals, Rest(GetGo, s.locals, true), true, t, {}, id + 1);
    assert s.calls + [] == s.calls;
    QuietKeeps(GetGo, s, t, RespBody, Renewed(AppendChunk(s, false, id), id), [], id + 1, s.slots, Replay(s.calls));
  }

  lemma AppendReady(l: Ledger, next: nat, slots: Slots, v: Locals, t: Handle, id: nat)
    requires Holding(l, next, slots, v, Rest(GetGo, v, true), true, t) && next <= id
    ensures v.response.Some? ==> Disposable(l, v.response.value) && v.response.value in l.issued
    ensures l.ok && Handle(ResponseBuffer, id) !in l.issued
  {
  }

  lemma AppendedShape(s: State, t: Handle, id: nat, s': State)
    requires InStage(GetGo, s, t, RespBody) && s.download.taken < |s.world.peer|
    requires s' == Renewed(AppendChunk(s, true, id), id)
    ensures InStage(GetGo, s', t, RespBody)
    ensures s'.calls == s.calls + AppendCalls(s.locals.response, id) && s'.executing.next == id + 1
    ensures s'.slots == s.slots && s'.locals == s.locals.(response := Some(Handle(ResponseBuffer, id)))
  {
  }

  lemma AppendedSound(s: State, t: Handle, id: nat)
    requires Sound(GetGo, s, t, RespBody) && s.executing.next <= id && s.download.taken < |s.world.peer|
    ensures Sound(GetGo, Renewed(AppendChunk(s, true, id), id), t, RespBody)
  {
    var l, n, s' := Replay(s.calls), Handle(ResponseBuffer, id), Renewed(AppendChunk(s, true, id), id);
    AppendedShape(s, t, id, s');
    AppendReady(l, s.executing.next, s.slots, s.locals, t, id);
    AppendLedger(l, s.locals.response, id);
    BufferReplaced(l, s.executing.next, s.slots, s.locals, t, id, n, s'.locals);
    ReachedSound(GetGo, s', t, RespBody, s.calls, AppendCalls(s.locals.response, id),
                 Exchange(l, SetOf(s.locals.response), {n}, {n}));
  }

  lemma UploadReady(l: Ledger, next: nat, slots: Slots, v: Locals, sent: bool, t: Handle, id: nat)
    requires Holding(l, next, slots, v, Rest(UploadC, v, sent), sent, t) && next <= id
    ensures l.ok && v.fileBuf in l.mine && l.mine <= l.issued
    ensures Handle(Buffer, id) !in l.issued && Handle(Buffer, id) !in l.loans
  {
  }

  lemma UploadSound(s: State, t: Handle, tag: Tag, sys: SysResult, id: nat)
    requires Sound(UploadC, s, t, tag) && s.executing.next <= id && FileAllowed(s, sys)
    ensures Sound(UploadC, Renewed(UploadChunk(s, sys, id), id), t, tag)
  {
    var l, rest, sent := Replay(s.calls), Rest(UploadC, s.locals, tag != Handshake), tag != Handshake;
    var m := if sys.Bytes? && sys.n > 0 then l.(issued := l.issued + {Handle(Buffer, id)}) else l;
    UploadReady(l, s.executing.next, s.slots, s.locals, sent, t, id);
    UploadLedger(l, s.locals.fileBuf, sys, id);
    Later(l, s.executing.next, s.slots, s.locals, rest, sent, t, {Handle(Buffer, id)}, id + 1);
    QuietKeeps(UploadC, s, t, tag, Renewed(UploadChunk(s, sys, id), id), UploadCalls(s.locals.fileBuf, sys, id),
               id + 1, s.slots, m);
  }

  lemma BackgroundSound(p: Program, s: State, t: Handle, tag: Tag, id: nat)
    requires Sound(p, s, t, tag) && s.executing.next <= id
    ensures Sound(p, Renewed(OnBackground(s, id), id), t, tag)
  {
    var l, rest, made := Replay(s.calls), Rest(p, s.locals, tag != Handshake), {Handle(Task, id)};
    HoldingFacts(l, s.executing.next, s.slots, s.locals, rest, tag != Handshake, t, id);
    BackgroundLedger(l, s.locals.exec, id);
    Later(l, s.executing.next, s.slots, s.locals, rest, tag != Handshake, t, made, id + 1);
    QuietKeeps(p, s, t, tag, Renewed(OnBackground(s, id), id),
               [Use(s.locals.exec), Acquire(Handle(Task, id)), Release(Handle(Task, id))], id + 1, s.slots,
               l.(issued := l.issued + made));
  }

  lemma NoTaskSound(p: Program, s: State, t: Handle, tag: Tag)
    requires Sound(p, s, t, tag) && s.status == Polling
    ensures Sound(p, OnNoTask(s), t, tag)
  {
    var l, rest := Replay(s.calls), Rest(p, s.locals, tag != Handshake);
    HoldingFacts(l, s.executing.next, s.slots, s.locals, rest, tag != Handshake, t, s.executing.next);
    After1(l, Use(s.locals.exec));
    QuietKeeps(p, s, t, tag, OnNoTask(s), [Use(s.locals.exec)], s.executing.next, s.slots, l);
  }

  lemma WakeReadSound(p: Program, s: State, t: Handle, tag: Tag, ready: bool)
    requires Sound(p, s, t, tag) && (ready ==> s.slots.read.Some?)
    ensures Sound(p, WakeRead(s, ready), t, tag)
  {
    if ready {
      var l, rest := Replay(s.calls), Rest(p, s.locals, tag != Handshake);
      HoldingFacts(l, s.executing.next, s.slots, s.locals, rest, tag != Handshake, t, s.executing.next);
      SlotLedger(l, s.slots.read);
      ReaderGone(l, s.executing.next, s.slots, s.locals, rest, tag != Handshake, t);
      QuietKeeps(p, s, t, tag, WakeRead(s, ready), WakeCalls(s.slots.read), s.executing.next, s.slots.(read := None),
                 l.(mine := l.mine - SetOf(s.slots.read)));
    }
  }

  lemma WakeWriteSound(p: Program, s: State, t: Handle, tag: Tag, ready: bool)
    requires Sound(p, s, t, tag) && (ready ==> s.slots.write.Some?)
    ensures Sound(p, WakeWrite(s, ready), t, tag)
  {
    if ready {
      var l, rest := Replay(s.calls), Rest(p, s.locals, tag != Handshake);
      HoldingFacts(l, s.executing.next, s.slots, s.locals, rest, tag != Handshake, t, s.executing.next);
      SlotLedger(l, s.slots.write);
      WriterGone(l, s.executing.next, s.slots, s.locals, rest, tag != Handshake, t);
      QuietKeeps(p, s, t, tag, WakeWrite(s, ready), WakeCalls(s.slots.write), s.executing.next, s.slots.(write := None),
                 l.(mine := l.mine - SetOf(s.slots.write)));
    }
  }

  lemma AwakeSound(p: Program, s: State, t: Handle, tag: Tag, r: bool, w: bool)
    requires Sound(p, s, t, tag) && (r ==> s.slots.read.Some?) && (w ==> s.slots.write.Some?)
    ensures Sound(p, WakeWrite(WakeRead(s, r), w).(status := Polling), t, tag)
  {
    WakeReadSound(p, s, t, tag, r);
    WakeWriteSound(p, WakeRead(s, r), t, tag, w);
  }

  // ---------------------------------------------------------------- finished tasks

  lemma DeliverLedger(l: Ledger, exec: Handle, t: Handle)
    requires l.ok && exec in l.mine && l.theirs == {t}
    ensures l.AfterAll([Use(exec), Deliver(t)]) == Back(l, t)
  {
    After2(l, Use(exec), Deliver(t));
    assert l.theirs - {t} == {};
  }

  lemma DeliveredLedger(p: Program, s: State, t: Handle, tag: Tag)
    requires Sound(p, s, t, tag)
    ensures Replay(Delivered(s, t).calls) == Back(Replay(s.calls), t)
    ensures Delivered(s, t).executing.tasks == map[]
  {
    AfterConcat(EMPTY_LEDGER, s.calls, [Use(s.locals.exec), Deliver(t)]);
    DeliverLedger(Replay(s.calls), s.locals.exec, t);
  }

  /** Nothing in the ledger carries this number. */
  ghost predicate Unused(l: Ledger, id: nat) {
    && l.mine <= l.issued
    && l.loans.Keys <= l.issued
    && forall h :: h in l.issued ==> h.id != id
  }

  /** The request an application sends. */
  ghost function RequestOf(p: Program, v: Locals, id: nat): Handle {
    if p == GetGo then v.req else Handle(Request, id)
  }

  ghost function RequestMade(p: Program, id: nat): set<Handle> {
    if p == GetGo then {Handle(Client, id)} else {Handle(Client, id), Handle(Request, id)}
  }

  ghost function BodyMade(p: Program, id: nat): set<Handle> {
    if p == UploadC then {Handle(RequestBody, id)} else {}
  }

  /** The ledger once the request is out: the request is consumed, the client connection freed, and the new
      task is with the executor. */
  ghost function HandshakeEffect(p: Program, m: Ledger, v: Locals, t: Handle, id: nat): Ledger {
    m.(mine := m.mine - {t, RequestOf(p, v, id)}, theirs := m.theirs + {Handle(Task, id)},
       issued := m.issued + RequestMade(p, id) + BodyMade(p, id) + {Handle(Task, id)},
       loans := if p == UploadC then m.loans[v.fileBuf := v.exec] else m.loans)
  }

  ghost function Prepared(p: Program, m: Ledger, t: Handle, id: nat): Ledger {
    m.(mine := m.mine - {t} + RequestMade(p, id), issued := m.issued + RequestMade(p, id) + BodyMade(p, id))
  }

  lemma PreparedLedger(p: Program, m: Ledger, t: Handle, id: nat)
    requires m.ok && Unused(m, id) && Disposable(m, t) && t.kind == Task
    ensures m.AfterAll(RequestCalls(p, t, id) + if p == UploadC then RequestBodyCalls(id) else []) ==
      Prepared(p, m, t, id)
  {
    AfterConcat(m, RequestCalls(p, t, id), if p == UploadC then RequestBodyCalls(id) else []);
    RequestLedger(p, m, t, id);
    if p == UploadC {
      RequestBodyLedger(m.AfterAll(RequestCalls(p, t, id)), id);
    } else {
      assert m.issued + RequestMade(p, id) + {} == m.issued + RequestMade(p, id);
    }
  }

  lemma SentLedger(p: Program, m: Ledger, v: Locals, t: Handle, id: nat)
    requires m.ok && Unused(m, id) && Disposable(m, t) && t.kind == Task
    requires p == GetGo ==> Disposable(m, v.req) && v.req.kind == Request
    requires p == UploadC ==>
      v.fileBuf in m.mine && v.fileBuf.kind == FileBuffer && !m.Lent(v.fileBuf) && v.exec in m.mine && v.exec.kind ==
        Executor
    ensures
      var m2 := Prepared(p, m, t, id);
      var sent := m2.AfterAll(SendCalls(p, v, RequestOf(p, v, id), id));
      sent.ok && sent.mine == m2.mine - {RequestOf(p, v, id)} && sent.theirs == m.theirs + {Handle(Task, id)} &&
      sent.issued == m2.issued + {Handle(Task, id)} &&
      sent.loans == if p == UploadC then m.loans[v.fileBuf := v.exec] else m.loans
  {
    SendLedger(p, Prepared(p, m, t, id), v, RequestOf(p, v, id), id);
  }

  lemma ClientFreedLedger(p: Program, m: Ledger, m3: Ledger, v: Locals, t: Handle, id: nat)
    requires m.ok && Unused(m, id) && t.kind == Task
    requires p == UploadC ==> v.fileBuf.kind == FileBuffer
    requires p == GetGo ==> v.req.kind == Request
    requires m3.ok && m3.mine == Prepared(p, m, t, id).mine - {RequestOf(p, v, id)}
    requires m3.theirs == m.theirs + {Handle(Task, id)}
    requires m3.issued == Prepared(p, m, t, id).issued + {Handle(Task, id)}
    requires m3.loans == if p == UploadC then m.loans[v.fileBuf := v.exec] else m.loans
    ensures m3.AfterAll([Release(Handle(Client, id))]) == HandshakeEffect(p, m, v, t, id)
  {
    After1(m3, Release(Handle(Client, id)));
    assert m3.mine - {Handle(Client, id)} == m.mine - {t, RequestOf(p, v, id)};
  }

  lemma HandshakeLedger(p: Program, m: Ledger, v: Locals, t: Handle, id: nat)
    requires m.ok && Unused(m, id) && Disposable(m, t) && t.kind == Task
    requires p == GetGo ==> Disposable(m, v.req) && v.req.kind == Request
    requires p == UploadC ==>
      v.fileBuf in m.mine && v.fileBuf.kind == FileBuffer && !m.Lent(v.fileBuf) && v.exec in m.mine && v.exec.kind ==
        Executor
    ensures m.AfterAll(HandshakeCalls(p, v, t, id) + [Release(Handle(Client, id))]) == HandshakeEffect(p, m, v, t, id)
  {
    var before := RequestCalls(p, t, id) + if p == UploadC then RequestBodyCalls(id) else [];
    var send := SendCalls(p, v, RequestOf(p, v, id), id);
    var m2 := Prepared(p, m, t, id);
    var m3 := m2.AfterAll(send);
    PreparedLedger(p, m, t, id);
    SentLedger(p, m, v, t, id);
    ClientFreedLedger(p, m, m3, v, t, id);
    AfterChain(m, before, send, [Release(Handle(Client, id))], m2, m3, HandshakeEffect(p, m, v, t, id));
  }

  /** After a delivery the application may dispose of the task and of everything but its connection data. */
  lemma BackReady(l: Ledger, next: nat, slots: Slots, v: Locals, rest: set<Handle>, sent: bool, t: Handle, id: nat)
    requires Holding(l, next, slots, v, rest, sent, t) && next <= id
    ensures Back(l, t).ok && Unused(Back(l, t), id) && Disposable(Back(l, t), t)
    ensures v.exec in Back(l, t).mine
    ensures forall h :: h in rest && (h == v.fileBuf ==> !sent) ==> Disposable(Back(l, t), h)
  {
  }

  lemma HandshakeMine(p: Program, slots: Slots, v: Locals, t: Handle, id: nat)
    requires WellKinded(slots, v) && t.kind == Task && v.respBody.None? && v.response.None?
    ensures Base(slots, v) + Rest(p, v, false) + {t} - {t, RequestOf(p, v, id)} == Base(slots, v) + Rest(p, v, true)
  {
  }

  lemma HandshakeLoans(p: Program, l: Ledger, v: Locals, t: Handle, id: nat, m: Ledger)
    requires LoansInPlace(l, v, Rest(p, v, false), false, t) && v.respBody.None? && v.response.None?
    requires v.conn.kind == Connection && v.fileBuf.kind == FileBuffer && v.req.kind == Request
    requires m.loans == if p == UploadC then l.loans[v.fileBuf := v.exec] else l.loans
    ensures LoansInPlace(m, v, Rest(p, v, true), true, Handle(Task, id))
  {
  }

  lemma HandshakeHolding(p: Program, l: Ledger, next: nat, slots: Slots, v: Locals, t: Handle, id: nat)
    requires Holding(l, next, slots, v, Rest(p, v, false), false, t) && next <= id
    requires v.respBody.None? && v.response.None?
    ensures Holding(HandshakeEffect(p, Back(l, t), v, t, id), id + 1, slots, v, Rest(p, v, true), true,
                    Handle(Task, id))
  {
    var m := HandshakeEffect(p, Back(l, t), v, t, id);
    HandshakeMine(p, slots, v, t, id);
    HandshakeLoans(p, l, v, t, id, m);
    assert Numbered(m, id + 1);
  }

  lemma HandshakeReplay(p: Program, s: State, t: Handle, id: nat)
    requires Sound(p, s, t, Handshake) && s.executing.next <= id
    ensures
      Replay(Delivered(s, t).calls + (HandshakeCalls(p, s.locals, t, id) + [Release(Handle(Client, id))])) ==
        HandshakeEffect(p, Back(Replay(s.calls), t), s.locals, t, id)
  {
    var l, v := Replay(s.calls), s.locals;
    DeliveredLedger(p, s, t, Handshake);
    BackReady(l, s.executing.next, s.slots, v, Rest(p, v, false), false, t, id);
    AfterConcat(EMPTY_LEDGER, Delivered(s, t).calls, HandshakeCalls(p, v, t, id) + [Release(Handle(Client, id))]);
    HandshakeLedger(p, Back(l, t), v, t, id);
  }

  lemma PrefixOk(trace: seq<Event>, part: seq<Event>, whole: seq<Event>)
    requires part <= whole && Replay(trace + whole).ok
    ensures Replay(trace + part).ok
  {
    AcceptedPrefix(trace + whole, |trace + part|);
    assert (trace + whole)[..|trace + part|] == trace + part;
  }

  lemma FailLedger(m: Ledger, t: Handle, id: nat)
    requires m.ok && t in m.mine && Unused(m, id)
    ensures m.AfterAll([Use(t)]).ok
    ensures m.AfterAll([Use(t), Acquire(Handle(Error, id)), Use(Handle(Error, id)), Release(Handle(Error, id))]).ok
  {
    var err := Handle(Error, id);
    After1(m, Use(t));
    After4(m, Use(t), Acquire(err), Use(err), Release(err));
  }

  lemma FailOk(p: Program, s: State, t: Handle, tag: Tag, id: nat)
    requires Sound(p, s, t, tag) && s.executing.next <= id
    ensures Replay(Fail(p, Delivered(s, t), t, false, id).calls).ok
  {
    var err, before := Handle(Error, id), Delivered(s, t).calls;
    DeliveredLedger(p, s, t, tag);
    BackReady(Replay(s.calls), s.executing.next, s.slots, s.locals, Rest(p, s.locals, tag != Handshake),
              tag != Handshake, t, id);
    FailLedger(Back(Replay(s.calls), t), t, id);
    AfterConcat(EMPTY_LEDGER, before, [Use(t)]);
    AfterConcat(EMPTY_LEDGER, before, [Use(t), Acquire(err), Use(err), Release(err)]);
  }

  lemma HandshakePrefixesOk(p: Program, s: State, t: Handle, id: nat)
    requires Sound(p, s, t, Handshake) && s.executing.next <= id
    ensures Replay(Delivered(s, t).calls + RequestCalls(p, t, id)).ok
    ensures Replay(Delivered(s, t).calls + HandshakeCalls(p, s.locals, t, id)).ok
  {
    var all := HandshakeCalls(p, s.locals, t, id);
    var whole := all + [Release(Handle(Client, id))];
    assert Replay(Delivered(s, t).calls + whole).ok by {
      HandshakeReplay(p, s, t, id);
    }
    PrefixOk(Delivered(s, t).calls, all, whole);
    RequestComesFirst(p, s.locals, t, id);
    PrefixOk(Delivered(s, t).calls, RequestCalls(p, t, id), all);
  }

  lemma RequestComesFirst(p: Program, v: Locals, t: Handle, id: nat)
    ensures RequestCalls(p, t, id) <= HandshakeCalls(p, v, t, id)
  {
  }

  lemma RequestSentShape(p: Program, s: State, t: Handle, id: nat, s': State)
    requires InStage(p, s, t, Handshake) && s' == Renewed(OnHandshake(p, Delivered(s, t), t, Connected, id), id)
    ensures s'.status == Polling ==>
      && InStage(p, s', Handle(Task, id), Send)
      && s'.calls == Delivered(s, t).calls + (HandshakeCalls(p, s.locals, t, id) + [Release(Handle(Client, id))])
      && s'.executing.next == id + 1 && s'.slots == s.slots && s'.locals == s.locals
    ensures s'.status == s.status || s'.status == Exited(1) || s'.status == Panicked
    ensures s'.status == Exited(1) ==>
      s'.calls == Delivered(s, t).calls + RequestCalls(p, t, id) || s.status == Exited(1)
    ensures s'.status == Panicked ==>
      s'.calls == Delivered(s, t).calls + HandshakeCalls(p, s.locals, t, id) || s.status == Panicked
  {
    assert Delivered(s, t).executing.tasks == map[];
    var all, last := HandshakeCalls(p, s.locals, t, id), [Release(Handle(Client, id))];
    assert Delivered(s, t).calls + (all + last) == Delivered(s, t).calls + all + last;
  }

  lemma RequestSentSound(p: Program, s: State, t: Handle, id: nat)
    requires Sound(p, s, t, Handshake) && s.executing.next <= id
    ensures
      Renewed(OnHandshake(p, Delivered(s, t), t, Connected, id), id).status == Polling ==>
      Sound(p, Renewed(OnHandshake(p, Delivered(s, t), t, Connected, id), id), Handle(Task, id), Send)
  {
    RequestSentShape(p, s, t, id, Renewed(OnHandshake(p, Delivered(s, t), t, Connected, id), id));
    HandshakeReplay(p, s, t, id);
    HandshakeHolding(p, Replay(s.calls), s.executing.next, s.slots, s.locals, t, id);
  }

  lemma HandshakeSound(p: Program, s: State, t: Handle, result: TaskResult, id: nat)
    requires Sound(p, s, t, Handshake) && s.executing.next <= id && s.status == Polling
    requires WellTyped(p, Handshake, result)
    ensures
      var s' := Renewed(OnHandshake(p, Delivered(s, t), t, result, id), id);
      Replay(s'.calls).ok && s'.status in {Polling, Exited(1), Panicked} &&
      (s'.status == Polling ==> Sound(p, s', Handle(Task, id), Send))
  {
    if result.Failed? {
      FailOk(p, s, t, Handshake, id);
    } else {
      HandshakePrefixesOk(p, s, t, id);
      RequestSentShape(p, s, t, id, Renewed(OnHandshake(p, Delivered(s, t), t, Connected, id), id));
      RequestSentSound(p, s, t, id);
    }
  }

  // The response.

  ghost function BodyEffect(p: Program, m: Ledger, t: Handle, id: nat): Ledger {
    var body := Handle(Body, id);
    var l := m.(theirs := m.theirs + {Handle(Task, id)},
                issued := m.issued + {Handle(Response, id), body, Handle(Task, id)});
    if p == UploadC then l.(mine := m.mine - {t} + {body}, loans := m.loans[body := Handle(Task, id)])
    else l.(mine := m.mine - {t})
  }

  lemma BodyPushedLedger(p: Program, m: Ledger, id: nat)
    requires m.ok && Handle(Body, id) in m.mine && Handle(Body, id) !in m.loans
    requires Handle(Task, id) !in m.issued && m.mine <= m.issued
    ensures
      var body := Handle(Body, id);
      m.AfterAll(if p == UploadC then PullCalls(body, id) else ForeachCalls(body, id)) ==
      m.(mine := if p == UploadC then m.mine else m.mine - {body},
         theirs := m.theirs + {Handle(Task, id)}, issued := m.issued + {Handle(Task, id)},
         loans := if p == UploadC then m.loans[body := Handle(Task, id)] else m.loans)
  {
    if p == UploadC {
      PullLedger(m, Handle(Body, id), id);
    } else {
      ForeachLedger(m, Handle(Body, id), id);
    }
  }

  lemma ResponseFreedLedger(p: Program, m: Ledger, m2: Ledger, t: Handle, id: nat)
    requires m.ok && Unused(m, id) && t.kind == Task && m2.ok
    requires
      var body := Handle(Body, id);
      var made := {Handle(Response, id), body};
      m2.mine == (if p == UploadC then m.mine - {t} + made else m.mine - {t} + made - {body}) &&
      m2.theirs == m.theirs + {Handle(Task, id)} && m2.issued == m.issued + made + {Handle(Task, id)} &&
      m2.loans == if p == UploadC then m.loans[body := Handle(Task, id)] else m.loans
    ensures m2.AfterAll([Release(Handle(Response, id))]) == BodyEffect(p, m, t, id)
  {
    After1(m2, Release(Handle(Response, id)));
    assert m2.mine - {Handle(Response, id)} == BodyEffect(p, m, t, id).mine;
    assert m2.issued == BodyEffect(p, m, t, id).issued;
  }

  lemma BodyLedger(p: Program, m: Ledger, t: Handle, id: nat)
    requires m.ok && Unused(m, id) && Disposable(m, t) && t.kind == Task
    ensures m.AfterAll(BodyCalls(p, t, id)) == BodyEffect(p, m, t, id)
  {
    var push := if p == UploadC then PullCalls(Handle(Body, id), id) else ForeachCalls(Handle(Body, id), id);
    var made := {Handle(Response, id), Handle(Body, id)};
    var m1 := Exchange(m, {t}, made, made);
    var m2 := m1.AfterAll(push);
    ResponseLedger(m, t, id);
    BodyPushedLedger(p, m1, id);
    ResponseFreedLedger(p, m, m2, t, id);
    AfterChain(m, ResponseCalls(t, id), push, [Release(Handle(Response, id))], m1, m2, BodyEffect(p, m, t, id));
  }

  /** The locals once the response is there: upload.c keeps its body. */
  ghost function WithBody(p: Program, v: Locals, id: nat): Locals {
    if p == UploadC then v.(respBody := Some(Handle(Body, id))) else v
  }

  lemma PulledMine(slots: Slots, v: Locals, t: Handle, id: nat, v': Locals)
    requires WellKinded(slots, v) && t.kind == Task && v.respBody.None? && v' == WithBody(UploadC, v, id)
    ensures Base(slots, v) + Rest(UploadC, v, true) + {t} - {t} + {Handle(Body, id)} ==
      Base(slots, v') + Rest(UploadC, v', true)
  {
  }

  lemma BodyLoans(p: Program, l: Ledger, v: Locals, t: Handle, id: nat, m: Ledger, v': Locals)
    requires LoansInPlace(l, v, Rest(p, v, true), true, t) && v.respBody.None? && v' == WithBody(p, v, id)
    requires v.conn.kind == Connection && v.fileBuf.kind == FileBuffer
    requires m.loans == if p == UploadC then l.loans[Handle(Body, id) := Handle(Task, id)] else l.loans
    ensures LoansInPlace(m, v', Rest(p, v', true), true, Handle(Task, id))
  {
  }

  lemma PulledHolding(l: Ledger, next: nat, slots: Slots, v: Locals, t: Handle, id: nat, m: Ledger, v': Locals)
    requires Holding(l, next, slots, v, Rest(UploadC, v, true), true, t) && next <= id
    requires v.respBody.None? && v' == WithBody(UploadC, v, id) && m == BodyEffect(UploadC, Back(l, t), t, id)
    ensures Holding(m, id + 1, slots, v', Rest(UploadC, v', true), true, Handle(Task, id))
  {
    PulledMine(slots, v, t, id, v');
    BodyLoans(UploadC, l, v, t, id, m, v');
    assert Numbered(m, id + 1);
  }

  lemma ForeachHolding(p: Program, l: Ledger, next: nat, slots: Slots, v: Locals, t: Handle, id: nat, m: Ledger)
    requires p != UploadC && Holding(l, next, slots, v, Rest(p, v, true), true, t) && next <= id
    requires v.respBody.None? && m == BodyEffect(p, Back(l, t), t, id)
    ensures Holding(m, id + 1, slots, v, Rest(p, v, true), true, Handle(Task, id))
  {
    assert m.mine == l.mine;
    BodyLoans(p, l, v, t, id, m, v);
    assert Numbered(m, id + 1);
  }

  lemma BodyHolding(p: Program, l: Ledger, next: nat, slots: Slots, v: Locals, t: Handle, id: nat, v': Locals)
    requires Holding(l, next, slots, v, Rest(p, v, true), true, t) && next <= id
    requires v.respBody.None? && v' == WithBody(p, v, id)
    ensures Holding(BodyEffect(p, Back(l, t), t, id), id + 1, slots, v', Rest(p, v', true), true, Handle(Task, id))
  {
    if p == UploadC {
      PulledHolding(l, next, slots, v, t, id, BodyEffect(p, Back(l, t), t, id), v');
    } else {
      ForeachHolding(p, l, next, slots, v, t, id, BodyEffect(p, Back(l, t), t, id));
    }
  }

  lemma ResponseReplay(p: Program, s: State, t: Handle, id: nat)
    requires Sound(p, s, t, Send) && s.executing.next <= id
    ensures Replay(Delivered(s, t).calls + BodyCalls(p, t, id)) == BodyEffect(p, Back(Replay(s.calls), t), t, id)
  {
    DeliveredLedger(p, s, t, Send);
    BackReady(Replay(s.calls), s.executing.next, s.slots, s.locals, Rest(p, s.locals, true), true, t, id);
    AfterConcat(EMPTY_LEDGER, Delivered(s, t).calls, BodyCalls(p, t, id));
    BodyLedger(p, Back(Replay(s.calls), t), t, id);
  }

  lemma BodyStartedShape(p: Program, s: State, t: Handle, id: nat, s': State)
    requires InStage(p, s, t, Send) && s' == Renewed(OnResponse(p, Delivered(s, t), t, Responded, id), id)
    ensures InStage(p, s', Handle(Task, id), RespBody)
    ensures s'.calls == Delivered(s, t).calls + BodyCalls(p, t, id) && s'.executing.next == id + 1
    ensures s'.slots == s.slots && s'.locals == WithBody(p, s.locals, id)
  {
    assert Delivered(s, t).executing.tasks == map[];
  }

  lemma BodyStartedSound(p: Program, s: State, t: Handle, id: nat)
    requires Sound(p, s, t, Send) && s.executing.next <= id
    ensures Sound(p, Renewed(OnResponse(p, Delivered(s, t), t, Responded, id), id), Handle(Task, id), RespBody)
  {
    BodyStartedShape(p, s, t, id, Renewed(OnResponse(p, Delivered(s, t), t, Responded, id), id));
    ResponseReplay(p, s, t, id);
    BodyHolding(p, Replay(s.calls), s.executing.next, s.slots, s.locals, t, id, WithBody(p, s.locals, id));
  }

  lemma ResponseSound(p: Program, s: State, t: Handle, result: TaskResult, id: nat)
    requires Sound(p, s, t, Send) && s.executing.next <= id && s.status == Polling
    requires WellTyped(p, Send, result)
    ensures
      var s' := Renewed(OnResponse(p, Delivered(s, t), t, result, id), id);
      Replay(s'.calls).ok && s'.status in {Polling, Exited(1), Panicked} &&
      (s'.status == Polling ==> Sound(p, s', Handle(Task, id), RespBody))
  {
    if result.Failed? {
      FailOk(p, s, t, Send, id);
    } else {
      BodyStartedSound(p, s, t, id);
    }
  }

  // The body.

  ghost function DataEffect(m: Ledger, t: Handle, body: Handle, id: nat): Ledger {
    m.(mine := m.mine - {t}, theirs := m.theirs + {Handle(Task, id)},
       issued := m.issued + {Handle(Buffer, id)} + {Handle(Task, id)}, loans := m.loans[body := Handle(Task, id)])
  }

  lemma DataHolding(l: Ledger, next: nat, slots: Slots, v: Locals, t: Handle, id: nat)
    requires Holding(l, next, slots, v, Rest(UploadC, v, true), true, t) && next <= id && v.respBody.Some?
    ensures Holding(DataEffect(Back(l, t), t, v.respBody.value, id), id + 1, slots, v, Rest(UploadC, v, true), true,
                    Handle(Task, id))
  {
    var m := DataEffect(Back(l, t), t, v.respBody.value, id);
    assert m.mine == l.mine;
    assert LoansInPlace(m, v, Rest(UploadC, v, true), true, Handle(Task, id));
    assert Numbered(m, id + 1);
  }

  lemma DataReplay(s: State, t: Handle, id: nat)
    requires Sound(UploadC, s, t, RespBody) && s.executing.next <= id
    ensures Replay(Delivered(s, t).calls + DataCalls(t, s.locals.respBody, id)) ==
      DataEffect(Back(Replay(s.calls), t), t, s.locals.respBody.value, id)
  {
    DeliveredLedger(UploadC, s, t, RespBody);
    BackReady(Replay(s.calls), s.executing.next, s.slots, s.locals, Rest(UploadC, s.locals, true), true, t, id);
    AfterConcat(EMPTY_LEDGER, Delivered(s, t).calls, DataCalls(t, s.locals.respBody, id));
    DataLedger(Back(Replay(s.calls), t), t, s.locals.respBody.value, id);
  }

  lemma DataShape(s: State, t: Handle, id: nat, s': State)
    requires InStage(UploadC, s, t, RespBody) && BodyAllowed(s, Data)
    requires s' == Renewed(OnBody(UploadC, Delivered(s, t), t, Data, id), id)
    ensures InStage(UploadC, s', Handle(Task, id), RespBody)
    ensures s'.calls == Delivered(s, t).calls + DataCalls(t, s.locals.respBody, id) && s'.executing.next == id + 1
    ensures s'.slots == s.slots && s'.locals == s.locals
  {
    assert Delivered(s, t).executing.tasks == map[];
  }

  lemma DataSound(s: State, t: Handle, id: nat)
    requires Sound(UploadC, s, t, RespBody) && s.executing.next <= id && BodyAllowed(s, Data)
    ensures Sound(UploadC, Renewed(OnBody(UploadC, Delivered(s, t), t, Data, id), id), Handle(Task, id), RespBody)
  {
    DataShape(s, t, id, Renewed(OnBody(UploadC, Delivered(s, t), t, Data, id), id));
    DataReplay(s, t, id);
    DataHolding(Replay(s.calls), s.executing.next, s.slots, s.locals, t, id);
  }

  // The end.

  lemma TaskAndBodyLedger(p: Program, m: Ledger, t: Handle, v: Locals)
    requires m.ok && Disposable(m, t) && t.kind == Task
    requires p == UploadC ==> v.respBody.Some? && Disposable(m, v.respBody.value) && v.respBody.value.kind == Body
    ensures
      m.AfterAll([Use(t), Release(t)] + if p == UploadC then [Release(v.respBody.value)] else []) ==
      m.(mine := m.mine - {t} - if p == UploadC then {v.respBody.value} else {})
  {
    After2(m, Use(t), Release(t));
    if p == UploadC {
      AfterConcat(m, [Use(t), Release(t)], [Release(v.respBody.value)]);
      After1(m.AfterAll([Use(t), Release(t)]), Release(v.respBody.value));
    } else {
      assert [Use(t), Release(t)] + [] == [Use(t), Release(t)];
      assert m.mine - {t} - {} == m.mine - {t};
    }
  }

  lemma ExecutorFreedLedger(m: Ledger, exec: Handle)
    requires m.ok && exec in m.mine && exec.kind == Executor
    ensures m.AfterAll([FreeExecutor(exec)]) == m.(mine := m.mine - {exec}, theirs := {})
  {
    After1(m, FreeExecutor(exec));
  }

  lemma Peel(conn: set<Handle>, r: set<Handle>, w: set<Handle>, x: set<Handle>)
    requires conn !! r && conn !! w && x !! r && x !! w && conn !! x
    ensures (conn + r + w + x) - r - w - {} == conn + x
    ensures (conn + r + w + x) - r - w - conn == {} + x
  {
  }

  lemma ConnFreedLedger(p: Program, m: Ledger, slots: Slots, v: Locals, x: set<Handle>)
    requires m.ok && m.theirs == {} && WellKinded(slots, v)
    requires m.mine == {v.conn} + SetOf(slots.read) + SetOf(slots.write) + x
    requires forall h :: h in x ==> h.kind == FileBuffer || h.kind == ResponseBuffer
    ensures m.AfterAll(FreeConnCalls(p, slots, v.conn)) == m.(mine := (if p == GetGo then {v.conn} else {}) + x)
  {
    FreeConnLedger(p, m, slots, v.conn);
    Peel({v.conn}, SetOf(slots.read), SetOf(slots.write), x);
  }

  lemma BufferFreedLedger(p: Program, m: Ledger, v: Locals)
    requires m.ok && m.theirs == {} && v.fileBuf.kind == FileBuffer
    requires forall h :: h in m.mine ==> h.kind != Executor
    requires p == UploadC ==> m.mine == {v.fileBuf}
    ensures m.AfterAll(if p == UploadC then [Release(v.fileBuf)] else []) == if p == UploadC then m.(mine := {}) else m
  {
    if p == UploadC {
      After1(m, Release(v.fileBuf));
      assert m.mine - {v.fileBuf} == {};
    }
  }

  lemma CleanupLedger(p: Program, m: Ledger, slots: Slots, v: Locals, x: set<Handle>)
    requires m.ok && m.theirs == {} && WellKinded(slots, v)
    requires m.mine == {v.conn} + SetOf(slots.read) + SetOf(slots.write) + x
    requires x == if p == UploadC then {v.fileBuf} else SetOf(v.response)
    ensures m.AfterAll(FreeConnCalls(p, slots, v.conn) + if p == UploadC then [Release(v.fileBuf)] else []) ==
      m.(mine := (if p == GetGo then {v.conn} else {}) + if p == UploadC then {} else x)
  {
    ConnFreedLedger(p, m, slots, v, x);
    BufferFreedLedger(p, m.(mine := (if p == GetGo then {v.conn} else {}) + x), v);
    AfterConcat(m, FreeConnCalls(p, slots, v.conn), if p == UploadC then [Release(v.fileBuf)] else []);
  }

  /** The calls at the end, in three parts. */
  lemma FinishParts(p: Program, t: Handle, slots: Slots, v: Locals)
    requires v.respBody.Some? <==> p == UploadC
    ensures FinishCalls(p, t, slots, v) ==
      ([Use(t), Release(t)] + if p == UploadC then [Release(v.respBody.value)] else []) + [FreeExecutor(v.exec)] +
      (FreeConnCalls(p, slots, v.conn) + if p == UploadC then [Release(v.fileBuf)] else [])
  {
  }

  /** What is left when task, body and executor are gone. */
  ghost function AfterExecutor(p: Program, m: Ledger, v: Locals, t: Handle): Ledger {
    m.(mine := m.mine - {t} - (if p == UploadC then SetOf(v.respBody) else {}) - {v.exec}, theirs := {})
  }

  lemma ExecutorGone(p: Program, l: Ledger, next: nat, slots: Slots, v: Locals, t: Handle)
    requires Holding(l, next, slots, v, Rest(p, v, true), true, t)
    requires v.respBody.Some? <==> p == UploadC
    requires v.response.Some? ==> p == GetGo
    ensures
      var first := [Use(t), Release(t)] + if p == UploadC then [Release(v.respBody.value)] else [];
      Back(l, t).AfterAll(first + [FreeExecutor(v.exec)]) == AfterExecutor(p, Back(l, t), v, t)
  {
    var m := Back(l, t);
    var first := [Use(t), Release(t)] + if p == UploadC then [Release(v.respBody.value)] else [];
    BackReady(l, next, slots, v, Rest(p, v, true), true, t, next);
    TaskAndBodyLedger(p, m, t, v);
    ExecutorFreedLedger(m.AfterAll(first), v.exec);
    AfterConcat(m, first, [FreeExecutor(v.exec)]);
  }

  lemma LeftForCleanup(p: Program, l: Ledger, next: nat, slots: Slots, v: Locals, t: Handle)
    requires Holding(l, next, slots, v, Rest(p, v, true), true, t)
    requires v.respBody.Some? <==> p == UploadC
    requires v.response.Some? ==> p == GetGo
    ensures AfterExecutor(p, Back(l, t), v, t).mine ==
      {v.conn} + SetOf(slots.read) + SetOf(slots.write) + if p == UploadC then {v.fileBuf} else SetOf(v.response)
  {
  }

  lemma FinishLedger(p: Program, l: Ledger, next: nat, slots: Slots, v: Locals, t: Handle)
    requires Holding(l, next, slots, v, Rest(p, v, true), true, t)
    requires v.respBody.Some? <==> p == UploadC
    requires v.response.Some? ==> p == GetGo
    ensures
      var done := Back(l, t).AfterAll(FinishCalls(p, t, slots, v));
      done.ok && done.theirs == {} && done.mine == if p == GetGo then {v.conn} + SetOf(v.response) else {}
  {
    var first := [Use(t), Release(t)] + if p == UploadC then [Release(v.respBody.value)] else [];
    var last := FreeConnCalls(p, slots, v.conn) + if p == UploadC then [Release(v.fileBuf)] else [];
    ExecutorGone(p, l, next, slots, v, t);
    LeftForCleanup(p, l, next, slots, v, t);
    CleanupLedger(p, AfterExecutor(p, Back(l, t), v, t), slots, v,
                  if p == UploadC then {v.fileBuf} else SetOf(v.response));
    AfterConcat(Back(l, t), first + [FreeExecutor(v.exec)], last);
    FinishParts(p, t, slots, v);
  }

  lemma BodySound(p: Program, s: State, t: Handle, result: TaskResult, id: nat)
    requires Sound(p, s, t, RespBody) && s.executing.next <= id && s.status == Polling
    requires WellTyped(p, RespBody, result) && BodyAllowed(s, result)
    ensures
      var s' := Renewed(OnBody(p, Delivered(s, t), t, result, id), id);
      Replay(s'.calls).ok && s'.status in {Polling, Exited(0), Exited(1), Panicked} &&
      (s'.status == Polling ==> Sound(p, s', Handle(Task, id), RespBody)) &&
      (s'.status == Exited(0) ==> AllReleased(p, s'))
  {
    match result
    case Failed(_) => FailOk(p, s, t, RespBody, id);
    case Data => DataSound(s, t, id);
    case Empty =>
      DeliveredLedger(p, s, t, RespBody);
      AfterConcat(EMPTY_LEDGER, Delivered(s, t).calls, FinishCalls(p, t, s.slots, s.locals));
      FinishLedger(p, Replay(s.calls), s.executing.next, s.slots, s.locals, t);
  }

  // ---------------------------------------------------------------- the start

  ghost function FirstLedger(p: Program): Ledger {
    var v := FIRST_LOCALS;
    match p
    case ClientC => EMPTY_LEDGER
    case UploadC => EMPTY_LEDGER.(mine := {v.fileBuf}, issued := {v.fileBuf})
    case GetGo => EMPTY_LEDGER.(mine := {v.req}, issued := {v.req})
  }

  lemma PreludeLedger(p: Program)
    ensures Replay(PreludeCalls(p, FIRST_LOCALS)) == FirstLedger(p)
  {
    match p
    case ClientC =>
    case UploadC => After1(EMPTY_LEDGER, Acquire(FIRST_LOCALS.fileBuf));
    case GetGo => After2(EMPTY_LEDGER, Acquire(FIRST_LOCALS.req), Use(FIRST_LOCALS.req));
  }

  lemma TransportLedger(l: Ledger, v: Locals)
    requires l.ok && v == FIRST_LOCALS && l.loans == map[]
    requires {v.conn, v.exec, Handle(Io, 0)} !! l.issued
    ensures l.AfterAll([Acquire(v.conn), Acquire(Handle(Io, 0)), Use(Handle(Io, 0)), Acquire(v.exec)]) ==
      l.(mine := l.mine + {v.conn, v.exec, Handle(Io, 0)}, issued := l.issued + {v.conn, v.exec, Handle(Io, 0)})
  {
    After4(l, Acquire(v.conn), Acquire(Handle(Io, 0)), Use(Handle(Io, 0)), Acquire(v.exec));
  }

  lemma OptionsLedger(l: Ledger, v: Locals)
    requires l.ok && v == FIRST_LOCALS && l.loans == map[]
    requires Handle(Options, 0) !in l.issued && Handle(Options, 0) !in l.mine
    requires {v.exec, Handle(Io, 0)} <= l.mine
    ensures l.AfterAll([Acquire(Handle(Options, 0)), Use(Handle(Options, 0)), Use(v.exec), Release(Handle(Io, 0)),
      Release(Handle(Options, 0))]) ==
      l.(mine := l.mine - {Handle(Io, 0)}, issued := l.issued + {Handle(Options, 0)})
  {
    var io, opts := Handle(Io, 0), Handle(Options, 0);
    After5(l, Acquire(opts), Use(opts), Use(v.exec), Release(io), Release(opts));
    assert l.mine + {opts} - {io} - {opts} == l.mine - {io};
  }

  lemma PushHandshakeLedger(l: Ledger, v: Locals)
    requires l.ok && v == FIRST_LOCALS && l.loans == map[]
    requires Handle(Task, 0) !in l.issued && Handle(Task, 0) !in l.mine && {v.exec, v.conn} <= l.mine
    ensures l.AfterAll([Acquire(Handle(Task, 0)), Lend(v.conn, v.exec), Use(Handle(Task, 0)), Push(Handle(Task, 0))]) ==
      l.(theirs := l.theirs + {Handle(Task, 0)}, issued := l.issued + {Handle(Task, 0)}, loans := map[v.conn := v.exec])
  {
    var task := Handle(Task, 0);
    After4(l, Acquire(task), Lend(v.conn, v.exec), Use(task), Push(task));
    assert l.mine + {task} - {task} == l.mine;
  }

  /** The ledger with the connection set up over what the prelude left. */
  ghost function ConnectEffect(l: Ledger, v: Locals): Ledger {
    Ledger(l.mine + {v.conn, v.exec}, {Handle(Task, 0)}, map[v.conn := v.exec],
           l.issued + {v.conn, v.exec, Handle(Io, 0)} + {Handle(Options, 0)} + {Handle(Task, 0)}, true)
  }

  /** The ledger once transport and options are consumed. */
  ghost function ConfiguredEffect(l: Ledger, v: Locals): Ledger {
    l.(mine := l.mine + {v.conn, v.exec},
       issued := l.issued + {v.conn, v.exec, Handle(Io, 0)} + {Handle(Options, 0)})
  }

  lemma ConfiguredLedger(l: Ledger, v: Locals, l1: Ledger)
    requires l.ok && v == FIRST_LOCALS && l.loans == map[] && l.mine == l.issued
    requires forall h :: h in l.issued ==> h == v.fileBuf || h == v.req
    requires l1 == l.(mine := l.mine + {v.conn, v.exec, Handle(Io, 0)},
                      issued := l.issued + {v.conn, v.exec, Handle(Io, 0)})
    ensures l.AfterAll([Acquire(v.conn), Acquire(Handle(Io, 0)), Use(Handle(Io, 0)), Acquire(v.exec)]) == l1
    ensures l1.AfterAll([Acquire(Handle(Options, 0)), Use(Handle(Options, 0)), Use(v.exec), Release(Handle(Io, 0)),
      Release(Handle(Options, 0))]) == ConfiguredEffect(l, v)
  {
    TransportLedger(l, v);
    OptionsLedger(l1, v);
    assert l1.mine - {Handle(Io, 0)} == l.mine + {v.conn, v.exec};
  }

  lemma HandshakePushedLedger(l: Ledger, v: Locals)
    requires l.ok && v == FIRST_LOCALS && l.loans == map[] && l.theirs == {} && l.mine == l.issued
    requires forall h :: h in l.issued ==> h == v.fileBuf || h == v.req
    ensures ConfiguredEffect(l, v).AfterAll([Acquire(Handle(Task, 0)), Lend(v.conn, v.exec), Use(Handle(Task, 0)),
      Push(Handle(Task, 0))]) == ConnectEffect(l, v)
  {
    PushHandshakeLedger(ConfiguredEffect(l, v), v);
    assert {} + {Handle(Task, 0)} == {Handle(Task, 0)};
  }

  lemma ConnectLedger(l: Ledger, v: Locals)
    requires l.ok && v == FIRST_LOCALS && l.loans == map[] && l.theirs == {} && l.mine == l.issued
    requires forall h :: h in l.issued ==> h == v.fileBuf || h == v.req
    ensures l.AfterAll(ConnectCalls(v)) == ConnectEffect(l, v)
  {
    var io, opts, task := Handle(Io, 0), Handle(Options, 0), Handle(Task, 0);
    var l1 := l.(mine := l.mine + {v.conn, v.exec, io}, issued := l.issued + {v.conn, v.exec, io});
    ConfiguredLedger(l, v, l1);
    HandshakePushedLedger(l, v);
    AfterChain(l, [Acquire(v.conn), Acquire(io), Use(io), Acquire(v.exec)],
      [Acquire(opts), Use(opts), Use(v.exec), Release(io), Release(opts)],
      [Acquire(task), Lend(v.conn, v.exec), Use(task), Push(task)],
      l1, ConfiguredEffect(l, v), ConnectEffect(l, v));
  }

  lemma StartReplay(p: Program)
    ensures Replay(PreludeCalls(p, FIRST_LOCALS)) == FirstLedger(p)
    ensures Replay(PreludeCalls(p, FIRST_LOCALS) + ConnectCalls(FIRST_LOCALS)) ==
      ConnectEffect(FirstLedger(p), FIRST_LOCALS)
  {
    PreludeLedger(p);
    AfterConcat(EMPTY_LEDGER, PreludeCalls(p, FIRST_LOCALS), ConnectCalls(FIRST_LOCALS));
    ConnectLedger(FirstLedger(p), FIRST_LOCALS);
  }

  lemma StartHolding(p: Program, v: Locals)
    requires v == FIRST_LOCALS
    ensures Holding(ConnectEffect(FirstLedger(p), v), 1, Slots(None, None), v, Rest(p, v, false), false, Handle(Task,
      0))
  {
    var m := ConnectEffect(FirstLedger(p), v);
    assert m.mine == Base(Slots(None, None), v) + Rest(p, v, false);
    assert LoansInPlace(m, v, Rest(p, v, false), false, Handle(Task, 0));
    assert Numbered(m, 1);
  }

  lemma StartShape(p: Program, w: World)
    ensures Running(Start(p, w)) ==>
      && InStage(p, Start(p, w), Handle(Task, 0), Handshake)
      && Start(p, w).calls == PreludeCalls(p, FIRST_LOCALS) + ConnectCalls(FIRST_LOCALS)
      && Start(p, w).executing.next == 1 && Start(p, w).slots == Slots(None, None)
      && Start(p, w).locals == FIRST_LOCALS
    ensures !Running(Start(p, w)) ==>
      Start(p, w).calls == PreludeCalls(p, FIRST_LOCALS) && Start(p, w).status == Panicked
  {
    assert PreludeCalls(p, FIRST_LOCALS) + [] == PreludeCalls(p, FIRST_LOCALS);
  }

  lemma StartSound(p: Program, w: World)
    ensures Replay(Start(p, w).calls).ok
    ensures Running(Start(p, w)) ==> Sound(p, Start(p, w), Handle(Task, 0), Handshake)
  {
    StartShape(p, w);
    StartReplay(p);
    StartHolding(p, FIRST_LOCALS);
  }

  // ---------------------------------------------------------------- every run

  /** What holds of every reachable state: no call broke the rules of the interface, no run ends in an
      assertion or falls through fail(nil), a running program holds exactly what its variables name, and a
      successful one has let go of everything. */
  ghost predicate Safe(p: Program, s: State) {
    && Replay(s.calls).ok
    && s.status != AssertFailed && s.status != FellThrough
    && (Running(s) ==> exists t, tag :: Sound(p, s, t, tag))
    && (s.status == Exited(0) ==> AllReleased(p, s))
  }

  lemma FinishedSafe(p: Program, s: State, t: Handle, tag: Tag, a: Answer)
    requires Sound(p, s, t, tag) && Allowed(p, s, a) && a.Finished?
    ensures Safe(p, Step(p, s, a))
  {
    assert a.task == t && s.executing.tasks[t] == tag;
    var s' := Step(p, s, a);
    match tag
    case Handshake =>
      HandshakeSound(p, s, t, a.result, a.id);
      assert s'.status == Polling ==> Sound(p, s', Handle(Task, a.id), Send);
    case Send =>
      ResponseSound(p, s, t, a.result, a.id);
      assert s'.status == Polling ==> Sound(p, s', Handle(Task, a.id), RespBody);
    case RespBody =>
      BodySound(p, s, t, a.result, a.id);
      assert s'.status == Polling ==> Sound(p, s', Handle(Task, a.id), RespBody);
  }

  lemma ChunkSafe(p: Program, s: State, t: Handle, tag: Tag, memory: bool, id: nat)
    requires Sound(p, s, t, tag) && s.executing.next <= id && s.download.taken < |s.world.peer|
    requires p == ClientC || (p == GetGo && tag == RespBody)
    ensures Sound(p, Renewed(if p == ClientC then PrintChunk(s) else AppendChunk(s, memory, id), id), t, tag)
  {
    if p == ClientC {
      PrintSound(s, t, tag, id);
    } else if memory {
      AppendedSound(s, t, id);
    } else {
      RefusedSound(s, t, id);
    }
  }

  lemma QuietSafe(p: Program, s: State, t: Handle, tag: Tag, a: Answer)
    requires Sound(p, s, t, tag) && Allowed(p, s, a) && !a.Finished? && !a.Select?
    ensures Sound(p, Step(p, s, a), t, tag)
  {
    match a
    case ReadCall(_, sys, id) => ReadSound(p, s, t, tag, sys, id);
    case WriteCall(_, sys, id) => WriteSound(p, s, t, tag, sys, id);
    case ChunkCall(memory, id) => ChunkSafe(p, s, t, tag, memory, id);
    case FileCall(sys, id) => UploadSound(s, t, tag, sys, id);
    case Background(id) => BackgroundSound(p, s, t, tag, id);
    case NoTask => NoTaskSound(p, s, t, tag);
  }

  lemma QuietRuns(p: Program, s: State, a: Answer)
    requires Allowed(p, s, a) && !a.Finished? && !a.Select?
    ensures Running(Step(p, s, a))
  {
  }

  /** A select that fails, or in Go times out, makes no call. */
  lemma GivenUpSafe(p: Program, s: State, t: Handle, tag: Tag, s': State)
    requires Sound(p, s, t, tag) && s'.calls == s.calls && (s'.status == Panicked || s'.status == Exited(1))
    ensures Safe(p, s')
  {
  }

  lemma SelectSafe(p: Program, s: State, t: Handle, tag: Tag, a: Answer)
    requires Sound(p, s, t, tag) && Allowed(p, s, a) && a.Select?
    ensures Safe(p, Step(p, s, a))
  {
    if a.ret < 0 || (a.ret == 0 && p == GetGo) {
      GivenUpSafe(p, s, t, tag, OnSelect(p, s, a.ret, a.readable, a.writable));
    } else {
      AwakeSound(p, s, t, tag, a.readable, a.writable);
      SoundIsSafe(p, OnSelect(p, s, a.ret, a.readable, a.writable), t, tag);
    }
  }

  lemma SoundIsSafe(p: Program, s: State, t: Handle, tag: Tag)
    requires Sound(p, s, t, tag) && Running(s)
    ensures Safe(p, s)
  {
  }

  lemma StepSafe(p: Program, s: State, a: Answer)
    requires Safe(p, s) && Allowed(p, s, a)
    ensures Safe(p, Step(p, s, a))
  {
    var t, tag :| Sound(p, s, t, tag);
    if a.Finished? {
      FinishedSafe(p, s, t, tag, a);
    } else if a.Select? {
      SelectSafe(p, s, t, tag, a);
    } else {
      QuietSafe(p, s, t, tag, a);
      QuietRuns(p, s, a);
      SoundIsSafe(p, Step(p, s, a), t, tag);
    }
  }

  lemma {:induction false} RunFromSafe(p: Program, s: State, script: seq<Answer>)
    requires Safe(p, s)
    ensures Safe(p, RunFrom(p, s, script))
    decreases |script|
  {
    if script != [] && Allowed(p, s, script[0]) {
      StepSafe(p, s, script[0]);
      RunFromSafe(p, Step(p, s, script[0]), script[1..]);
    }
  }

  /** Every run of every program, whatever hyper, the kernel and the peer answer, is safe. */
  lemma EveryRunIsSafe(p: Program, w: World, script: seq<Answer>)
    ensures Safe(p, Run(p, w, script))
  {
    StartSound(p, w);
    if Running(Start(p, w)) {
      assert Sound(p, Start(p, w), Handle(Task, 0), Handshake);
    }
    RunFromSafe(p, Start(p, w), script);
  }
}
