/** Wakers and wakeups: what is live, what is watched, and what each callback's return value tells. */
module LoopWakeups {
  import opened Basics
  import opened Ownership
  import opened PollLoop
  import opened LoopOwnership
  import opened LoopProgress

  /** How the executor reads the number a read or write callback returned. */
  datatype Reading = Moved(n: nat) | Pending | Error

  function Decode(ret: nat): Reading {
    if ret == IO_PENDING then Pending
    else if ret == IO_ERROR then Reading.Error
    else Moved(ret)
  }

  /** The waker a direction waits for: the one kept by its latest pending callback since it was last woken. */
  function Interest(history: seq<IoEvent>, d: Direction): Option<Handle> {
    if history == [] then None
    else
      var last := history[|history| - 1];
      if last == Woken(d) then None
      else if last.Returned? && last.d == d && Decode(last.ret).Pending? then last.waker
      else Interest(history[..|history| - 1], d)
  }

  ghost predicate Wired(s: State) {
    Running(s) ==>
      s.slots == Slots(Interest(s.log.history, Read), Interest(s.log.history, Write))
  }

  lemma InterestSnoc(history: seq<IoEvent>, e: IoEvent, d: Direction)
    ensures Interest(history + [e], d) ==
      if e == Woken(d) then None
      else if e.Returned? && e.d == d && Decode(e.ret).Pending? then e.waker
      else Interest(history, d)
  {
    assert (history + [e])[..|history|] == history;
  }

  lemma IoWired(p: Program, s: State, a: Answer)
    requires Wired(s) && Allowed(p, s, a) && (a.ReadCall? || a.WriteCall?)
    ensures Wired(Step(p, s, a))
  {
    var e := IoLine(if a.ReadCall? then Read else Write, a.sys, a.id);
    InterestSnoc(s.log.history, e, Read);
    InterestSnoc(s.log.history, e, Write);
  }

  lemma SelectWired(p: Program, s: State, a: Answer)
    requires Wired(s) && Allowed(p, s, a) && a.Select?
    ensures Wired(Step(p, s, a))
  {
    var h := if a.readable then s.log.history + [Woken(Read)] else s.log.history;
    InterestSnoc(s.log.history, Woken(Read), Read);
    InterestSnoc(s.log.history, Woken(Read), Write);
    InterestSnoc(h, Woken(Write), Read);
    InterestSnoc(h, Woken(Write), Write);
  }

  lemma OthersWired(p: Program, s: State, a: Answer)
    requires Wired(s) && Allowed(p, s, a) && !a.ReadCall? && !a.WriteCall? && !a.Select?
    ensures Wired(Step(p, s, a))
  {
    assert Running(Step(p, s, a)) ==> Step(p, s, a).slots == s.slots;
    assert Step(p, s, a).log.history == s.log.history;
  }

  lemma {:induction false} RunFromWired(p: Program, s: State, script: seq<Answer>)
    requires Wired(s)
    ensures Wired(RunFrom(p, s, script))
    decreases |script|
  {
    if script != [] && Allowed(p, s, script[0]) {
      match script[0] {
        case ReadCall(_, _, _) => IoWired(p, s, script[0]);
        case WriteCall(_, _, _) => IoWired(p, s, script[0]);
        case Select(_, _, _) => SelectWired(p, s, script[0]);
        case _ => OthersWired(p, s, script[0]);
      }
      RunFromWired(p, Step(p, s, script[0]), script[1..]);
    }
  }

  /** Callback number i of direction d came back pending and nothing woke d or blocked it again since. */
  ghost predicate StillPending(history: seq<IoEvent>, d: Direction, i: int) {
    && 0 <= i < |history|
    && history[i].Returned? && history[i].d == d && Decode(history[i].ret).Pending?
    && forall j :: i < j < |history| ==>
         history[j] != Woken(d) && !(history[j].Returned? && history[j].d == d && Decode(history[j].ret).Pending?)
  }

  lemma {:induction false} InterestIsStillPending(history: seq<IoEvent>, d: Direction, i: int)
    requires StillPending(history, d, i)
    ensures Interest(history, d) == history[i].waker
    decreases |history|
  {
    if i < |history| - 1 {
      InterestIsStillPending(history[..|history| - 1], d, i);
    }
  }

  lemma {:induction false} InterestComesFrom(history: seq<IoEvent>, d: Direction) returns (i: nat)
    requires Interest(history, d).Some?
    ensures StillPending(history, d, i) && history[i].waker == Interest(history, d)
    decreases |history|
  {
    var n := |history| - 1;
    if history[n].Returned? && history[n].d == d && Decode(history[n].ret).Pending? {
      i := n;
    } else {
      i := InterestComesFrom(history[..n], d);
    }
  }

  function SlotOf(s: State, d: Direction): Option<Handle> {
    if d == Read then s.slots.read else s.slots.write
  }

  // ---------------------------------------------------------------- from the answers alone

  /** The callback of this direction finds that it would block. */
  predicate Blocks(a: Answer, d: Direction) {
    match d
    case Read => a.ReadCall? && a.sys == Again
    case Write => a.WriteCall? && a.sys == Again
  }

  /** select reports the direction ready. */
  predicate Readies(a: Answer, d: Direction) {
    match d
    case Read => a.Select? && a.readable
    case Write => a.Select? && a.writable
  }

  /** At answer number i the direction was blocked, and no later answer made it ready or blocked it again. */
  ghost predicate BlockedSince(answers: seq<Answer>, d: Direction, i: int) {
    && 0 <= i < |answers| && Blocks(answers[i], d)
    && forall j :: i < j < |answers| ==> !Blocks(answers[j], d) && !Readies(answers[j], d)
  }

  /** The waker a direction waits with after these answers. */
  function WaitsWith(slot: Option<Handle>, answers: seq<Answer>, d: Direction): Option<Handle>
    decreases |answers|
  {
    if answers == [] then slot
    else
      var a := answers[0];
      WaitsWith(if Blocks(a, d) then Some(Handle(Waker, a.id)) else if Readies(a, d) then None else slot,
                answers[1..], d)
  }

  lemma SlotStep(p: Program, s: State, a: Answer, d: Direction)
    requires Allowed(p, s, a) && Running(Step(p, s, a))
    ensures SlotOf(Step(p, s, a), d) ==
      if Blocks(a, d) then Some(Handle(Waker, a.id)) else if Readies(a, d) then None else SlotOf(s, d)
  {
  }

  lemma RunningBefore(p: Program, s: State, script: seq<Answer>)
    requires Running(RunFrom(p, s, script))
    ensures Running(s)
  {
  }

  lemma {:induction false} SlotsFollowAnswers(p: Program, s: State, script: seq<Answer>, d: Direction)
    requires Running(RunFrom(p, s, script))
    ensures SlotOf(RunFrom(p, s, script), d) == WaitsWith(SlotOf(s, d), Used(p, s, script), d)
    decreases |script|
  {
    if script != [] && Allowed(p, s, script[0]) {
      var s', rest := Step(p, s, script[0]), script[1..];
      RunningBefore(p, s', rest);
      SlotStep(p, s, script[0], d);
      SlotsFollowAnswers(p, s', rest, d);
      assert Used(p, s, script)[1..] == Used(p, s', rest);
    }
  }

  lemma {:induction false} WaitsSinceBlocked(slot: Option<Handle>, answers: seq<Answer>, d: Direction, i: int)
    requires BlockedSince(answers, d, i)
    ensures WaitsWith(slot, answers, d) == Some(Handle(Waker, answers[i].id))
    decreases |answers|
  {
    var rest := answers[1..];
    if i > 0 {
      assert forall j :: i - 1 < j < |rest| ==> rest[j] == answers[j + 1];
      WaitsSinceBlocked(
        if Blocks(answers[0], d) then Some(Handle(Waker, answers[0].id)) else if Readies(answers[0], d) then None
        else slot, rest, d, i - 1);
    } else {
      assert forall j :: 0 <= j < |rest| ==> rest[j] == answers[j + 1];
      NothingSince(Some(Handle(Waker, answers[0].id)), rest, d);
    }
  }

  lemma {:induction false} NothingSince(slot: Option<Handle>, answers: seq<Answer>, d: Direction)
    requires forall j :: 0 <= j < |answers| ==> !Blocks(answers[j], d) && !Readies(answers[j], d)
    ensures WaitsWith(slot, answers, d) == slot
    decreases |answers|
  {
    if answers != [] {
      NothingSince(slot, answers[1..], d);
    }
  }

  lemma {:induction false} BlockedWhileWaiting(slot: Option<Handle>, answers: seq<Answer>, d: Direction)
      returns (i: int)
    requires WaitsWith(slot, answers, d).Some?
    ensures BlockedSince(answers, d, i) || (slot.Some? && i == -1)
    ensures i == -1 ==> forall j :: 0 <= j < |answers| ==> !Blocks(answers[j], d) && !Readies(answers[j], d)
    decreases |answers|
  {
    i := -1;
    if answers != [] {
      var a, rest := answers[0], answers[1..];
      var k := BlockedWhileWaiting(
        if Blocks(a, d) then Some(Handle(Waker, a.id)) else if Readies(a, d) then None else slot, rest, d);
      assert forall j :: 0 < j < |answers| ==> answers[j] == rest[j - 1];
      if k >= 0 || Blocks(a, d) {
        i := k + 1;
      }
    }
  }

  /** No lost wakeup.  Whenever a program waits in select or is about to poll: if a direction's callback found that
      it would block, and select has not reported that direction since, the direction holds the waker made in that
      very callback and its descriptor is watched; and a watched direction was left by such a callback.  So select
      never waits on nothing while something is blocked.  The history written down says the same. */
  lemma NoLostWakeup(p: Program, w: World, script: seq<Answer>, d: Direction)
    requires Running(Run(p, w, script))
    ensures
      var slot := SlotOf(Run(p, w, script), d);
      var used := Used(p, Start(p, w), script);
      && (forall i :: BlockedSince(used, d, i) ==> slot == Some(Handle(Waker, used[i].id)))
      && (slot.Some? ==> exists i :: BlockedSince(used, d, i))
    ensures
      var s := Run(p, w, script);
      && (forall i :: StillPending(s.log.history, d, i) ==>
            SlotOf(s, d) == s.log.history[i].waker && SlotOf(s, d).Some?)
      && (SlotOf(s, d).Some? ==> exists i :: StillPending(s.log.history, d, i))
  {
    WakeupsFollowAnswers(p, w, script, d);
    WakeupsFollowHistory(p, w, script, d);
  }

  lemma WakeupsFollowAnswers(p: Program, w: World, script: seq<Answer>, d: Direction)
    requires Running(Run(p, w, script))
    ensures
      var slot := SlotOf(Run(p, w, script), d);
      var used := Used(p, Start(p, w), script);
      && (forall i :: BlockedSince(used, d, i) ==> slot == Some(Handle(Waker, used[i].id)))
      && (slot.Some? ==> exists i :: BlockedSince(used, d, i))
  {
    var used := Used(p, Start(p, w), script);
    SlotsFollowAnswers(p, Start(p, w), script, d);
    forall i | BlockedSince(used, d, i)
      ensures SlotOf(Run(p, w, script), d) == Some(Handle(Waker, used[i].id))
    {
      WaitsSinceBlocked(None, used, d, i);
    }
    if SlotOf(Run(p, w, script), d).Some? {
      var i := BlockedWhileWaiting(None, used, d);
    }
  }

  lemma WakeupsFollowHistory(p: Program, w: World, script: seq<Answer>, d: Direction)
    requires Running(Run(p, w, script))
    ensures
      var s := Run(p, w, script);
      && (forall i :: StillPending(s.log.history, d, i) ==>
            SlotOf(s, d) == s.log.history[i].waker && SlotOf(s, d).Some?)
      && (SlotOf(s, d).Some? ==> exists i :: StillPending(s.log.history, d, i))
  {
    var s := Run(p, w, script);
    RunFromWired(p, Start(p, w), script);
    EveryPendingKeptAWaker(p, Start(p, w), script);
    forall i | StillPending(s.log.history, d, i)
      ensures SlotOf(s, d) == s.log.history[i].waker && SlotOf(s, d).Some?
    {
      InterestIsStillPending(s.log.history, d, i);
    }
    if SlotOf(s, d).Some? {
      var i := InterestComesFrom(s.log.history, d);
    }
  }

  /** A callback's number is read as pending exactly when it kept a waker. */
  ghost predicate Honest(history: seq<IoEvent>) {
    forall i :: 0 <= i < |history| ==> history[i].Returned? ==>
      (Decode(history[i].ret).Pending? <==> history[i].waker.Some?)
  }

  lemma {:induction false} EveryPendingKeptAWaker(p: Program, s: State, script: seq<Answer>)
    requires Honest(s.log.history)
    ensures Honest(RunFrom(p, s, script).log.history)
    decreases |script|
  {
    if script != [] && Allowed(p, s, script[0]) {
      HonestStep(p, s, script[0]);
      EveryPendingKeptAWaker(p, Step(p, s, script[0]), script[1..]);
    }
  }

  lemma HonestStep(p: Program, s: State, a: Answer)
    requires Honest(s.log.history) && Allowed(p, s, a)
    ensures Honest(Step(p, s, a).log.history)
  {
    var h' := Step(p, s, a).log.history;
    match a
    case ReadCall(_, sys, id) => assert h' == s.log.history + [IoLine(Read, sys, id)];
    case WriteCall(_, sys, id) => assert h' == s.log.history + [IoLine(Write, sys, id)];
    case Select(_, r, w) => assert forall i :: |s.log.history| <= i < |h'| ==> h'[i].Woken?;
    case _ => assert h' == s.log.history;
  }

  /** What one answer adds to the history. */
  function Lines(a: Answer): seq<IoEvent> {
    match a
    case ReadCall(_, sys, id) => [Line(Read, sys, id)]
    case WriteCall(_, sys, id) => [Line(Write, sys, id)]
    case Select(ret, r, w) =>
      (if ret > 0 && r then [Woken(Read)] else []) + (if ret > 0 && w then [Woken(Write)] else [])
    case _ => []
  }

  /** A callback that got this result returned the number the executor reads as such. */
  function Line(d: Direction, sys: SysResult, id: nat): IoEvent {
    match sys
    case Bytes(n) => Returned(d, n, None)
    case Again => Returned(d, 0xFFFF_FFFF, Some(Handle(Waker, id)))
    case Broken => Returned(d, 0xFFFF_FFFE, None)
  }

  function AllLines(answers: seq<Answer>): seq<IoEvent>
    decreases |answers|
  {
    if answers == [] then [] else Lines(answers[0]) + AllLines(answers[1..])
  }

  lemma LinesStep(p: Program, s: State, a: Answer)
    requires Allowed(p, s, a)
    ensures Step(p, s, a).log.history == s.log.history + Lines(a)
  {
    match a
    case ReadCall(_, sys, id) =>
    case WriteCall(_, sys, id) =>
    case Select(ret, r, w) => SelectLines(p, s, ret, r, w);
    case _ => assert Step(p, s, a).log.history == s.log.history;
  }

  lemma SelectLines(p: Program, s: State, ret: int, r: bool, w: bool)
    requires Allowed(p, s, Select(ret, r, w))
    ensures Step(p, s, Select(ret, r, w)).log.history == s.log.history + Lines(Select(ret, r, w))
  {
  }

  /** The history is what the answers say, line by line: each callback with its direction and what it returned,
      and each direction that was woken. */
  lemma {:induction false} HistoryFollowsAnswers(p: Program, s: State, script: seq<Answer>)
    ensures RunFrom(p, s, script).log.history == s.log.history + AllLines(Used(p, s, script))
    decreases |script|
  {
    if script != [] && Allowed(p, s, script[0]) {
      var s' := Step(p, s, script[0]);
      LinesStep(p, s, script[0]);
      HistoryFollowsAnswers(p, s', script[1..]);
      assert Used(p, s, script)[1..] == Used(p, s', script[1..]);
    }
  }

  /** The bound on buffers is exact: all results for a buffer of this length are read as they were meant, if
      and only if the length is below both sentinels. */
  lemma SentinelsExact(bufLen: nat)
    ensures (forall sys: SysResult :: (sys.Bytes? ==> sys.n <= bufLen) ==>
              Decode(IoReturn(sys)) ==
                match sys case Bytes(n) => Moved(n) case Again => Pending case Broken => Reading.Error)
      <==> bufLen < IO_ERROR
  {
    if bufLen >= IO_ERROR {
      assert Decode(IoReturn(Bytes(IO_ERROR))) == Reading.Error;
    }
  }

  // ---------------------------------------------------------------- wakers

  /** Between callbacks the live wakers are exactly those in the two slots, and the slots never share one. */
  lemma LiveWakersAreSlots(p: Program, w: World, script: seq<Answer>, h: Handle)
    requires Running(Run(p, w, script)) && h.kind == Waker
    ensures
      var s := Run(p, w, script);
      && (Replay(s.calls).Live(h) <==> s.slots.read == Some(h) || s.slots.write == Some(h))
      && (s.slots.read.Some? ==> s.slots.read != s.slots.write)
  {
    var s := Run(p, w, script);
    EveryRunIsSafe(p, w, script);
    var t, tag :| Sound(p, s, t, tag);
    HoldingWakers(Replay(s.calls), s.executing.next, s.slots, s.locals, Rest(p, s.locals, tag != Handshake),
      tag != Handshake, t, h);
  }

  lemma HoldingWakers(l: Ledger, next: nat, slots: Slots, v: Locals, rest: set<Handle>, sent: bool, t: Handle,
                      h: Handle)
    requires Holding(l, next, slots, v, rest, sent, t) && h.kind == Waker
    ensures l.Live(h) <==> slots.read == Some(h) || slots.write == Some(h)
    ensures slots.read.Some? ==> slots.read != slots.write
  {
  }

  /** After a successful run every waker hyper ever made was freed or woken by exactly one call, and no later
      call mentions it. */
  lemma WakersEndOnce(p: Program, w: World, script: seq<Answer>, h: Handle) returns (i: nat)
    requires Run(p, w, script).status == Exited(0) && h.kind == Waker
    requires Acquire(h) in Run(p, w, script).calls
    ensures
      var calls := Run(p, w, script).calls;
      && i < |calls| && calls[i] == Release(h)
      && (forall j :: 0 <= j < |calls| && calls[j] == Release(h) ==> j == i)
      && (forall j :: i < j < |calls| ==> !Mentions(calls[j], h))
  {
    EveryRunIsSafe(p, w, script);
    i := HandlesEndOnce(p, w, script, h);
    var calls := Run(p, w, script).calls;
    EndsByRelease(calls, i, h);
    assert forall j :: 0 <= j < |calls| && calls[j] == Release(h) ==> EndsAt(calls, j, h);
    forall j | i < j < |calls|
      ensures !Mentions(calls[j], h)
    {
      NothingAfterRelease(calls, i, j, h);
    }
  }

  /** After a successful run each handle ever handed out was ended by exactly one call, but for the connection
      record and the response buffer that Get leaves to the collector and to its caller. */
  lemma HandlesEndOnce(p: Program, w: World, script: seq<Answer>, h: Handle) returns (i: nat)
    requires Run(p, w, script).status == Exited(0)
    requires Acquire(h) in Run(p, w, script).calls
    requires p == GetGo ==> h != Run(p, w, script).locals.conn && Run(p, w, script).locals.response != Some(h)
    ensures
      var calls := Run(p, w, script).calls;
      && i < |calls| && EndsAt(calls, i, h)
      && (forall j :: 0 <= j < |calls| && EndsAt(calls, j, h) ==> j == i)
  {
    var calls := Run(p, w, script).calls;
    EveryRunIsSafe(p, w, script);
    AcquiredWereIssued(calls, h);
    i := EndedExactlyOnce(calls, h);
  }

  /** The answer is a failed task of the application. */
  predicate Fails(a: Answer) {
    a.Finished? && a.result == Failed(false)
  }

  /** The run has ended with a failed task, and its error, if it was taken, was freed last. */
  ghost predicate EndedByFailure(p: Program, end: State, err: Handle) {
    && end.status == (if p == GetGo then Panicked else Exited(1))
    && (p != UploadC ==>
         |end.calls| >= 3 && end.calls[|end.calls| - 3..] == [Acquire(err), Use(err), Release(err)])
  }

  lemma {:induction false} FailureIsLast(p: Program, s: State, script: seq<Answer>, used: seq<Answer>, k: nat,
                                         end: State)
    requires used == Used(p, s, script) && end == RunFrom(p, s, script)
    requires k < |used| && Fails(used[k])
    ensures k == |used| - 1 && EndedByFailure(p, end, Handle(Kind.Error, used[k].id))
    decreases |script|
  {
    var a, s', rest := script[0], Step(p, s, script[0]), script[1..];
    UsedFirst(p, s, script, rest);
    if k > 0 {
      FailureIsLast(p, s', rest, used[1..], k - 1, end);
    } else {
      FailureStep(p, s, a);
      NothingUsed(p, s', rest);
    }
  }

  lemma NothingUsed(p: Program, s: State, script: seq<Answer>)
    requires !Running(s)
    ensures Used(p, s, script) == [] && RunFrom(p, s, script) == s
  {
  }

  lemma FailureStep(p: Program, s: State, a: Answer)
    requires Allowed(p, s, a) && Fails(a)
    ensures EndedByFailure(p, Step(p, s, a), Handle(Kind.Error, a.id))
  {
    if p != UploadC {
      var err := Handle(Kind.Error, a.id);
      assert Step(p, s, a).calls ==
        s.calls + [Use(s.locals.exec), Deliver(a.task), Use(a.task)] + [Acquire(err), Use(err), Release(err)];
    }
  }

  /** A run that is handed a failed task ends there, the C programs with 1 and Get by a panic.  client.c and Get
      have taken its error, and it is freed. */
  lemma FailureEndsRun(p: Program, w: World, script: seq<Answer>, k: nat)
    requires k < |Used(p, Start(p, w), script)| && Fails(Used(p, Start(p, w), script)[k])
    ensures k == |Used(p, Start(p, w), script)| - 1
    ensures Run(p, w, script).status == if p == GetGo then Panicked else Exited(1)
    ensures
      var err := Handle(Kind.Error, Used(p, Start(p, w), script)[k].id);
      var l := Replay(Run(p, w, script).calls);
      p != UploadC ==> err in l.issued && !l.Live(err)
  {
    FailureIsLast(p, Start(p, w), script, Used(p, Start(p, w), script), k, Run(p, w, script));
    EveryRunIsSafe(p, w, script);
    if p != UploadC {
      var err := Handle(Kind.Error, Used(p, Start(p, w), script)[k].id);
      var calls := Run(p, w, script).calls;
      var n := |calls| - 1;
      assert calls[n] == calls[|calls| - 3..][2];
      EndsLife(calls, n, err);
      assert calls[..n + 1] == calls;
    }
  }

  /** Lent, and until the loan ends neither released nor lent again. */
  ghost predicate KeptLent(l: Ledger, h: Handle) {
    l.Lent(h) && !l.Permits(Release(h)) && forall t :: !l.Permits(Lend(h, t))
  }

  /** While a program runs, the connection data is lent to the executor, upload.c's file buffer from the moment
      its request is sent, and the response body being pulled to the one pending body task; so no call may free
      them, and no second body task may be made. */
  lemma LentWhileRunning(p: Program, w: World, script: seq<Answer>)
    requires Running(Run(p, w, script))
    ensures
      var s := Run(p, w, script);
      var l := Replay(s.calls);
      && KeptLent(l, s.locals.conn)
      && (p == UploadC && s.log.requests > 0 ==> KeptLent(l, s.locals.fileBuf))
      && (s.locals.respBody.Some? ==>
           var body := s.locals.respBody.value;
           KeptLent(l, body) && l.loans[body] in s.executing.tasks && s.executing.tasks[l.loans[body]] == RespBody)
  {
    EveryRunIsSafe(p, w, script);
    var s := Run(p, w, script);
    var t, tag :| Sound(p, s, t, tag);
    SoundLends(p, s, t, tag, Replay(s.calls));
  }

  lemma SoundLends(p: Program, s: State, t: Handle, tag: Tag, l: Ledger)
    requires Sound(p, s, t, tag) && l == Replay(s.calls)
    ensures KeptLent(l, s.locals.conn)
    ensures p == UploadC && s.log.requests > 0 ==> KeptLent(l, s.locals.fileBuf)
    ensures s.locals.respBody.Some? ==> tag == RespBody && s.executing.tasks == map[t := tag]
    ensures s.locals.respBody.Some? ==>
      KeptLent(l, s.locals.respBody.value) && l.loans[s.locals.respBody.value] == t
  {
    HoldingLends(l, s.executing.next, s.slots, s.locals, Rest(p, s.locals, tag != Handshake), tag != Handshake, t);
  }

  lemma HoldingLends(l: Ledger, next: nat, slots: Slots, v: Locals, rest: set<Handle>, sent: bool, t: Handle)
    requires Holding(l, next, slots, v, rest, sent, t)
    ensures KeptLent(l, v.conn) && (v.fileBuf in rest && sent ==> KeptLent(l, v.fileBuf))
    ensures v.respBody.Some? ==> KeptLent(l, v.respBody.value) && l.loans[v.respBody.value] == t
  {
  }

  /** In any run, the connection data is released only after the executor it was lent to was freed, so no
      callback sees it freed. */
  lemma ConnOutlivesExecutor(p: Program, w: World, script: seq<Answer>, i: nat, j: nat, conn: Handle, exec: Handle)
    requires
      var calls := Run(p, w, script).calls;
      i < j < |calls| && calls[i] == Lend(conn, exec) && exec.kind == Executor && calls[j] == Release(conn)
    ensures
      var calls := Run(p, w, script).calls;
      exists k :: i < k < j && calls[k] == FreeExecutor(exec)
  {
    EveryRunIsSafe(p, w, script);
    ReleaseWaitsForExecutor(Run(p, w, script).calls, i, j, conn, exec);
  }
}
