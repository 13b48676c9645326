/** No run gets stuck: when a running program can still succeed. */
module LoopCompletion {
  import opened Basics
  import opened Ownership
  import opened PollLoop
  import opened LoopOwnership
  import opened LoopProgress

  /** The request can be built and, in Get, its task pushed. */
  predicate RequestGoesOut(p: Program, c: Config) {
    c.methodOk && c.uriOk && (p == GetGo ==> c.headerOk && c.pushOk)
  }

  /** A program that waits in select has a direction to wait for. */
  predicate WaitsForSomething(s: State) {
    s.status == Selecting ==> s.slots.read.Some? || s.slots.write.Some?
  }

  /** select neither fails nor comes back with nothing ready. */
  predicate SelectDelivers(script: seq<Answer>) {
    forall i :: 0 <= i < |script| ==> script[i].Select? ==> script[i].ret > 0
  }

  /** From s on, these answers lead to success. */
  predicate Succeeds(p: Program, s: State, more: seq<Answer>) {
    SelectDelivers(more) && RunFrom(p, s, more).status == Exited(0)
  }

  /** The consumer of the body has not stopped, and the body fits into memory. */
  predicate WholeBodyFits(p: Program, s: State) {
    p == GetGo ==> !s.download.stopped && |Concat(s.world.peer)| < WORD_SIZE
  }

  ghost predicate AtWork(p: Program, s: State, t: Handle, tag: Tag) {
    InOrder(p, s) && AtStage(p, s, t, tag) && s.status == Polling
  }

  lemma Prepend(p: Program, s: State, a: Answer, more: seq<Answer>)
    requires Allowed(p, s, a)
    ensures RunFrom(p, s, [a] + more) == RunFrom(p, Step(p, s, a), more)
    ensures Succeeds(p, Step(p, s, a), more) && (a.Select? ==> a.ret > 0) ==> Succeeds(p, s, [a] + more)
  {
  }

  // ---------------------------------------------------------------- answers that lead to success

  /** The next chunk: pulled, printed, or gathered as long as it fits. */
  function ChunkAnswer(p: Program, s: State, t: Handle): Answer
    requires s.download.taken < |s.world.peer|
  {
    if p == UploadC then Finished(t, Data, s.executing.next)
    else ChunkCall(p == GetGo ==> FitsMemory(s.out, s.world.peer[s.download.taken]), s.executing.next)
  }

  /** The body task after that chunk. */
  function BodyTask(p: Program, s: State, t: Handle): Handle {
    if p == UploadC then Handle(Task, s.executing.next) else t
  }

  lemma ChunkStep(p: Program, s: State, t: Handle)
    requires AtWork(p, s, t, RespBody) && s.download.taken < |s.world.peer| && !s.download.stopped
    ensures
      var a := ChunkAnswer(p, s, t);
      Allowed(p, s, a) && AtWork(p, Step(p, s, a), BodyTask(p, s, t), RespBody) &&
      Step(p, s, a).world == s.world &&
      (Step(p, s, a).download.taken == s.download.taken + 1 ||
       (Step(p, s, a).download.taken == s.download.taken && Step(p, s, a).download.stopped))
  {
    var a := ChunkAnswer(p, s, t);
    assert s.executing.tasks[t] == RespBody;
    assert Allowed(p, s, a);
    StepInOrder(p, s, a);
    assert Delivered(s, t).executing.tasks == map[];
    if p == UploadC {
      DeliveriesNext(s.download.taken);
    }
  }

  lemma ChunkFits(p: Program, s: State, t: Handle)
    requires AtWork(p, s, t, RespBody) && s.download.taken < |s.world.peer| && !s.download.stopped
    requires WholeBodyFits(p, s) && Allowed(p, s, ChunkAnswer(p, s, t))
    ensures WholeBodyFits(p, Step(p, s, ChunkAnswer(p, s, t)))
  {
    if p == GetGo {
      ConcatTakeNext(s.world.peer, s.download.taken);
      ConcatPrefix(s.world.peer, s.download.taken + 1);
    }
  }

  lemma {:induction false} FinishBody(p: Program, s: State, t: Handle) returns (more: seq<Answer>)
    requires AtWork(p, s, t, RespBody)
    ensures Succeeds(p, s, more)
    ensures WholeBodyFits(p, s) ==> WholeBodyFits(p, RunFrom(p, s, more))
    ensures RunFrom(p, s, more).sending == s.sending
    decreases |s.world.peer| - s.download.taken + if s.download.stopped then 0 else 1
  {
    if s.download.stopped || s.download.taken == |s.world.peer| {
      var end := Finished(t, Empty, s.executing.next);
      OthersSendNothing(p, s, end);
      Prepend(p, s, end, []);
      more := [end] + [];
    } else {
      var a := ChunkAnswer(p, s, t);
      ChunkStep(p, s, t);
      OthersSendNothing(p, s, a);
      if WholeBodyFits(p, s) {
        ChunkFits(p, s, t);
      }
      more := FinishBody(p, Step(p, s, a), BodyTask(p, s, t));
      Prepend(p, s, a, more);
      more := [a] + more;
    }
  }

  lemma ResponseStep(p: Program, s: State, t: Handle)
    requires AtWork(p, s, t, Send)
    ensures
      var a := Finished(t, Responded, s.executing.next);
      Allowed(p, s, a) && AtWork(p, Step(p, s, a), Handle(Task, s.executing.next), RespBody) &&
      Step(p, s, a).world == s.world && Step(p, s, a).download == s.download
  {
    var a := Finished(t, Responded, s.executing.next);
    assert Allowed(p, s, a);
    StepInOrder(p, s, a);
    assert Delivered(s, t).executing.tasks == map[];
  }

  lemma HandshakeStep(p: Program, s: State, t: Handle)
    requires AtWork(p, s, t, Handshake) && RequestGoesOut(p, s.world.config)
    ensures
      var a := Finished(t, Connected, s.executing.next);
      Allowed(p, s, a) && AtWork(p, Step(p, s, a), Handle(Task, s.executing.next), Send) &&
      Step(p, s, a).world == s.world && Step(p, s, a).download == s.download
  {
    var a := Finished(t, Connected, s.executing.next);
    assert Allowed(p, s, a);
    StepInOrder(p, s, a);
    assert Delivered(s, t).executing.tasks == map[];
  }

  lemma {:induction false} FinishTask(p: Program, s: State, t: Handle, tag: Tag) returns (more: seq<Answer>)
    requires AtWork(p, s, t, tag) && RequestGoesOut(p, s.world.config)
    ensures Succeeds(p, s, more)
    ensures WholeBodyFits(p, s) ==> WholeBodyFits(p, RunFrom(p, s, more))
    ensures RunFrom(p, s, more).sending == s.sending
    decreases match tag case Handshake => 2 case Send => 1 case RespBody => 0
  {
    if tag == RespBody {
      more := FinishBody(p, s, t);
    } else {
      var a := Finished(t, if tag == Send then Responded else Connected, s.executing.next);
      if tag == Send {
        ResponseStep(p, s, t);
      } else {
        HandshakeStep(p, s, t);
      }
      OthersSendNothing(p, s, a);
      more := FinishTask(p, Step(p, s, a), Handle(Task, a.id), if tag == Send then RespBody else Send);
      Prepend(p, s, a, more);
      more := [a] + more;
    }
  }

  lemma WakeStep(p: Program, s: State, t: Handle, tag: Tag)
    requires InOrder(p, s) && AtStage(p, s, t, tag) && s.status == Selecting && WaitsForSomething(s)
    ensures
      var a := Select(1, s.slots.read.Some?, s.slots.read.None?);
      Allowed(p, s, a) && AtWork(p, Step(p, s, a), t, tag) &&
      Step(p, s, a).world == s.world && Step(p, s, a).download == s.download
  {
    var a := Select(1, s.slots.read.Some?, s.slots.read.None?);
    SelectKeeps(p, s, a);
    OthersInOrder(p, s, t, tag, Step(p, s, a));
  }

  lemma Finish(p: Program, s: State, t: Handle, tag: Tag) returns (more: seq<Answer>)
    requires InOrder(p, s) && AtStage(p, s, t, tag) && Running(s) && WaitsForSomething(s)
    requires RequestGoesOut(p, s.world.config)
    ensures Succeeds(p, s, more)
    ensures WholeBodyFits(p, s) ==> WholeBodyFits(p, RunFrom(p, s, more))
  {
    if s.status == Polling {
      more := FinishTask(p, s, t, tag);
    } else {
      var a := Select(1, s.slots.read.Some?, s.slots.read.None?);
      WakeStep(p, s, t, tag);
      more := FinishTask(p, Step(p, s, a), t, tag);
      Prepend(p, s, a, more);
      more := [a] + more;
    }
  }

  // ---------------------------------------------------------------- the whole file first

  /** The next read: as much as fits the buffer, and nothing at the end. */
  function FileAnswer(s: State): Answer
    requires s.sending.offset <= |s.world.file|
  {
    var left := |s.world.file| - s.sending.offset;
    FileCall(Bytes(if left < FILE_BUFFER_SIZE then left else FILE_BUFFER_SIZE), s.executing.next)
  }

  lemma FileStep(s: State, t: Handle, tag: Tag)
    requires AtWork(UploadC, s, t, tag) && tag != Handshake && UploadInStep(s)
    ensures
      var a := FileAnswer(s);
      var s' := Step(UploadC, s, a);
      Allowed(UploadC, s, a) && AtWork(UploadC, s', t, tag) && UploadInStep(s') && s'.world == s.world &&
      (if s.sending.offset == |s.world.file| then s'.sending.ended && s'.sending.offset == s.sending.offset
       else s'.sending.ended == s.sending.ended && s'.sending.offset > s.sending.offset)
  {
    var a := FileAnswer(s);
    assert Allowed(UploadC, s, a);
    FileCallKeeps(UploadC, s, a);
    OthersInOrder(UploadC, s, t, tag, Step(UploadC, s, a));
    UploadChunkInStep(s, a.sys, a.id);
  }

  lemma {:induction false} SendFile(s: State, t: Handle, tag: Tag) returns (more: seq<Answer>)
    requires AtWork(UploadC, s, t, tag) && tag != Handshake && UploadInStep(s)
    requires RequestGoesOut(UploadC, s.world.config)
    ensures Succeeds(UploadC, s, more) && RunFrom(UploadC, s, more).sending.ended
    decreases |s.world.file| - s.sending.offset + if s.sending.ended then 0 else 1
  {
    if s.sending.ended {
      more := FinishTask(UploadC, s, t, tag);
    } else {
      var a := FileAnswer(s);
      FileStep(s, t, tag);
      more := SendFile(Step(UploadC, s, a), t, tag);
      Prepend(UploadC, s, a, more);
      more := [a] + more;
    }
  }

  lemma SendAll(s: State, t: Handle, tag: Tag) returns (more: seq<Answer>)
    requires AtWork(UploadC, s, t, tag) && UploadInStep(s) && RequestGoesOut(UploadC, s.world.config)
    ensures Succeeds(UploadC, s, more) && RunFrom(UploadC, s, more).sending.ended
  {
    if tag == Handshake {
      var a := Finished(t, Connected, s.executing.next);
      HandshakeStep(UploadC, s, t);
      OthersSendNothing(UploadC, s, a);
      more := SendFile(Step(UploadC, s, a), Handle(Task, a.id), Send);
      Prepend(UploadC, s, a, more);
      more := [a] + more;
    } else {
      more := SendFile(s, t, tag);
    }
  }

  // ---------------------------------------------------------------- what success takes

  /** A program that sent its request, or succeeded, could send it. */
  ghost predicate Configured(p: Program, s: State) {
    Running(s) || s.status == Exited(0) ==>
      && (p == GetGo ==> s.world.config.methodOk && s.world.config.uriOk && s.world.config.headerOk)
      && (s.log.requests > 0 ==> RequestGoesOut(p, s.world.config))
  }

  lemma StepConfigured(p: Program, s: State, a: Answer)
    requires Configured(p, s) && Allowed(p, s, a)
    ensures Configured(p, Step(p, s, a))
  {
    StepWorld(p, s, a);
    if !a.Finished? && !a.ChunkCall? {
      OthersKeep(p, s, a);
    }
  }

  lemma {:induction false} RunFromConfigured(p: Program, s: State, script: seq<Answer>)
    requires Configured(p, s)
    ensures Configured(p, RunFrom(p, s, script))
    decreases |script|
  {
    if script != [] && Allowed(p, s, script[0]) {
      StepConfigured(p, s, script[0]);
      RunFromConfigured(p, Step(p, s, script[0]), script[1..]);
    }
  }

  lemma SuccessTakes(p: Program, s: State, more: seq<Answer>)
    requires InOrder(p, s) && Configured(p, s) && Running(s) && Succeeds(p, s, more)
    ensures RequestGoesOut(p, s.world.config) && WaitsForSomething(s)
  {
    RunFromInOrder(p, s, more);
    RunFromConfigured(p, s, more);
    WorldFixed(p, s, more);
    assert more != [] && Allowed(p, s, more[0]);
  }

  // ---------------------------------------------------------------- every run

  /** No program gets stuck: from any state of a run in which it is still running, and as long as select comes
      back with something ready, it can still succeed if and only if its request can be sent and it does not wait
      in select for nothing (NoLostWakeup: while a callback is pending it never does). */
  lemma SuccessStaysPossible(p: Program, w: World, script: seq<Answer>)
    requires Running(Run(p, w, script))
    ensures (exists more :: Succeeds(p, Run(p, w, script), more)) <==>
      RequestGoesOut(p, w.config) && WaitsForSomething(Run(p, w, script))
  {
    var s := Run(p, w, script);
    EveryRunIsInOrder(p, w, script);
    RunFromConfigured(p, Start(p, w), script);
    WorldFixed(p, Start(p, w), script);
    if RequestGoesOut(p, w.config) && WaitsForSomething(s) {
      var t, tag :| AtStage(p, s, t, tag);
      var more := Finish(p, s, t, tag);
    }
    if more :| Succeeds(p, s, more) {
      SuccessTakes(p, s, more);
    }
  }

  /** And then with the whole body, unless Get has already refused a chunk or the body does not fit into its
      address space. */
  lemma WholeBodyStaysPossible(p: Program, w: World, script: seq<Answer>) returns (more: seq<Answer>)
    requires Running(Run(p, w, script)) && WaitsForSomething(Run(p, w, script))
    requires RequestGoesOut(p, w.config) && WholeBodyFits(p, Run(p, w, script))
    ensures Succeeds(p, Run(p, w, script), more)
    ensures RunFrom(p, Run(p, w, script), more).out == Concat(w.peer)
  {
    var s := Run(p, w, script);
    EveryRunIsInOrder(p, w, script);
    WorldFixed(p, Start(p, w), script);
    var t, tag :| AtStage(p, s, t, tag);
    more := Finish(p, s, t, tag);
    RunFromInOrder(p, s, more);
    WorldFixed(p, s, more);
    assert w.peer[..|w.peer|] == w.peer;
  }

  /** And upload.c can still hand over its whole file, and be told of its end, on the way. */
  lemma WholeFileStaysPossible(w: World, script: seq<Answer>) returns (more: seq<Answer>)
    requires Running(Run(UploadC, w, script)) && WaitsForSomething(Run(UploadC, w, script))
    requires RequestGoesOut(UploadC, w.config)
    ensures Succeeds(UploadC, Run(UploadC, w, script), more)
    ensures
      var end := RunFrom(UploadC, Run(UploadC, w, script), more);
      end.sending.ended && Concat(end.sending.chunks) == w.file && end.out == Concat(w.peer)
  {
    var s := Run(UploadC, w, script);
    EveryRunIsInOrder(UploadC, w, script);
    WorldFixed(UploadC, Start(UploadC, w), script);
    RunFromUploads(UploadC, Start(UploadC, w), script);
    var t, tag :| AtStage(UploadC, s, t, tag);
    if s.status == Polling {
      more := SendAll(s, t, tag);
    } else {
      var a := Select(1, s.slots.read.Some?, s.slots.read.None?);
      WakeStep(UploadC, s, t, tag);
      OthersSendNothing(UploadC, s, a);
      more := SendAll(Step(UploadC, s, a), t, tag);
      Prepend(UploadC, s, a, more);
      more := [a] + more;
    }
    UploadDone(w, s, more);
  }

  lemma UploadDone(w: World, s: State, more: seq<Answer>)
    requires InOrder(UploadC, s) && UploadInStep(s) && s.world == w
    requires Succeeds(UploadC, s, more) && RunFrom(UploadC, s, more).sending.ended
    ensures Concat(RunFrom(UploadC, s, more).sending.chunks) == w.file
    ensures RunFrom(UploadC, s, more).out == Concat(w.peer)
  {
    RunFromInOrder(UploadC, s, more);
    RunFromUploads(UploadC, s, more);
    WorldFixed(UploadC, s, more);
    assert w.file[..|w.file|] == w.file && w.peer[..|w.peer|] == w.peer;
  }

  lemma Unused(p: Program, s: State, script: seq<Answer>, more: seq<Answer>)
    requires script == [] || !Allowed(p, s, script[0])
    ensures RunFrom(p, s, script) == s && Used(p, s, script) + more == more
  {
  }

  lemma OneMore(p: Program, s: State, a: Answer, later: seq<Answer>, more: seq<Answer>, s': State, end: State)
    requires Allowed(p, s, a) && s' == Step(p, s, a) && RunFrom(p, s', later + more) == end
    ensures RunFrom(p, s, [a] + later + more) == end
  {
    var all := [a] + later + more;
    assert all[0] == a && all[1..] == later + more;
    FirstAnswer(p, s, all);
  }

  lemma {:induction false} ContinuedTo(p: Program, s: State, script: seq<Answer>, mid: State, more: seq<Answer>,
                                      end: State)
    requires RunFrom(p, s, script) == mid && RunFrom(p, mid, more) == end
    ensures RunFrom(p, s, Used(p, s, script) + more) == end
    decreases |script|
  {
    if script == [] || !Allowed(p, s, script[0]) {
      Unused(p, s, script, more);
    } else {
      var s', rest := Step(p, s, script[0]), script[1..];
      ContinuedTo(p, s', rest, mid, more, end);
      UsedFirst(p, s, script, rest);
      OneMore(p, s, script[0], Used(p, s', rest), more, s', end);
    }
  }

  /** Such a continuation is part of a run: the answers used so far, and then these. */
  lemma ContinuedRun(p: Program, s: State, script: seq<Answer>, more: seq<Answer>)
    ensures RunFrom(p, s, Used(p, s, script) + more) == RunFrom(p, RunFrom(p, s, script), more)
  {
    ContinuedTo(p, s, script, RunFrom(p, s, script), more, RunFrom(p, RunFrom(p, s, script), more));
  }
}
