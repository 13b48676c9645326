/** What the three programs deliver, in which order and how often: protocol order, output, counts. */
module LoopProgress {
  import opened Basics
  import opened Ownership
  import opened PollLoop
  import opened LoopOwnership

  // ---------------------------------------------------------------- order and output

  /** The tags of an exchange: Handshake, Send, and k times RespBody. */
  function Deliveries(k: nat): seq<Tag> {
    [Tag.Handshake, Tag.Send] + seq(k, _ => RespBody)
  }

  /** Body tasks delivered while chunks keep coming: only upload.c has one for each chunk. */
  function Pulls(p: Program, taken: nat): nat {
    if p == UploadC then taken else 0
  }

  /** The deliveries behind a state whose pending task carries this tag. */
  function Before(p: Program, tag: Tag, taken: nat): seq<Tag> {
    match tag
    case Handshake => []
    case Send => [Tag.Handshake]
    case RespBody => Deliveries(Pulls(p, taken))
  }

  /** Deliveries so far and the pending task fit together. */
  ghost predicate AtStage(p: Program, s: State, t: Handle, tag: Tag) {
    && s.executing.tasks == map[t := tag]
    && s.log.requests == (if tag == Handshake then 0 else 1)
    && s.log.delivered == Before(p, tag, s.download.taken)
    && (tag != RespBody ==> s.download == Download(0, false))
    && (p == UploadC && tag == RespBody ==> s.locals.respBody.Some?)
  }

  /** The output is exactly the chunks taken so far; deliveries come in order; success needs them all. */
  ghost predicate InOrder(p: Program, s: State) {
    && s.download.taken <= |s.world.peer|
    && s.out == Concat(s.world.peer[..s.download.taken])
    && (s.download.stopped ==> p == GetGo)
    && s.log.delivered <= Deliveries(Pulls(p, s.download.taken) + 1)
    && s.log.requests <= 1
    && (Running(s) ==> exists t, tag :: AtStage(p, s, t, tag))
    && (s.status == Exited(0) ==>
         && s.log.delivered == Deliveries(Pulls(p, s.download.taken) + 1)
         && s.log.requests == 1
         && (s.download.taken == |s.world.peer| || s.download.stopped))
  }

  lemma DeliveriesNext(k: nat)
    ensures Deliveries(k + 1) == Deliveries(k) + [RespBody]
    ensures [] <= [Tag.Handshake] <= Deliveries(0) <= Deliveries(k) <= Deliveries(k + 1)
  {
  }

  lemma HandshakeInOrder(p: Program, s: State, t: Handle, result: TaskResult, id: nat)
    requires InOrder(p, s) && AtStage(p, s, t, Handshake) && s.status == Polling && WellTyped(p, Handshake, result)
    ensures InOrder(p, Renewed(OnHandshake(p, Delivered(s, t), t, result, id), id))
  {
    var s' := Renewed(OnHandshake(p, Delivered(s, t), t, result, id), id);
    DeliveriesNext(Pulls(p, 0));
    assert Delivered(s, t).executing.tasks == map[];
    assert s'.status == Polling ==> AtStage(p, s', Handle(Task, id), Send);
  }

  lemma ResponseInOrder(p: Program, s: State, t: Handle, result: TaskResult, id: nat)
    requires InOrder(p, s) && AtStage(p, s, t, Send) && s.status == Polling && WellTyped(p, Send, result)
    ensures InOrder(p, Renewed(OnResponse(p, Delivered(s, t), t, result, id), id))
  {
    var s' := Renewed(OnResponse(p, Delivered(s, t), t, result, id), id);
    DeliveriesNext(Pulls(p, 0));
    assert Delivered(s, t).executing.tasks == map[];
    assert s'.status == Polling ==> AtStage(p, s', Handle(Task, id), RespBody);
  }

  lemma BodyInOrder(p: Program, s: State, t: Handle, result: TaskResult, id: nat)
    requires InOrder(p, s) && AtStage(p, s, t, RespBody) && s.status == Polling && WellTyped(p, RespBody, result)
    requires BodyAllowed(s, result)
    ensures InOrder(p, Renewed(OnBody(p, Delivered(s, t), t, result, id), id))
  {
    var s' := Renewed(OnBody(p, Delivered(s, t), t, result, id), id);
    DeliveriesNext(Pulls(p, s.download.taken));
    assert Delivered(s, t).executing.tasks == map[];
    if result == Data {
      ConcatTakeNext(s.world.peer, s.download.taken);
      DeliveriesNext(Pulls(p, s.download.taken + 1));
      assert AtStage(p, s', Handle(Task, id), RespBody);
    }
  }

  lemma ChunkInOrder(p: Program, s: State, memory: bool, id: nat)
    requires InOrder(p, s) && Allowed(p, s, ChunkCall(memory, id))
    ensures InOrder(p, Step(p, s, ChunkCall(memory, id)))
  {
    var t, tag :| AtStage(p, s, t, tag);
    assert tag == RespBody;
    ConcatTakeNext(s.world.peer, s.download.taken);
    assert AtStage(p, Step(p, s, ChunkCall(memory, id)), t, tag);
  }

  /** Nothing that deliveries and output depend on has changed, and the program has not come to its end. */
  ghost predicate SameProgress(s: State, s': State) {
    && s'.executing.tasks == s.executing.tasks
    && s'.download == s.download && s'.out == s.out && s'.world == s.world
    && s'.log.delivered == s.log.delivered && s'.log.requests == s.log.requests
    && s'.locals == s.locals
    && s'.status != Exited(0)
  }

  lemma CallbackKeeps(p: Program, s: State, a: Answer)
    requires Allowed(p, s, a) && (a.ReadCall? || a.WriteCall?)
    ensures SameProgress(s, Step(p, s, a))
  {
  }

  lemma FileCallKeeps(p: Program, s: State, a: Answer)
    requires Allowed(p, s, a) && a.FileCall?
    ensures SameProgress(s, Step(p, s, a))
  {
  }

  lemma PollKeeps(p: Program, s: State, a: Answer)
    requires Allowed(p, s, a) && (a.Background? || a.NoTask?)
    ensures SameProgress(s, Step(p, s, a))
  {
  }

  lemma SelectKeeps(p: Program, s: State, a: Answer)
    requires Allowed(p, s, a) && a.Select?
    ensures SameProgress(s, Step(p, s, a))
  {
  }

  lemma OthersKeep(p: Program, s: State, a: Answer)
    requires Allowed(p, s, a) && !a.Finished? && !a.ChunkCall?
    ensures SameProgress(s, Step(p, s, a))
  {
    match a
    case ReadCall(_, _, _) => CallbackKeeps(p, s, a);
    case WriteCall(_, _, _) => CallbackKeeps(p, s, a);
    case FileCall(_, _) => FileCallKeeps(p, s, a);
    case Background(_) => PollKeeps(p, s, a);
    case NoTask => PollKeeps(p, s, a);
    case Select(_, _, _) => SelectKeeps(p, s, a);
  }

  lemma OthersInOrder(p: Program, s: State, t: Handle, tag: Tag, s': State)
    requires InOrder(p, s) && AtStage(p, s, t, tag) && SameProgress(s, s')
    ensures AtStage(p, s', t, tag) && InOrder(p, s')
  {
    assert AtStage(p, s', t, tag);
  }

  lemma StepInOrder(p: Program, s: State, a: Answer)
    requires InOrder(p, s) && Allowed(p, s, a)
    ensures InOrder(p, Step(p, s, a))
  {
    if a.Finished? {
      var t, tag :| AtStage(p, s, t, tag);
      assert a.task == t && s.executing.tasks[t] == tag;
      match tag
      case Handshake => HandshakeInOrder(p, s, t, a.result, a.id);
      case Send => ResponseInOrder(p, s, t, a.result, a.id);
      case RespBody => BodyInOrder(p, s, t, a.result, a.id);
    } else if a.ChunkCall? {
      ChunkInOrder(p, s, a.memory, a.id);
    } else {
      var t, tag :| AtStage(p, s, t, tag);
      OthersKeep(p, s, a);
      OthersInOrder(p, s, t, tag, Step(p, s, a));
    }
  }

  lemma {:induction false} RunFromInOrder(p: Program, s: State, script: seq<Answer>)
    requires InOrder(p, s)
    ensures InOrder(p, RunFrom(p, s, script))
    decreases |script|
  {
    if script != [] && Allowed(p, s, script[0]) {
      StepInOrder(p, s, script[0]);
      RunFromInOrder(p, Step(p, s, script[0]), script[1..]);
    }
  }

  /** Every run delivers in order and has written exactly the chunks it took. */
  lemma EveryRunIsInOrder(p: Program, w: World, script: seq<Answer>)
    ensures InOrder(p, Run(p, w, script))
  {
    DeliveriesNext(Pulls(p, 0));
    assert AtStage(p, Start(p, w), Handle(Task, 0), Handshake) || !Running(Start(p, w));
    RunFromInOrder(p, Start(p, w), script);
  }

  /** The answer is the body task, finished with nothing more to give. */
  predicate BodyEnds(s: State, a: Answer) {
    a.Finished? && a.task in s.executing.tasks && s.executing.tasks[a.task] == RespBody && a.result.Empty?
  }

  predicate ReachesBodyEnd(p: Program, s: State, script: seq<Answer>)
    decreases |script|
  {
    script != [] && Allowed(p, s, script[0]) &&
    (BodyEnds(s, script[0]) || ReachesBodyEnd(p, Step(p, s, script[0]), script[1..]))
  }

  lemma SuccessStep(p: Program, s: State, a: Answer)
    requires Allowed(p, s, a)
    ensures Step(p, s, a).status == Exited(0) <==> BodyEnds(s, a)
  {
  }

  /** Only that answer leads to success: a program succeeds exactly in the runs that are handed the end of the
      response body. */
  lemma {:induction false} SuccessExactly(p: Program, s: State, script: seq<Answer>)
    requires Running(s)
    ensures RunFrom(p, s, script).status == Exited(0) <==> ReachesBodyEnd(p, s, script)
    decreases |script|
  {
    if script != [] && Allowed(p, s, script[0]) {
      var s' := Step(p, s, script[0]);
      SuccessStep(p, s, script[0]);
      if Running(s') {
        SuccessExactly(p, s', script[1..]);
      } else {
        assert RunFrom(p, s', script[1..]) == s' && !ReachesBodyEnd(p, s', script[1..]);
      }
    }
  }

  // ---------------------------------------------------------------- the three programs agree

  /** Three successful exchanges with the same peer produce the same bytes, whatever the order of callbacks,
      background tasks and short reads in each, as long as Get never ran out of memory. */
  lemma PullAndPushAgree(w: World, config: Config, file: seq<byte>,
                         client: seq<Answer>, upload: seq<Answer>, get: seq<Answer>)
    requires Run(ClientC, w, client).status == Exited(0)
    requires Run(UploadC, w.(config := config, file := file), upload).status == Exited(0)
    requires Run(GetGo, w, get).status == Exited(0) && !Run(GetGo, w, get).download.stopped
    ensures Run(ClientC, w, client).out == Run(UploadC, w.(config := config, file := file), upload).out
    ensures Run(ClientC, w, client).out == Run(GetGo, w, get).out == Concat(w.peer)
  {
    EveryRunIsInOrder(ClientC, w, client);
    EveryRunIsInOrder(UploadC, w.(config := config, file := file), upload);
    EveryRunIsInOrder(GetGo, w, get);
    WorldFixed(ClientC, Start(ClientC, w), client);
    WorldFixed(UploadC, Start(UploadC, w.(config := config, file := file)), upload);
    WorldFixed(GetGo, Start(GetGo, w), get);
    assert w.peer[..|w.peer|] == w.peer;
  }

  lemma StepWorld(p: Program, s: State, a: Answer)
    requires Possible(p, s, a)
    ensures Step(p, s, a).world == s.world
  {
  }

  lemma {:induction false} WorldFixed(p: Program, s: State, script: seq<Answer>)
    ensures RunFrom(p, s, script).world == s.world
    decreases |script|
  {
    if script != [] && Allowed(p, s, script[0]) {
      StepWorld(p, s, script[0]);
      WorldFixed(p, Step(p, s, script[0]), script[1..]);
    }
  }

  // ---------------------------------------------------------------- how many deliveries

  /** The answers a run uses before it stops. */
  function Used(p: Program, s: State, script: seq<Answer>): seq<Answer>
    decreases |script|
  {
    if script == [] || !Allowed(p, s, script[0]) then []
    else [script[0]] + Used(p, Step(p, s, script[0]), script[1..])
  }

  lemma UsedFirst(p: Program, s: State, script: seq<Answer>, rest: seq<Answer>)
    requires script != [] && Allowed(p, s, script[0]) && rest == script[1..]
    ensures Used(p, s, script) == [script[0]] + Used(p, Step(p, s, script[0]), rest)
    ensures RunFrom(p, s, script) == RunFrom(p, Step(p, s, script[0]), rest)
  {
  }

  /** They are the answers up to the first one that is not allowed, and the run takes one step for each. */
  lemma {:induction false} UsedIsAPrefix(p: Program, s: State, script: seq<Answer>)
    ensures Used(p, s, script) <= script
    ensures
      var n := |Used(p, s, script)|;
      n < |script| ==> !Allowed(p, RunFrom(p, s, script), script[n])
    decreases |script|
  {
    if script != [] && Allowed(p, s, script[0]) {
      var s', rest := Step(p, s, script[0]), script[1..];
      UsedIsAPrefix(p, s', rest);
      assert Used(p, s, script) == [script[0]] + Used(p, s', rest);
    }
  }

  lemma {:induction false} OneStepEach(p: Program, s: State, script: seq<Answer>, k: nat)
    requires k < |Used(p, s, script)|
    ensures k < |script| && Used(p, s, script)[k] == script[k]
    ensures Allowed(p, RunFrom(p, s, script[..k]), script[k])
    ensures RunFrom(p, s, script[..k + 1]) == Step(p, RunFrom(p, s, script[..k]), script[k])
    decreases k
  {
    UsedIsAPrefix(p, s, script);
    var a, s', rest := script[0], Step(p, s, script[0]), script[1..];
    FirstAnswer(p, s, script[..k + 1]);
    if k == 0 {
      assert script[..1][1..] == [];
    } else {
      OneStepEach(p, s', rest, k - 1);
      FirstAnswer(p, s, script[..k]);
      assert script[..k][1..] == rest[..k - 1] && script[..k + 1][1..] == rest[..k];
    }
  }

  lemma FirstAnswer(p: Program, s: State, script: seq<Answer>)
    requires script != [] && Allowed(p, s, script[0])
    ensures RunFrom(p, s, script) == RunFrom(p, Step(p, s, script[0]), script[1..])
  {
  }

  function CountFinished(script: seq<Answer>): nat {
    if script == [] then 0 else (if script[0].Finished? then 1 else 0) + CountFinished(script[1..])
  }

  function CountBackground(script: seq<Answer>): nat {
    if script == [] then 0 else (if script[0].Background? then 1 else 0) + CountBackground(script[1..])
  }

  lemma StepCounts(p: Program, s: State, a: Answer)
    requires Allowed(p, s, a)
    ensures |Step(p, s, a).log.delivered| == |s.log.delivered| + if a.Finished? then 1 else 0
    ensures Step(p, s, a).log.background == s.log.background + if a.Background? then 1 else 0
  {
  }

  lemma {:induction false} RunCounts(p: Program, s: State, script: seq<Answer>)
    ensures |RunFrom(p, s, script).log.delivered| == |s.log.delivered| + CountFinished(Used(p, s, script))
    ensures RunFrom(p, s, script).log.background == s.log.background + CountBackground(Used(p, s, script))
    decreases |script|
  {
    if script != [] && Allowed(p, s, script[0]) {
      var s' := Step(p, s, script[0]);
      StepCounts(p, s, script[0]);
      RunCounts(p, s', script[1..]);
      assert Used(p, s, script)[1..] == Used(p, s', script[1..]);
    }
  }

  /** No run handles more than three tasks of its own and one for each chunk pulled, however long it is; a
      successful one handles exactly three (and one for each chunk in upload.c), besides the background tasks. */
  lemma DeliveriesBounded(p: Program, w: World, script: seq<Answer>)
    ensures
      var used := Used(p, Start(p, w), script);
      var s := Run(p, w, script);
      && CountFinished(used) <= 3 + Pulls(p, |w.peer|)
      && s.log.background == CountBackground(used)
      && (s.status == Exited(0) ==> CountFinished(used) == 3 + Pulls(p, |w.peer|))
  {
    EveryRunIsInOrder(p, w, script);
    WorldFixed(p, Start(p, w), script);
    RunCounts(p, Start(p, w), script);
  }

  // ---------------------------------------------------------------- the uploaded file

  /** What upload.c has handed over is a prefix of the file in chunks that fit its buffer, and all of it once
      the end was reported. */
  ghost predicate UploadInStep(s: State) {
    && s.sending.offset <= |s.world.file|
    && Concat(s.sending.chunks) == s.world.file[..s.sending.offset]
    && (forall i :: 0 <= i < |s.sending.chunks| ==> 1 <= |s.sending.chunks[i]| <= FILE_BUFFER_SIZE)
    && (s.sending.ended ==> s.sending.offset == |s.world.file|)
  }

  lemma UploadChunkInStep(s: State, sys: SysResult, id: nat)
    requires UploadInStep(s) && FileAllowed(s, sys)
    ensures UploadInStep(UploadChunk(s, sys, id))
  {
    if sys.Bytes? && sys.n > 0 {
      var from, to := s.sending.offset, s.sending.offset + sys.n;
      ConcatSnoc(s.sending.chunks, s.world.file[from..to]);
      assert s.world.file[..from] + s.world.file[from..to] == s.world.file[..to];
    }
  }

  lemma OthersSendNothing(p: Program, s: State, a: Answer)
    requires Allowed(p, s, a) && !a.FileCall?
    ensures Step(p, s, a).sending == s.sending
  {
  }

  lemma StepUploads(p: Program, s: State, a: Answer)
    requires UploadInStep(s) && Allowed(p, s, a)
    ensures UploadInStep(Step(p, s, a))
  {
    if a.FileCall? {
      UploadChunkInStep(s, a.sys, a.id);
    } else {
      OthersSendNothing(p, s, a);
      StepWorld(p, s, a);
    }
  }

  lemma {:induction false} RunFromUploads(p: Program, s: State, script: seq<Answer>)
    requires UploadInStep(s)
    ensures UploadInStep(RunFrom(p, s, script))
    decreases |script|
  {
    if script != [] && Allowed(p, s, script[0]) {
      StepUploads(p, s, script[0]);
      RunFromUploads(p, Step(p, s, script[0]), script[1..]);
    }
  }

  /** How many bytes each file read gave, the empty one at the end apart. */
  function ReadSizes(answers: seq<Answer>): seq<nat> {
    if answers == [] then []
    else
      var a := answers[0];
      (if a.FileCall? && a.sys.Bytes? && a.sys.n > 0 then [a.sys.n] else []) + ReadSizes(answers[1..])
  }

  function Sum(sizes: seq<nat>): nat {
    if sizes == [] then 0 else sizes[0] + Sum(sizes[1..])
  }

  lemma {:induction false} SumConcat(a: seq<nat>, b: seq<nat>)
    ensures Sum(a + b) == Sum(a) + Sum(b)
    decreases |a|
  {
    if a == [] {
      assert a + b == b;
    } else {
      SumConcat(a[1..], b);
      assert (a + b)[1..] == a[1..] + b;
    }
  }

  /** The answer reports the end of the file. */
  predicate EndsFile(a: Answer) {
    a.FileCall? && a.sys == Bytes(0)
  }

  /** From s to s' these sizes were read, and the end was reported or not. */
  ghost predicate ReadsAdded(s: State, s': State, sizes: seq<nat>, ended: bool) {
    && s'.sending.offset == s.sending.offset + Sum(sizes)
    && |s'.sending.chunks| == |s.sending.chunks| + |sizes|
    && s'.sending.chunks[..|s.sending.chunks|] == s.sending.chunks
    && (forall i :: 0 <= i < |sizes| ==> |s'.sending.chunks[|s.sending.chunks| + i]| == sizes[i])
    && s'.sending.ended == (s.sending.ended || ended)
  }

  lemma ReadsStep(p: Program, s: State, a: Answer)
    requires Allowed(p, s, a)
    ensures ReadsAdded(s, Step(p, s, a), ReadSizes([a]), EndsFile(a))
  {
    assert [a][1..] == [] && ReadSizes([]) == [];
    if !a.FileCall? {
      OthersSendNothing(p, s, a);
    } else if a.sys.Bytes? && a.sys.n > 0 {
      assert ReadSizes([a]) == [a.sys.n] && Sum([a.sys.n]) == a.sys.n + Sum([]);
    }
  }

  lemma ReadsChain(s: State, m: State, e: State, a: seq<nat>, b: seq<nat>, endA: bool, endB: bool)
    requires ReadsAdded(s, m, a, endA) && ReadsAdded(m, e, b, endB)
    ensures ReadsAdded(s, e, a + b, endA || endB)
  {
    SumConcat(a, b);
    var n := |s.sending.chunks|;
    assert e.sending.chunks[..n] == m.sending.chunks[..n];
    forall i | 0 <= i < |a + b|
      ensures |e.sending.chunks[n + i]| == (a + b)[i]
    {
      if i < |a| {
        assert e.sending.chunks[n + i] == e.sending.chunks[..|m.sending.chunks|][n + i];
      } else {
        assert e.sending.chunks[n + i] == e.sending.chunks[|m.sending.chunks| + (i - |a|)];
      }
    }
  }

  /** What was handed over is what was read, read by read, and the end was reported if and only if a read gave
      nothing. */
  lemma {:induction false} ReadsFollowAnswers(p: Program, s: State, script: seq<Answer>)
    ensures ReadsAdded(s, RunFrom(p, s, script), ReadSizes(Used(p, s, script)),
                       exists i :: 0 <= i < |Used(p, s, script)| && EndsFile(Used(p, s, script)[i]))
    decreases |script|
  {
    if script != [] && Allowed(p, s, script[0]) {
      var a, s', rest := script[0], Step(p, s, script[0]), script[1..];
      var used, later := Used(p, s, script), Used(p, s', rest);
      ReadsStep(p, s, a);
      ReadsFollowAnswers(p, s', rest);
      UsedFirst(p, s, script, rest);
      FirstReadSize(a, later);
      var endLater := exists i :: 0 <= i < |later| && EndsFile(later[i]);
      EndSplits(a, later);
      ReadsChain(s, s', RunFrom(p, s, script), ReadSizes([a]), ReadSizes(later), EndsFile(a), endLater);
    }
  }

  lemma FirstReadSize(a: Answer, later: seq<Answer>)
    ensures ReadSizes([a] + later) == ReadSizes([a]) + ReadSizes(later)
  {
    assert ([a] + later)[1..] == later;
    assert [a][1..] == [] && ReadSizes([]) == [];
  }

  lemma EndSplits(a: Answer, later: seq<Answer>)
    ensures (exists i :: 0 <= i < |[a] + later| && EndsFile(([a] + later)[i])) <==>
      EndsFile(a) || exists i :: 0 <= i < |later| && EndsFile(later[i])
  {
    var all := [a] + later;
    assert all[0] == a;
    if i :| 0 <= i < |later| && EndsFile(later[i]) {
      assert EndsFile(all[i + 1]);
    }
    if i :| 0 <= i < |all| && EndsFile(all[i]) {
      assert i == 0 || EndsFile(later[i - 1]);
    }
  }

  lemma {:induction false} ChunkCount(chunks: seq<seq<byte>>, limit: nat)
    requires forall i :: 0 <= i < |chunks| ==> 1 <= |chunks[i]| <= limit
    ensures |chunks| <= |Concat(chunks)| <= limit * |chunks|
    decreases |chunks|
  {
    if chunks != [] {
      ChunkCount(chunks[..|chunks| - 1], limit);
    }
  }

  /** Under any short reads, what was handed over is a prefix of the file, one chunk for each read with as many
      bytes as it gave.  The end is reported exactly when a read gave nothing; then it is the whole file, in at
      least one chunk for every 8192 bytes and at most one for every byte. */
  lemma UploadIsTheFile(w: World, script: seq<Answer>)
    ensures
      var s := Run(UploadC, w, script);
      var used := Used(UploadC, Start(UploadC, w), script);
      && s.sending.offset == Sum(ReadSizes(used)) == |Concat(s.sending.chunks)|
      && |s.sending.chunks| == |ReadSizes(used)|
      && (forall i :: 0 <= i < |ReadSizes(used)| ==> |s.sending.chunks[i]| == ReadSizes(used)[i])
      && (s.sending.ended <==> exists i :: 0 <= i < |used| && EndsFile(used[i]))
    ensures
      var s := Run(UploadC, w, script);
      var n := |s.sending.chunks|;
      && Concat(s.sending.chunks) <= w.file
      && (forall i :: 0 <= i < n ==> 1 <= |s.sending.chunks[i]| <= FILE_BUFFER_SIZE)
      && (s.sending.ended ==>
           Concat(s.sending.chunks) == w.file && n <= |w.file| <= FILE_BUFFER_SIZE * n)
  {
    RunFromUploads(UploadC, Start(UploadC, w), script);
    WorldFixed(UploadC, Start(UploadC, w), script);
    ReadsFollowAnswers(UploadC, Start(UploadC, w), script);
    ChunkCount(Run(UploadC, w, script).sending.chunks, FILE_BUFFER_SIZE);
    assert w.file[..|w.file|] == w.file;
  }

  // ---------------------------------------------------------------- unexpected task types

  /** A run in which tasks may come with any type, as the programs' own checks provide for. */
  function RunUntyped(p: Program, s: State, script: seq<Answer>): State
    decreases |script|
  {
    if script == [] || !Possible(p, s, script[0]) then s
    else RunUntyped(p, Step(p, s, script[0]), script[1..])
  }

  /** The answer is a task of a type its call cannot produce, or an error without a value; the C programs just
      report the latter. */
  predicate WrongType(p: Program, s: State, a: Answer)
    requires Possible(p, s, a)
  {
    !TypesHold(p, s, a) && (p == GetGo || a.result != Failed(true))
  }

  /** A run that is handed such a task. */
  predicate MeetsWrongType(p: Program, s: State, script: seq<Answer>)
    decreases |script|
  {
    script != [] && Possible(p, s, script[0]) &&
    (WrongType(p, s, script[0]) || MeetsWrongType(p, Step(p, s, script[0]), script[1..]))
  }

  /** Where a program ends that was handed a task of a wrong type. */
  function Misled(p: Program): Status {
    if p == GetGo then FellThrough else AssertFailed
  }

  lemma WrongTypeStep(p: Program, s: State, a: Answer)
    requires Possible(p, s, a)
    ensures Step(p, s, a).status == Misled(p) <==> WrongType(p, s, a)
  {
  }

  lemma StoppedStays(p: Program, s: State, script: seq<Answer>)
    requires !Running(s)
    ensures RunUntyped(p, s, script) == s && !MeetsWrongType(p, s, script)
  {
  }

  /** Get goes on after fail(nil), with a value of another type, exactly in the runs that are handed a task of a
      wrong type or an error without a value; in exactly the runs of the first kind the C programs stop at an
      assertion.  Under the stated types neither happens. */
  lemma {:induction false} MisledExactly(p: Program, s: State, script: seq<Answer>)
    requires Running(s)
    ensures RunUntyped(p, s, script).status == Misled(p) <==> MeetsWrongType(p, s, script)
    decreases |script|
  {
    if script != [] && Possible(p, s, script[0]) {
      var s' := Step(p, s, script[0]);
      WrongTypeStep(p, s, script[0]);
      if Running(s') {
        MisledExactly(p, s', script[1..]);
      } else {
        StoppedStays(p, s', script[1..]);
      }
    }
  }

  // ---------------------------------------------------------------- the response of Get

  /** Whatever allocations fail, the response Get has gathered is a prefix of the body, made of whole
      chunks, and its buffer is the only response buffer alive. */
  lemma ResponseIsPrefix(w: World, script: seq<Answer>)
    ensures
      var s := Run(GetGo, w, script);
      && s.download.taken <= |w.peer| && s.out == Concat(w.peer[..s.download.taken]) <= Concat(w.peer)
      && (s.status == Exited(0) && s.out != Concat(w.peer) ==> s.download.stopped)
    ensures forall h: Handle :: h.kind == ResponseBuffer && Running(Run(GetGo, w, script)) ==>
      (Replay(Run(GetGo, w, script).calls).Live(h) <==> Run(GetGo, w, script).locals.response == Some(h))
  {
    var s := Run(GetGo, w, script);
    EveryRunIsInOrder(GetGo, w, script);
    WorldFixed(GetGo, Start(GetGo, w), script);
    ConcatPrefix(w.peer, s.download.taken);
    assert w.peer[..|w.peer|] == w.peer;
    OneResponseBuffer(w, script);
  }

  lemma OneResponseBuffer(w: World, script: seq<Answer>)
    ensures
      var s := Run(GetGo, w, script);
      Running(s) ==> forall h: Handle :: h.kind == ResponseBuffer ==>
        (Replay(s.calls).Live(h) <==> s.locals.response == Some(h))
  {
    EveryRunIsSafe(GetGo, w, script);
    var s := Run(GetGo, w, script);
    if Running(s) {
      var t, tag :| Sound(GetGo, s, t, tag);
      HoldingOneBuffer(Replay(s.calls), s.executing.next, s.slots, s.locals, tag != Handshake, t);
    }
  }

  lemma HoldingOneBuffer(l: Ledger, next: nat, slots: Slots, v: Locals, sent: bool, t: Handle)
    requires Holding(l, next, slots, v, Rest(GetGo, v, sent), sent, t)
    ensures forall h: Handle :: h.kind == ResponseBuffer ==> (l.Live(h) <==> v.response == Some(h))
  {
  }

  lemma RefusalKept(p: Program, s: State, a: Answer)
    requires s.download.stopped && p != UploadC && Allowed(p, s, a)
    ensures Step(p, s, a).download == s.download && Step(p, s, a).out == s.out
  {
    if !a.Finished? {
      OthersKeep(p, s, a);
    }
  }

  /** A chunk that was refused ends the download: no later one is taken. */
  lemma {:induction false} NothingAfterRefusal(p: Program, s: State, script: seq<Answer>)
    requires s.download.stopped && p != UploadC
    ensures RunFrom(p, s, script).download == s.download && RunFrom(p, s, script).out == s.out
    decreases |script|
  {
    if script != [] && Allowed(p, s, script[0]) {
      RefusalKept(p, s, script[0]);
      NothingAfterRefusal(p, Step(p, s, script[0]), script[1..]);
    }
  }
}
