/** Every successful run of the Go program is a run of the C program. */
module LoopSimulation {
  import opened PollLoop
  import opened LoopOwnership
  import opened LoopProgress

  /** Is this a chunk that Get had no memory for? */
  predicate Refused(a: Answer) {
    a.ChunkCall? && !a.memory
  }

  /** The answers for the C client: the same, without the chunks that Get had no memory for. */
  function ClientScript(g: State, script: seq<Answer>): seq<Answer>
    decreases |script|
  {
    if script == [] || !Allowed(GetGo, g, script[0]) then []
    else
      var rest := ClientScript(Step(GetGo, g, script[0]), script[1..]);
      if Refused(script[0]) then rest else [script[0]] + rest
  }

  /** Get in state g and the client in state c have seen and done the same; the client's peer sends the first
      `accepted` chunks of Get's. */
  ghost predicate Simulates(g: State, c: State, accepted: nat) {
    && g.status == c.status
    && g.slots == c.slots
    && g.log == c.log
    && g.out == c.out
    && g.executing.tasks == c.executing.tasks && c.executing.next <= g.executing.next
    && g.download.taken == c.download.taken && !c.download.stopped
    && accepted <= |g.world.peer| && c.world.peer == g.world.peer[..accepted]
    && c.world.config.methodOk && c.world.config.uriOk
  }

  lemma ChunkSimulated(g: State, c: State, accepted: nat, a: Answer)
    requires Simulates(g, c, accepted) && Running(g) && Allowed(GetGo, g, a) && a.ChunkCall?
    requires Step(GetGo, g, a).download.taken <= accepted
    ensures a.memory ==> Allowed(ClientC, c, a) && Simulates(Step(GetGo, g, a), Step(ClientC, c, a), accepted)
    ensures !a.memory ==> Simulates(Step(GetGo, g, a), c, accepted)
  {
  }

  lemma FinishedSimulated(g: State, c: State, accepted: nat, a: Answer)
    requires Simulates(g, c, accepted) && Running(g) && Allowed(GetGo, g, a) && a.Finished?
    requires Running(Step(GetGo, g, a)) || Step(GetGo, g, a).status == Exited(0)
    requires Step(GetGo, g, a).status == Exited(0) ==> g.download.taken == accepted
    ensures Allowed(ClientC, c, a) && Simulates(Step(GetGo, g, a), Step(ClientC, c, a), accepted)
  {
  }

  lemma OthersSimulated(g: State, c: State, accepted: nat, a: Answer)
    requires Simulates(g, c, accepted) && Running(g) && Allowed(GetGo, g, a) && !a.Finished? && !a.ChunkCall?
    requires Running(Step(GetGo, g, a))
    ensures Allowed(ClientC, c, a) && Simulates(Step(GetGo, g, a), Step(ClientC, c, a), accepted)
  {
  }

  lemma {:induction false} TakenGrows(p: Program, s: State, script: seq<Answer>)
    ensures s.download.taken <= RunFrom(p, s, script).download.taken
    decreases |script|
  {
    if script != [] && Allowed(p, s, script[0]) {
      assert s.download.taken <= Step(p, s, script[0]).download.taken;
      TakenGrows(p, Step(p, s, script[0]), script[1..]);
    }
  }

  lemma StepSimulated(g: State, c: State, accepted: nat, a: Answer)
    requires Simulates(g, c, accepted) && Running(g) && Allowed(GetGo, g, a)
    requires Step(GetGo, g, a).download.taken <= accepted
    requires Running(Step(GetGo, g, a)) || Step(GetGo, g, a).status == Exited(0)
    requires Step(GetGo, g, a).status == Exited(0) ==> g.download.taken == accepted
    ensures Refused(a) ==> Simulates(Step(GetGo, g, a), c, accepted)
    ensures !Refused(a) ==> Allowed(ClientC, c, a) && Simulates(Step(GetGo, g, a), Step(ClientC, c, a), accepted)
  {
    if a.ChunkCall? {
      ChunkSimulated(g, c, accepted, a);
    } else if a.Finished? {
      FinishedSimulated(g, c, accepted, a);
    } else {
      OthersSimulated(g, c, accepted, a);
    }
  }

  /** On the way to success: still running or there, and no further than the end. */
  lemma OnTheWay(g: State, a: Answer, rest: seq<Answer>, end: State)
    requires Allowed(GetGo, g, a) && end == RunFrom(GetGo, Step(GetGo, g, a), rest) && end.status == Exited(0)
    ensures Running(g) && Step(GetGo, g, a).download.taken <= end.download.taken
    ensures Running(Step(GetGo, g, a)) || Step(GetGo, g, a).status == Exited(0)
    ensures Step(GetGo, g, a).status == Exited(0) ==> g.download.taken == end.download.taken
  {
    TakenGrows(GetGo, Step(GetGo, g, a), rest);
    if !Running(Step(GetGo, g, a)) {
      StoppedRun(GetGo, Step(GetGo, g, a), rest);
    }
  }

  lemma StoppedRun(p: Program, s: State, script: seq<Answer>)
    requires !Running(s)
    ensures RunFrom(p, s, script) == s
  {
  }

  lemma SameAnswerNext(g: State, c: State, a: Answer, rest: seq<Answer>)
    requires Allowed(GetGo, g, a) && !Refused(a) && Allowed(ClientC, c, a)
    ensures RunFrom(ClientC, c, ClientScript(g, [a] + rest)) ==
      RunFrom(ClientC, Step(ClientC, c, a), ClientScript(Step(GetGo, g, a), rest))
  {
    assert ClientScript(g, [a] + rest)[1..] == ClientScript(Step(GetGo, g, a), rest);
  }

  lemma {:induction false} RunSimulated(g: State, c: State, script: seq<Answer>, end: State)
    requires end == RunFrom(GetGo, g, script) && end.status == Exited(0)
    requires Simulates(g, c, end.download.taken)
    ensures Simulates(end, RunFrom(ClientC, c, ClientScript(g, script)), end.download.taken)
    decreases |script|
  {
    if script != [] && Allowed(GetGo, g, script[0]) {
      var a, rest := script[0], script[1..];
      OnTheWay(g, a, rest, end);
      StepSimulated(g, c, end.download.taken, a);
      if Refused(a) {
        RunSimulated(Step(GetGo, g, a), c, rest, end);
      } else {
        RunSimulated(Step(GetGo, g, a), Step(ClientC, c, a), rest, end);
        assert script == [a] + rest;
        SameAnswerNext(g, c, a, rest);
      }
    }
  }

  /** When Get returns a response, the C client with the same answers, less the chunk Get may have had no memory
      for, exits with 0 against the peer whose body is the accepted chunks: same callbacks, wakers and wakeups in
      the same order, same deliveries, same bytes.  Without an allocation failure it is the same peer. */
  lemma GetIsSimulatedByClient(w: World, script: seq<Answer>)
    requires Run(GetGo, w, script).status == Exited(0)
    ensures
      var g := Run(GetGo, w, script);
      g.download.taken <= |w.peer| &&
      var w' := w.(peer := w.peer[..g.download.taken]);
      var c := Run(ClientC, w', ClientScript(Start(GetGo, w), script));
      && c.status == Exited(0) && c.log == g.log && c.out == g.out && c.download.taken == g.download.taken
      && (!g.download.stopped ==> w' == w)
  {
    var g := Run(GetGo, w, script);
    EveryRunIsInOrder(GetGo, w, script);
    WorldFixed(GetGo, Start(GetGo, w), script);
    var w' := w.(peer := w.peer[..g.download.taken]);
    assert Running(Start(GetGo, w));
    RunSimulated(Start(GetGo, w), Start(ClientC, w'), script, g);
    assert w.peer[..|w.peer|] == w.peer;
  }
}
