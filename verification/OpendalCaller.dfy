/** A program that uses the opendal binding: its calls in any order, on variables, buffers, options and handles that
    it changes and frees in between.  The objects behave as plain values would. */
module OpendalCaller {
  import opened Basics
  import opened OpendalHeap
  import opened OpendalApi

  datatype Step =
    | Fill(x: nat, bytes: seq<byte>)          // variable x becomes a buffer of the caller's own
    | Overwrite(x: nat, at: nat, b: byte)     // one byte behind variable x changes
    | Write(path: string, x: nat, refused: Option<seq<byte>>)
    | Read(path: string, x: nat, refused: Option<seq<byte>>, missing: seq<byte>)
    | FreeBytes(x: nat)
    | SetOption(key: string, value: string)
    | FreeOptions
    | List(entries: seq<string>, refused: Option<seq<byte>>)
    | Next(refused: Option<seq<byte>>)
    | FreeLister

  /** What a call came back with. */
  datatype Reply =
    | Written
    | Got(data: seq<byte>)
    | Listing
    | Listed(name: string)
    | NoMore
    | Refused(message: seq<byte>)

  /** What a handle that is still held belongs to. */
  datatype Name = TheOperator | TheOptions | TheLister | Var(x: nat)

  // ---------------------------------------------------------------- the same program on values

  datatype Values = Values(
    files: map<string, seq<byte>>,   // what the service holds
    vars: map<nat, seq<byte>>,       // what is behind each variable
    options: Option<Options>,        // the caller's options
    config: Options,                 // the operator's
    lister: Option<seq<string>>,
    held: set<Name>,
    replies: seq<Reply>)

  /** Variables, options, listers and their handles are used only while they are there, and made only while they
      are not. */
  predicate Enabled(w: Values, s: Step) {
    match s
    case Fill(x, _) => x !in w.vars
    case Overwrite(x, at, _) => x in w.vars && at < |w.vars[x]|
    case Write(_, x, _) => x in w.vars
    case Read(_, x, _, _) => x !in w.vars && Var(x) !in w.held
    case FreeBytes(x) => x in w.vars && Var(x) in w.held
    case SetOption(_, _) => w.options.Some?
    case FreeOptions => w.options.Some? && TheOptions in w.held
    case List(_, _) => w.lister.None? && TheLister !in w.held
    case Next(_) => w.lister.Some?
    case FreeLister => w.lister.Some? && TheLister in w.held
  }

  function Changed(bytes: seq<byte>, at: nat, b: byte): seq<byte>
    requires at < |bytes|
  {
    bytes[at := b]
  }

  /** What a call came back with: its error, or this. */
  function Answer(refused: Option<seq<byte>>, r: Reply): Reply {
    if refused.Some? then Refused(refused.value) else r
  }

  function Effect(w: Values, s: Step): Values
    requires Enabled(w, s)
  {
    match s
    case Fill(x, bytes) => w.(vars := w.vars[x := bytes])
    case Overwrite(x, at, b) => w.(vars := w.vars[x := Changed(w.vars[x], at, b)])
    case Write(path, x, refused) =>
      w.(files := if refused.Some? then w.files else w.files[path := w.vars[x]],
         replies := w.replies + [Answer(refused, Written)])
    case Read(path, x, refused, missing) =>
      if refused.Some? || path !in w.files then w.(replies := w.replies + [Answer(refused, Refused(missing))])
      else
        w.(vars := w.vars[x := w.files[path]], held := w.held + {Var(x)}, replies := w.replies + [Got(w.files[path])])
    case FreeBytes(x) => w.(vars := w.vars - {x}, held := w.held - {Var(x)})
    case SetOption(k, v) => w.(options := Some(w.options.value[k := v]))
    case FreeOptions => w.(options := None, held := w.held - {TheOptions})
    case List(entries, refused) =>
      if refused.Some? then w.(replies := w.replies + [Refused(refused.value)])
      else w.(lister := Some(entries), held := w.held + {TheLister}, replies := w.replies + [Listing])
    case Next(refused) =>
      if w.lister.value == [] then w.(replies := w.replies + [NoMore])
      else
        w.(lister := Some(w.lister.value[1..]),
           replies := w.replies + [Answer(refused, Listed(w.lister.value[0]))])
    case FreeLister => w.(lister := None, held := w.held - {TheLister})
  }

  /** A program that has its operator and possibly the options it was made with. */
  function Beginning(options: Option<Options>, config: Options): Values {
    Values(map[], map[], options, config, None, {TheOperator} + if options.None? then {} else {TheOptions}, [])
  }

  /** A run goes on as long as its steps are enabled. */
  function RunSteps(w: Values, steps: seq<Step>): Values
    decreases |steps|
  {
    if steps == [] || !Enabled(w, steps[0]) then w else RunSteps(Effect(w, steps[0]), steps[1..])
  }

  /** The states of a run, one after each step taken. */
  ghost predicate IsTrace(trace: seq<Values>, steps: seq<Step>) {
    && 0 < |trace| <= |steps| + 1
    && forall k :: 0 <= k < |trace| - 1 ==> Enabled(trace[k], steps[k]) && trace[k + 1] == Effect(trace[k], steps[k])
  }

  lemma TraceNext(trace: seq<Values>, steps: seq<Step>, w: Values)
    requires IsTrace(trace, steps) && |trace| <= |steps|
    requires Enabled(trace[|trace| - 1], steps[|trace| - 1])
    requires w == Effect(trace[|trace| - 1], steps[|trace| - 1])
    ensures IsTrace(trace + [w], steps)
  {
  }

  lemma {:induction false} TraceIsRun(trace: seq<Values>, steps: seq<Step>)
    requires IsTrace(trace, steps)
    requires |trace| <= |steps| ==> !Enabled(trace[|trace| - 1], steps[|trace| - 1])
    ensures RunSteps(trace[0], steps) == trace[|trace| - 1]
    decreases |trace|
  {
    if |trace| > 1 {
      assert Enabled(trace[0], steps[0]);
      TraceIsRun(trace[1..], steps[1..]);
    }
  }

  // ---------------------------------------------------------------- what each step means

  /** Steps on the caller's own memory. */
  lemma MemoryStep(w: Values, s: Step)
    requires Enabled(w, s)
    ensures s.Fill? ==> Effect(w, s) == w.(vars := w.vars[s.x := s.bytes])
    ensures s.FreeBytes? ==> Effect(w, s) == w.(vars := w.vars - {s.x}, held := w.held - {Var(s.x)})
    ensures s.Overwrite? ==>
      && Effect(w, s).vars.Keys == w.vars.Keys
      && (forall y :: y in w.vars && y != s.x ==> Effect(w, s).vars[y] == w.vars[y])
      && Effect(w, s).vars[s.x] == w.vars[s.x][..s.at] + [s.b] + w.vars[s.x][s.at + 1..]
      && Effect(w, s) == w.(vars := Effect(w, s).vars)
  {
  }

  /** Reading and writing: an error is reported with its message and changes nothing else. */
  lemma ServiceStep(w: Values, s: Step)
    requires Enabled(w, s) && (s.Write? || s.Read?)
    ensures s.refused.Some? ==> Effect(w, s) == w.(replies := w.replies + [Refused(s.refused.value)])
    ensures s.Write? && s.refused.None? ==>
      Effect(w, s) == w.(files := w.files[s.path := w.vars[s.x]], replies := w.replies + [Written])
    ensures s.Read? && s.refused.None? && s.path !in w.files ==>
      Effect(w, s) == w.(replies := w.replies + [Refused(s.missing)])
    ensures s.Read? && s.refused.None? && s.path in w.files ==>
      Effect(w, s) == w.(vars := w.vars[s.x := w.files[s.path]], held := w.held + {Var(s.x)},
                         replies := w.replies + [Got(w.files[s.path])])
  {
  }

  lemma OptionStep(w: Values, s: Step)
    requires Enabled(w, s)
    ensures s.SetOption? ==>
      w.options.Some? && Effect(w, s) == w.(options := Some(w.options.value[s.key := s.value]))
    ensures s.FreeOptions? ==> Effect(w, s) == w.(options := None, held := w.held - {TheOptions})
  {
  }

  /** Listing: the entries come one by one, an error takes the place of its entry. */
  lemma ListingStep(w: Values, s: Step)
    requires Enabled(w, s)
    ensures s.List? && s.refused.Some? ==> Effect(w, s) == w.(replies := w.replies + [Refused(s.refused.value)])
    ensures s.List? && s.refused.None? ==>
      Effect(w, s) == w.(lister := Some(s.entries), held := w.held + {TheLister}, replies := w.replies + [Listing])
    ensures s.Next? ==> w.lister.Some?
    ensures s.Next? && w.lister == Some([]) ==> Effect(w, s) == w.(replies := w.replies + [NoMore])
    ensures s.Next? && w.lister != Some([]) ==>
      Effect(w, s) == w.(
        lister := Some(w.lister.value[1..]),
        replies := w.replies + [
          if s.refused.Some? then Refused(s.refused.value) else Listed(w.lister.value[0])])
    ensures s.FreeLister? ==> Effect(w, s) == w.(lister := None, held := w.held - {TheLister})
  {
  }

  /** A step can be taken exactly if what it uses is there and what it makes is not. */
  lemma EnabledExactly(w: Values, s: Step)
    requires Named(w)
    ensures Enabled(w, s) <==>
      match s
      case Fill(x, _) => x !in w.vars
      case Overwrite(x, at, _) => x in w.vars && at < |w.vars[x]|
      case Write(_, x, _) => x in w.vars
      case Read(_, x, _, _) => x !in w.vars
      case FreeBytes(x) => Var(x) in w.held
      case SetOption(_, _) => w.options.Some?
      case FreeOptions => w.options.Some?
      case List(_, _) => w.lister.None?
      case Next(_) => w.lister.Some?
      case FreeLister => w.lister.Some?
  {
  }

  // ---------------------------------------------------------------- what holds of every run

  /** The operator keeps the options it was made with. */
  lemma {:induction false} ConfigStays(w: Values, steps: seq<Step>)
    ensures RunSteps(w, steps).config == w.config
    decreases |steps|
  {
    if steps != [] && Enabled(w, steps[0]) {
      ConfigStays(Effect(w, steps[0]), steps[1..]);
    }
  }

  /** What is there has its handle, and handles to bytes are those of variables. */
  ghost predicate Named(w: Values) {
    && (TheOptions in w.held <==> w.options.Some?)
    && (TheLister in w.held <==> w.lister.Some?)
    && (forall x :: Var(x) in w.held ==> x in w.vars)
  }

  /** So what is there can be used and freed, and what is not can be made. */
  lemma {:induction false} NamedStays(w: Values, steps: seq<Step>)
    requires Named(w)
    ensures Named(RunSteps(w, steps))
    decreases |steps|
  {
    if steps != [] && Enabled(w, steps[0]) {
      NamedStep(w, steps[0]);
      NamedStays(Effect(w, steps[0]), steps[1..]);
    }
  }

  lemma NamedStep(w: Values, s: Step)
    requires Named(w) && Enabled(w, s)
    ensures Named(Effect(w, s))
  {
  }

  predicate Stores(s: Step, path: string) {
    s.Write? && s.path == path && s.refused.None?
  }

  /** Without a successful write to the path, nothing changes under it. */
  lemma {:induction false} FileStays(w: Values, steps: seq<Step>, path: string)
    requires forall i :: 0 <= i < |steps| ==> !Stores(steps[i], path)
    ensures path in RunSteps(w, steps).files <==> path in w.files
    ensures path in w.files ==> RunSteps(w, steps).files[path] == w.files[path]
    decreases |steps|
  {
    if steps != [] && Enabled(w, steps[0]) {
      FileStays(Effect(w, steps[0]), steps[1..], path);
    }
  }

  /** Every step is enabled when its turn comes. */
  predicate Completes(w: Values, steps: seq<Step>)
    decreases |steps|
  {
    steps == [] || (Enabled(w, steps[0]) && Completes(Effect(w, steps[0]), steps[1..]))
  }

  lemma FirstStep(w: Values, s: Step, rest: seq<Step>)
    requires Enabled(w, s)
    ensures RunSteps(w, [s] + rest) == RunSteps(Effect(w, s), rest)
  {
    assert ([s] + rest)[1..] == rest;
  }

  lemma {:induction false} RunSplits(w: Values, steps: seq<Step>, k: nat)
    requires Completes(w, steps) && k <= |steps|
    ensures Completes(RunSteps(w, steps[..k]), steps[k..])
    ensures RunSteps(w, steps) == RunSteps(RunSteps(w, steps[..k]), steps[k..])
    decreases k
  {
    if k == 0 {
      assert steps[0..] == steps;
    } else {
      RunSplits(Effect(w, steps[0]), steps[1..], k - 1);
      FirstStep(w, steps[0], steps[1..]);
      FirstStep(w, steps[0], steps[1..k]);
      assert steps == [steps[0]] + steps[1..] && steps[..k] == [steps[0]] + steps[1..k];
      assert steps[1..k] == steps[1..][..k - 1] && steps[k..] == steps[1..][k - 1..];
    }
  }

  lemma {:induction false} CompletesUpTo(w: Values, steps: seq<Step>, k: nat)
    requires Completes(w, steps) && k <= |steps|
    ensures Completes(w, steps[..k])
    decreases k
  {
    if k > 0 {
      CompletesUpTo(Effect(w, steps[0]), steps[1..], k - 1);
      assert steps[..k][1..] == steps[1..][..k - 1];
    }
  }

  lemma OneStepRun(w: Values, s: Step)
    requires Completes(w, [s])
    ensures Enabled(w, s) && RunSteps(w, [s]) == Effect(w, s)
  {
  }

  /** The state after step number k is what that step makes of the state before it. */
  lemma StepAt(w: Values, steps: seq<Step>, k: nat)
    requires Completes(w, steps) && k < |steps|
    ensures Enabled(RunSteps(w, steps[..k]), steps[k])
    ensures RunSteps(w, steps[..k + 1]) == Effect(RunSteps(w, steps[..k]), steps[k])
  {
    CompletesUpTo(w, steps, k + 1);
    RunSplits(w, steps[..k + 1], k);
    assert steps[..k + 1][..k] == steps[..k] && steps[..k + 1][k..] == [steps[k]];
    OneStepRun(RunSteps(w, steps[..k]), steps[k]);
  }

  /** In any run, a read that is not refused gives the bytes that were behind the caller's variable at the last
      successful write to the same path, whatever was done since to that variable, to the options, to what was
      read before, or to anything else. */
  lemma ReadsLastWrite(w: Values, steps: seq<Step>, i: nat, j: nat)
    requires Completes(w, steps) && i < j < |steps|
    requires steps[i].Write? && steps[i].refused.None?
    requires steps[j].Read? && steps[j].refused.None? && steps[j].path == steps[i].path
    requires forall k :: i < k < j ==> !Stores(steps[k], steps[i].path)
    ensures steps[i].x in RunSteps(w, steps[..i]).vars
    ensures RunSteps(w, steps[..j + 1]).replies ==
      RunSteps(w, steps[..j]).replies + [Got(RunSteps(w, steps[..i]).vars[steps[i].x])]
  {
    StepAt(w, steps, i);
    StepAt(w, steps, j);
    CompletesUpTo(w, steps, j);
    RunSplits(w, steps[..j], i + 1);
    assert steps[..j][..i + 1] == steps[..i + 1];
    FileStays(RunSteps(w, steps[..i + 1]), steps[..j][i + 1..], steps[i].path);
  }

  /** What was read stays what it was until the caller itself changes or frees it, whatever is written later. */
  lemma {:induction false} BytesStay(w: Values, steps: seq<Step>, x: nat)
    requires x in w.vars
    requires forall i :: 0 <= i < |steps| ==> !(steps[i].Overwrite? && steps[i].x == x) && steps[i] != FreeBytes(x)
    ensures x in RunSteps(w, steps).vars && RunSteps(w, steps).vars[x] == w.vars[x]
    decreases |steps|
  {
    if steps != [] && Enabled(w, steps[0]) {
      BytesStay(Effect(w, steps[0]), steps[1..], x);
    }
  }

  /** A program can always fill a buffer, write it and read it back, to and from any path. */
  lemma WriteAndReadBack(options: Option<Options>, config: Options, path: string, x: nat, y: nat, bytes: seq<byte>,
                         missing: seq<byte>)
    requires x != y
    ensures
      var steps := [Fill(x, bytes), Write(path, x, None), Read(path, y, None, missing)];
      Completes(Beginning(options, config), steps) &&
      RunSteps(Beginning(options, config), steps).replies == [Written, Got(bytes)]
  {
    var w0 := Beginning(options, config);
    var a, b, c := Fill(x, bytes), Write(path, x, None), Read(path, y, None, missing);
    var w1 := Effect(w0, a);
    var w2 := Effect(w1, b);
    assert Completes(w2, [c]) && RunSteps(w2, [c]) == Effect(w2, c) by {
      assert [c][1..] == [];
    }
    assert [b, c][1..] == [c] && [a, b, c][1..] == [b, c];
    assert Completes(w1, [b, c]) && RunSteps(w1, [b, c]) == Effect(w2, c);
  }

  predicate SetsKey(s: Step, key: string) {
    s.SetOption? && s.key == key
  }

  ghost predicate LastSet(steps: seq<Step>, i: int, key: string) {
    0 <= i < |steps| && SetsKey(steps[i], key) && forall j :: i < j < |steps| ==> !SetsKey(steps[j], key)
  }

  lemma OptionAfterStep(w: Values, s: Step, key: string)
    requires Enabled(w, s) && w.options.Some? && !s.FreeOptions?
    ensures Effect(w, s).options.Some?
    ensures SetsKey(s, key) ==>
      key in Effect(w, s).options.value && Effect(w, s).options.value[key] == s.value
    ensures !SetsKey(s, key) ==> (key in Effect(w, s).options.value <==> key in w.options.value)
    ensures !SetsKey(s, key) && key in w.options.value ==>
      Effect(w, s).options.value[key] == w.options.value[key]
  {
  }

  /** The caller's own options: each key has the value it was last set to, or the one it had. */
  lemma {:induction false} OptionIsLastSet(w: Values, steps: seq<Step>, key: string)
    requires Completes(w, steps) && w.options.Some?
    requires forall i :: 0 <= i < |steps| ==> !steps[i].FreeOptions?
    ensures RunSteps(w, steps).options.Some?
    ensures key in RunSteps(w, steps).options.value <==>
      key in w.options.value || exists i :: 0 <= i < |steps| && SetsKey(steps[i], key)
    ensures forall i :: LastSet(steps, i, key) ==> RunSteps(w, steps).options.value[key] == steps[i].value
    ensures key in w.options.value && (forall i :: 0 <= i < |steps| ==> !SetsKey(steps[i], key)) ==>
      RunSteps(w, steps).options.value[key] == w.options.value[key]
    decreases |steps|
  {
    if steps != [] {
      var s, rest := steps[0], steps[1..];
      OptionAfterStep(w, s, key);
      assert forall i :: 0 <= i < |rest| ==> rest[i] == steps[i + 1];
      assert forall i :: 0 < i < |steps| ==> steps[i] == rest[i - 1];
      OptionIsLastSet(Effect(w, s), rest, key);
      assert forall i :: LastSet(steps, i, key) && i > 0 ==> LastSet(rest, i - 1, key);
    }
  }

  predicate Writes(s: Step, x: nat, k: nat) {
    s.Overwrite? && s.x == x && s.at == k
  }

  ghost predicate LastWrite(steps: seq<Step>, i: int, x: nat, k: nat) {
    0 <= i < |steps| && Writes(steps[i], x, k) && forall j :: i < j < |steps| ==> !Writes(steps[j], x, k)
  }

  lemma ByteAfterStep(w: Values, s: Step, x: nat, k: nat)
    requires Enabled(w, s) && x in w.vars && k < |w.vars[x]| && s != FreeBytes(x)
    ensures x in Effect(w, s).vars && |Effect(w, s).vars[x]| == |w.vars[x]|
    ensures Effect(w, s).vars[x][k] == if Writes(s, x, k) then s.b else w.vars[x][k]
  {
  }

  /** A buffer that is not freed keeps its length, and each byte is the one last written there, or the first one. */
  lemma {:induction false} ByteIsLastWritten(w: Values, steps: seq<Step>, x: nat, k: nat)
    requires Completes(w, steps) && x in w.vars && k < |w.vars[x]|
    requires forall i :: 0 <= i < |steps| ==> steps[i] != FreeBytes(x)
    ensures x in RunSteps(w, steps).vars && |RunSteps(w, steps).vars[x]| == |w.vars[x]|
    ensures forall i :: LastWrite(steps, i, x, k) ==> RunSteps(w, steps).vars[x][k] == steps[i].b
    ensures (forall i :: 0 <= i < |steps| ==> !Writes(steps[i], x, k)) ==>
      RunSteps(w, steps).vars[x][k] == w.vars[x][k]
    decreases |steps|
  {
    if steps != [] {
      var s, rest := steps[0], steps[1..];
      ByteAfterStep(w, s, x, k);
      assert forall i :: 0 <= i < |rest| ==> rest[i] == steps[i + 1];
      assert forall i :: 0 < i < |steps| ==> steps[i] == rest[i - 1];
      ByteIsLastWritten(Effect(w, s), rest, x, k);
      assert forall i :: LastWrite(steps, i, x, k) && i > 0 ==> LastWrite(rest, i - 1, x, k);
    }
  }

  // ---------------------------------------------------------------- handles

  predicate Injective(handles: map<Name, Ptr>) {
    forall a, b :: a in handles && b in handles && a != b ==> handles[a] != handles[b]
  }

  lemma HandleAdded(handles: map<Name, Ptr>, n: Name, p: Ptr)
    requires Injective(handles) && n !in handles && p !in handles.Values
    ensures Injective(handles[n := p]) && handles[n := p].Values == handles.Values + {p}
  {
    forall q | q in handles.Values
      ensures q in handles[n := p].Values
    {
      var m :| m in handles && handles[m] == q;
      assert handles[n := p][m] == q;
    }
    assert handles[n := p][n] == p;
  }

  lemma HandleDropped(handles: map<Name, Ptr>, n: Name)
    requires Injective(handles) && n in handles
    ensures Injective(handles - {n}) && (handles - {n}).Values == handles.Values - {handles[n]}
  {
    forall q | q in handles.Values && q != handles[n]
      ensures q in (handles - {n}).Values
    {
      var m :| m in handles && handles[m] == q;
      assert (handles - {n})[m] == q;
    }
  }

  /** The handles a program holds, by name, and its side of each call: a new handle is kept under a name, an error
      is read and freed at once, and what came back is noted. */
  class Wallet {
    const binding: Binding
    var handles: map<Name, Ptr>
    var replies: seq<Reply>

    /** Exactly the handles in the wallet are held. */
    ghost predicate Valid()
      reads this, binding
    {
      binding.Valid() && binding.session.held == handles.Values && Injective(handles)
    }

    constructor ()
      ensures Valid() && handles == map[] && replies == [] && fresh(binding)
    {
      binding := new Binding();
      handles, replies := map[], [];
    }

    /** A handle that came back goes under a name. */
    method Keep(n: Name, p: Ptr)
      requires binding.Valid() && Injective(handles) && n !in handles
      requires p !in handles.Values && binding.session.held == handles.Values + {p}
      modifies this`handles
      ensures Valid() && handles.Keys == old(handles).Keys + {n}
    {
      HandleAdded(handles, n, p);
      handles := handles[n := p];
    }

    /** The handle of this name is freed. */
    method Free(n: Name)
      requires Valid() && n in handles
      modifies this`handles, binding
      ensures Valid() && handles == old(handles) - {n}
    {
      HandleDropped(handles, n);
      binding.Release(handles[n]);
      handles := handles - {n};
    }

    /** Everything still held is freed, and nothing is left on the heap. */
    method FreeAll()
      requires Valid()
      modifies this`handles, binding
      ensures Valid() && handles == map[]
      ensures binding.session.heap.blocks == map[] && binding.session.heap.ok
    {
      while handles != map[]
        invariant Valid()
        decreases |handles|
      {
        assert handles.Keys != {};
        var n :| n in handles;
        assert (handles - {n}).Keys == handles.Keys - {n};
        Free(n);
      }
      NothingLeft(binding.session);
    }

    /** An error is read and freed. */
    method TakeError(error: Ptr)
      requires binding.Valid() && Injective(handles)
      requires error !in handles.Values && binding.session.held == handles.Values + {error}
      modifies this`replies, binding
      ensures Valid() && replies == old(replies) + [Refused(old(Contents(binding.session.heap, error)))]
    {
      replies := replies + [Refused(Contents(binding.session.heap, error))];
      binding.Release(error);
    }

    method NewOptions() returns (options: OperatorOptions)
      requires Valid() && TheOptions !in handles
      modifies this`handles, binding
      ensures Valid() && handles.Keys == old(handles).Keys + {TheOptions}
      ensures fresh(options) && fresh(options.inner) && options.inner.entries == map[]
    {
      options := binding.OptionsNew();
      Keep(TheOptions, options.handle);
    }

    method NewOperator(options: OperatorOptions?) returns (op: Operator)
      requires Valid() && TheOperator !in handles
      modifies this`handles, binding
      ensures Valid() && handles.Keys == old(handles).Keys + {TheOperator}
      ensures fresh(op) && fresh(op.config) && op.Valid() && op.stored == map[]
      ensures op.config.entries == if options == null then map[] else options.inner.entries
    {
      var made, error := binding.OperatorNew(options, None);
      op := made;
      Keep(TheOperator, op.handle);
    }

    method Write(op: Operator, path: string, bytes: array<byte>, refused: Option<seq<byte>>)
      requires Valid() && op.Valid()
      modifies this`replies, binding, op
      ensures Valid() && op.Valid()
      ensures op.stored == if refused.Some? then old(op.stored) else old(op.stored)[path := bytes[..]]
      ensures replies == old(replies) + [Answer(refused, Written)]
      ensures forall p :: p in op.files ==>
        fresh(op.files[p]) || (p in old(op.files) && op.files[p] == old(op.files)[p])
    {
      var error := binding.Write(op, path, bytes, refused);
      if error == NULL {
        replies := replies + [Written];
      } else {
        TakeError(error);
      }
    }

    method Read(op: Operator, path: string, n: Name, refused: Option<seq<byte>>, missing: seq<byte>)
        returns (data: array?<byte>)
      requires Valid() && op.Valid() && n !in handles
      modifies this, binding
      ensures Valid() && handles.Keys == old(handles).Keys + if data == null then {} else {n}
      ensures data != null <==> refused.None? && path in op.stored
      ensures data != null ==> fresh(data) && data[..] == op.stored[path] && replies == old(replies) + [Got(data[..])]
      ensures data == null ==> replies == old(replies) + [Answer(refused, Refused(missing))]
    {
      var handle, error;
      data, handle, error := binding.Read(op, path, refused, missing);
      if data == null {
        TakeError(error);
      } else {
        Keep(n, handle);
        replies := replies + [Got(data[..])];
      }
    }

    method List(op: Operator, entries: seq<string>, refused: Option<seq<byte>>) returns (lister: Lister?)
      requires Valid() && TheLister !in handles
      modifies this, binding
      ensures Valid() && handles.Keys == old(handles).Keys + if lister == null then {} else {TheLister}
      ensures lister != null <==> refused.None?
      ensures lister != null ==> fresh(lister) && lister.entries == entries
      ensures replies == old(replies) + [Answer(refused, Listing)]
    {
      var error;
      lister, error := binding.List(op, entries, refused);
      if lister == null {
        TakeError(error);
      } else {
        Keep(TheLister, lister.handle);
        replies := replies + [Listing];
      }
    }

    method Next(lister: Lister, refused: Option<seq<byte>>)
      requires Valid()
      modifies this`replies, binding, lister
      ensures Valid()
      ensures old(lister.entries) == [] ==> lister.entries == [] && replies == old(replies) + [NoMore]
      ensures old(lister.entries) != [] ==>
        lister.entries == old(lister.entries)[1..] &&
        replies == old(replies) + [Answer(refused, Listed(old(lister.entries)[0]))]
    {
      var entry, name, error := binding.Next(lister, refused);
      if entry != NULL {
        binding.Release(entry);
        replies := replies + [Listed(name)];
      } else if error != NULL {
        TakeError(error);
      } else {
        replies := replies + [NoMore];
      }
    }
  }

  // ---------------------------------------------------------------- the program on objects

  /** The variables of a program and the buffers behind them, each with one of its own. */
  class Variables {
    var arrays: map<nat, array<byte>>
    ghost var bytes: map<nat, seq<byte>>

    ghost predicate Valid()
      reads this, arrays.Values
    {
      && arrays.Keys == bytes.Keys
      && (forall x :: x in arrays ==> arrays[x][..] == bytes[x])
      && (forall x, y :: x in arrays && y in arrays && x != y ==> arrays[x] != arrays[y])
    }

    constructor ()
      ensures Valid() && arrays == map[] && bytes == map[]
    {
      arrays, bytes := map[], map[];
    }

    method Bind(x: nat, buffer: array<byte>)
      requires Valid() && x !in arrays && forall y :: y in arrays ==> arrays[y] != buffer
      modifies this
      ensures Valid() && bytes == old(bytes)[x := buffer[..]]
      ensures arrays == old(arrays)[x := buffer]
    {
      arrays, bytes := arrays[x := buffer], bytes[x := buffer[..]];
    }

    method Overwrite(x: nat, at: nat, b: byte)
      requires Valid() && x in bytes && at < |bytes[x]|
      modifies this`bytes, arrays[x]
      ensures Valid() && bytes == old(bytes)[x := Changed(old(bytes)[x], at, b)]
    {
      arrays[x][at] := b;
      bytes := bytes[x := Changed(bytes[x], at, b)];
    }

    method Drop(x: nat)
      requires Valid()
      modifies this
      ensures Valid() && bytes == old(bytes) - {x} && arrays == old(arrays) - {x}
    {
      arrays, bytes := arrays - {x}, bytes - {x};
    }
  }

  /** A program with one operator, and what it does with its own objects. */
  class Caller {
    const wallet: Wallet
    const op: Operator
    const vars: Variables
    var options: OperatorOptions?
    var lister: Lister?
    ghost var Repr: set<object>

    /** What a run may change in place.  The operator's options and the buffers of the
        service are not among it. */
    ghost predicate Within()
      reads this, vars
    {
      && {this, wallet, wallet.binding, op, vars} <= Repr
      && (options != null ==> options.inner in Repr)
      && (lister != null ==> lister in Repr)
      && forall x :: x in vars.arrays ==> vars.arrays[x] in Repr
    }

    /** No buffer of the caller is one of the service's, and the operator's options are not the caller's. */
    ghost predicate Apart()
      reads this, vars, op
    {
      && (forall path, x :: path in op.files && x in vars.arrays ==> op.files[path] != vars.arrays[x])
      && (options != null ==> options.inner != op.config)
    }

    ghost predicate Valid()
      reads this, wallet, wallet.binding, op, op.files.Values, op.config, vars, vars.arrays.Values, lister
      reads if options == null then {} else {options.inner}
    {
      wallet.Valid() && op.Valid() && vars.Valid() && Apart() && Within()
    }

    /** The state as values. */
    ghost function Now(): Values
      reads this, wallet, op, op.config, vars, lister, if options == null then {} else {options.inner}
    {
      Values(op.stored, vars.bytes, if options == null then None else Some(options.inner.entries), op.config.entries,
             if lister == null then None else Some(lister.entries), wallet.handles.Keys, wallet.replies)
    }

    constructor (wallet: Wallet, op: Operator, options: OperatorOptions?)
      requires wallet.Valid() && wallet.replies == []
      requires wallet.handles.Keys == {TheOperator} + if options == null then {} else {TheOptions}
      requires op.Valid() && op.stored == map[] && (options != null ==> options.inner != op.config)
      ensures Valid() && this.wallet == wallet && this.op == op && this.options == options
      ensures Repr == {this, wallet, wallet.binding, op, vars} + if options == null then {} else {options.inner}
      ensures fresh(vars)
      ensures Now() == Beginning(if options == null then None else Some(options.inner.entries), op.config.entries)
    {
      this.wallet, this.op, this.options, lister := wallet, op, options, null;
      vars := new Variables();
      new;
      Repr := {this, wallet, wallet.binding, op, vars} + if options == null then {} else {options.inner};
    }

    /** A buffer that nothing else refers to becomes that of a new variable. */
    method Attach(x: nat, buffer: array<byte>)
      requires Valid() && x !in vars.arrays
      requires (forall y :: y in vars.arrays ==> vars.arrays[y] != buffer)
      requires (forall path :: path in op.files ==> op.files[path] != buffer)
      modifies this`Repr, vars
      ensures Valid() && Now() == old(Now()).(vars := old(Now()).vars[x := buffer[..]])
      ensures Repr == old(Repr) + {buffer}
    {
      vars.Bind(x, buffer);
      Repr := Repr + {buffer};
    }

    /** The handle of this name is freed. */
    method GiveBack(n: Name)
      requires Valid() && n in wallet.handles
      modifies wallet`handles, wallet.binding
      ensures Valid() && Now() == old(Now()).(held := old(Now()).held - {n})
    {
      wallet.Free(n);
    }

    /** The variable goes; its buffer is not used any more. */
    method Detach(x: nat)
      requires Valid()
      modifies vars
      ensures Valid() && Now() == old(Now()).(vars := old(Now()).vars - {x})
    {
      vars.Drop(x);
    }

    method Fill(x: nat, bytes: seq<byte>)
      requires Valid() && Enabled(Now(), Step.Fill(x, bytes))
      modifies this`Repr, vars
      ensures Valid() && Now() == Effect(old(Now()), Step.Fill(x, bytes))
      ensures fresh(Repr - old(Repr))
    {
      var buffer := new byte[|bytes|](i requires 0 <= i < |bytes| => bytes[i]);
      assert buffer[..] == bytes;
      Attach(x, buffer);
    }

    method Overwrite(x: nat, at: nat, b: byte)
      requires Valid() && Enabled(Now(), Step.Overwrite(x, at, b))
      modifies vars`bytes, vars.arrays[x]
      ensures Valid() && Now() == Effect(old(Now()), Step.Overwrite(x, at, b))
    {
      vars.Overwrite(x, at, b);
    }

    method Write(path: string, x: nat, refused: Option<seq<byte>>)
      requires Valid() && Enabled(Now(), Step.Write(path, x, refused))
      modifies wallet`replies, wallet.binding, op
      ensures Valid() && Now() == Effect(old(Now()), Step.Write(path, x, refused))
    {
      wallet.Write(op, path, vars.arrays[x], refused);
    }

    /** The call of a read, before its bytes have a variable. */
    method Fetch(path: string, x: nat, refused: Option<seq<byte>>, missing: seq<byte>) returns (data: array?<byte>)
      requires Valid() && Var(x) !in wallet.handles
      modifies wallet, wallet.binding
      ensures Valid()
      ensures data != null <==> refused.None? && path in Now().files
      ensures data != null ==> fresh(data) && data[..] == Now().files[path]
      ensures data != null ==>
        Now() == old(Now()).(held := old(Now()).held + {Var(x)}, replies := old(Now()).replies + [Got(data[..])])
      ensures data == null ==>
        Now() == old(Now()).(replies := old(Now()).replies + [Answer(refused, Refused(missing))])
    {
      data := wallet.Read(op, path, Var(x), refused, missing);
    }

    method Read(path: string, x: nat, refused: Option<seq<byte>>, missing: seq<byte>)
      requires Valid() && Enabled(Now(), Step.Read(path, x, refused, missing))
      modifies this`Repr, wallet, wallet.binding, vars
      ensures Valid() && Now() == Effect(old(Now()), Step.Read(path, x, refused, missing))
      ensures fresh(Repr - old(Repr))
    {
      var data := Fetch(path, x, refused, missing);
      if data != null {
        Attach(x, data);
      }
    }

    method FreeBytes(x: nat)
      requires Valid() && Enabled(Now(), Step.FreeBytes(x))
      modifies wallet, wallet.binding, vars
      ensures Valid() && Now() == Effect(old(Now()), Step.FreeBytes(x))
    {
      GiveBack(Var(x));
      Detach(x);
    }

    method SetOption(key: string, value: string)
      requires Valid() && options != null
      modifies options.inner
      ensures Valid() && Now() == Effect(old(Now()), Step.SetOption(key, value))
    {
      options.inner.Insert(key, value);
    }

    method FreeOptions()
      requires Valid() && Enabled(Now(), Step.FreeOptions)
      modifies this`options, wallet, wallet.binding
      ensures Valid() && Now() == Effect(old(Now()), Step.FreeOptions) && options == null
    {
      GiveBack(TheOptions);
      options := null;
    }

    /** The call of a list, before its lister has a variable. */
    method NewLister(entries: seq<string>, refused: Option<seq<byte>>) returns (made: Lister?)
      requires Valid() && TheLister !in wallet.handles
      modifies wallet, wallet.binding
      ensures Valid()
      ensures made != null <==> refused.None?
      ensures made != null ==> fresh(made) && made.entries == entries
      ensures made != null ==>
        Now() == old(Now()).(held := old(Now()).held + {TheLister}, replies := old(Now()).replies + [Listing])
      ensures made == null ==> Now() == old(Now()).(replies := old(Now()).replies + [Answer(refused, Listing)])
    {
      made := wallet.List(op, entries, refused);
    }

    /** The lister gets its variable. */
    method Follow(made: Lister)
      requires Valid()
      modifies this`lister, this`Repr
      ensures Valid() && Now() == old(Now()).(lister := Some(made.entries)) && Repr == old(Repr) + {made}
    {
      lister := made;
      Repr := Repr + {made};
    }

    method List(entries: seq<string>, refused: Option<seq<byte>>)
      requires Valid() && Enabled(Now(), Step.List(entries, refused))
      modifies this`lister, this`Repr, wallet, wallet.binding
      ensures Valid() && Now() == Effect(old(Now()), Step.List(entries, refused))
      ensures fresh(Repr - old(Repr))
    {
      var made := NewLister(entries, refused);
      if made != null {
        Follow(made);
      }
    }

    method Next(refused: Option<seq<byte>>)
      requires Valid() && lister != null
      modifies wallet`replies, wallet.binding, lister
      ensures Valid() && Now() == Effect(old(Now()), Step.Next(refused))
    {
      wallet.Next(lister, refused);
    }

    method FreeLister()
      requires Valid() && Enabled(Now(), Step.FreeLister)
      modifies this`lister, wallet, wallet.binding
      ensures Valid() && Now() == Effect(old(Now()), Step.FreeLister) && lister == null
    {
      GiveBack(TheLister);
      lister := null;
    }

    method PerformOnVariables(s: Step)
      requires Valid() && Enabled(Now(), s) && (s.Fill? || s.Overwrite? || s.Write? || s.Read? || s.FreeBytes?)
      modifies Repr
      ensures Valid() && Now() == Effect(old(Now()), s)
      ensures fresh(Repr - old(Repr))
    {
      match s
      case Fill(x, bytes) => Fill(x, bytes);
      case Overwrite(x, at, b) => Overwrite(x, at, b);
      case Write(path, x, refused) => Write(path, x, refused);
      case Read(path, x, refused, missing) => Read(path, x, refused, missing);
      case FreeBytes(x) => FreeBytes(x);
    }

    /** One step; new objects apart, only what is in Repr changes. */
    method Perform(s: Step)
      requires Valid() && Enabled(Now(), s)
      modifies Repr
      ensures Valid() && Now() == Effect(old(Now()), s)
      ensures fresh(Repr - old(Repr))
    {
      match s
      case SetOption(key, value) => SetOption(key, value);
      case FreeOptions => FreeOptions();
      case List(entries, refused) => List(entries, refused);
      case Next(refused) => Next(refused);
      case FreeLister => FreeLister();
      case _ => PerformOnVariables(s);
    }

    /** Can the step be taken now? */
    method CanTake(s: Step) returns (can: bool)
      requires Valid()
      ensures can == Enabled(Now(), s)
    {
      match s
      case Fill(x, _) => can := x !in vars.arrays;
      case Overwrite(x, at, _) => can := x in vars.arrays && at < vars.arrays[x].Length;
      case Write(_, x, _) => can := x in vars.arrays;
      case Read(_, x, _, _) => can := x !in vars.arrays && Var(x) !in wallet.handles;
      case FreeBytes(x) => can := x in vars.arrays && Var(x) in wallet.handles;
      case SetOption(_, _) => can := options != null;
      case FreeOptions => can := options != null && TheOptions in wallet.handles;
      case List(_, _) => can := lister == null && TheLister !in wallet.handles;
      case Next(_) => can := lister != null;
      case FreeLister => can := lister != null && TheLister in wallet.handles;
    }

    /** Any run: the objects end up holding what the values do. */
    method Run(steps: seq<Step>)
      requires Valid()
      modifies Repr
      ensures Valid() && Now() == RunSteps(old(Now()), steps)
      ensures fresh(Repr - old(Repr))
    {
      var i := 0;
      ghost var trace := [Now()];
      while i < |steps|
        invariant i <= |steps| && Valid() && fresh(Repr - old(Repr))
        invariant |trace| == i + 1 && IsTrace(trace, steps) && trace[0] == old(Now()) && trace[i] == Now()
      {
        var can := CanTake(steps[i]);
        if !can {
          break;
        }
        Perform(steps[i]);
        TraceNext(trace, steps, Now());
        i, trace := i + 1, trace + [Now()];
      }
      TraceIsRun(trace, steps);
    }
  }

  // ---------------------------------------------------------------- from the first call to the last

  /** The options after these settings, one after the other. */
  function Settled(options: Options, settings: seq<(string, string)>): Options
    decreases |settings|
  {
    if settings == [] then options else Settled(options[settings[0].0 := settings[0].1], settings[1..])
  }

  lemma {:induction false} SettledExactly(o: Options, settings: seq<(string, string)>, k: string)
    ensures k in Settled(o, settings) <==> k in o || exists i :: 0 <= i < |settings| && settings[i].0 == k
    ensures forall i :: LastSetting(settings, i, k) ==>
      k in Settled(o, settings) && Settled(o, settings)[k] == settings[i].1
    ensures k in o && (forall i :: 0 <= i < |settings| ==> settings[i].0 != k) ==> Settled(o, settings)[k] == o[k]
    decreases |settings|
  {
    if settings != [] {
      var rest := settings[1..];
      var o' := o[settings[0].0 := settings[0].1];
      assert forall i :: 0 <= i < |rest| ==> rest[i] == settings[i + 1];
      assert forall i :: 0 < i < |settings| ==> settings[i] == rest[i - 1];
      SettledExactly(o', rest, k);
      forall i | LastSetting(settings, i, k)
        ensures k in Settled(o, settings) && Settled(o, settings)[k] == settings[i].1
      {
        if i > 0 {
          assert LastSetting(rest, i - 1, k);
        }
      }
    }
  }

  /** Setting number i is the last one of this key. */
  ghost predicate LastSetting(settings: seq<(string, string)>, i: int, k: string) {
    0 <= i < |settings| && settings[i].0 == k && forall j :: i < j < |settings| ==> settings[j].0 != k
  }

  /** Options are made and set, if there are to be any. */
  method MakeOptions(settings: Option<seq<(string, string)>>) returns (wallet: Wallet, options: OperatorOptions?)
    ensures fresh(wallet) && fresh(wallet.binding) && wallet.Valid() && wallet.replies == []
    ensures wallet.handles.Keys == if options == null then {} else {TheOptions}
    ensures options != null <==> settings.Some?
    ensures options != null ==> fresh(options) && fresh(options.inner)
    ensures options != null ==> options.inner.entries == Settled(map[], settings.value)
  {
    wallet := new Wallet();
    options := null;
    if settings.Some? {
      options := wallet.NewOptions();
      SetAll(options.inner, settings.value);
    }
  }

  /** And an operator is made with them. */
  method Open(settings: Option<seq<(string, string)>>) returns (c: Caller)
    ensures fresh(c) && fresh(c.Repr) && c.Valid()
    ensures c.Now() == Opened(settings)
  {
    var wallet, options := MakeOptions(settings);
    var op := wallet.NewOperator(options);
    c := new Caller(wallet, op, options);
  }

  function Opened(settings: Option<seq<(string, string)>>): Values {
    if settings.None? then Beginning(None, map[])
    else Beginning(Some(Settled(map[], settings.value)), Settled(map[], settings.value))
  }

  method SetAll(options: OptionMap, settings: seq<(string, string)>)
    modifies options
    ensures options.entries == Settled(old(options.entries), settings)
  {
    var i := 0;
    while i < |settings|
      invariant i <= |settings|
      invariant Settled(old(options.entries), settings) == Settled(options.entries, settings[i..])
    {
      options.Insert(settings[i].0, settings[i].1);
      i := i + 1;
    }
  }

  /** The whole life of an operator: whatever the steps, the calls come back as they would on values, the
      operator's options are those it was made with, each key with the value it was set to last, and once all
      handles still held are freed the heap is empty. */
  method Live(settings: Option<seq<(string, string)>>, steps: seq<Step>)
      returns (replies: seq<Reply>, config: Options, heap: Heap)
    ensures replies == RunSteps(Opened(settings), steps).replies
    ensures settings.None? ==> config == map[]
    ensures settings.Some? ==>
      && (forall k :: k in config <==> exists i :: 0 <= i < |settings.value| && settings.value[i].0 == k)
      && (forall i, k :: LastSetting(settings.value, i, k) ==> k in config && config[k] == settings.value[i].1)
    ensures heap.blocks == map[] && heap.ok
  {
    var c := Open(settings);
    c.Run(steps);
    ConfigStays(Opened(settings), steps);
    replies, config := c.wallet.replies, c.op.config.entries;
    OpenedConfig(settings);
    heap := Close(c.wallet);
  }

  lemma OpenedConfig(settings: Option<seq<(string, string)>>)
    ensures settings.None? ==> Opened(settings).config == map[]
    ensures settings.Some? ==>
      && (forall k :: k in Opened(settings).config <==>
            exists i :: 0 <= i < |settings.value| && settings.value[i].0 == k)
      && (forall i, k :: LastSetting(settings.value, i, k) ==>
            k in Opened(settings).config && Opened(settings).config[k] == settings.value[i].1)
  {
    if settings.Some? {
      forall k
        ensures k in Opened(settings).config <==>
          exists i :: 0 <= i < |settings.value| && settings.value[i].0 == k
        ensures forall i :: LastSetting(settings.value, i, k) ==>
          k in Opened(settings).config && Opened(settings).config[k] == settings.value[i].1
      {
        SettledExactly(map[], settings.value, k);
      }
    }
  }

  /** A new operator holds no files, and nothing was read or listed yet; the caller's options are those the operator
      got. */
  lemma OpenedEmpty(settings: Option<seq<(string, string)>>)
    ensures Opened(settings).files == map[] && Opened(settings).vars == map[] && Opened(settings).replies == []
    ensures Opened(settings).lister.None? && Named(Opened(settings))
    ensures Opened(settings).options == if settings.None? then None else Some(Opened(settings).config)
  {
  }

  method Close(wallet: Wallet) returns (heap: Heap)
    requires wallet.Valid()
    modifies wallet, wallet.binding
    ensures heap.blocks == map[] && heap.ok
  {
    wallet.FreeAll();
    heap := wallet.binding.session.heap;
  }
}
