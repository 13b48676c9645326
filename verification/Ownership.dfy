/** Who owns which handle.

    Every call of the hyper C interface that an application makes is one event.  The ledger
    is a monitor over those events: it knows which handles are live, whether the application or the
    executor holds them and which are lent out, and it turns `ok` off for good at the first
    call that touches a handle it may not touch.  Nothing here knows the programs. */
module Ownership {

  datatype Kind =
    | Waker | Task | Executor | Connection | Io | Options | Client | Request | RequestBody
    | Response | Body | Buffer | Error | FileBuffer | ResponseBuffer

  datatype Handle = Handle(kind: Kind, id: nat)

  datatype Event =
    | Acquire(h: Handle)               // a call hands a new handle to the application
    | Use(h: Handle)                   // a call reads or changes the object and leaves it
    | Release(h: Handle)               // a free function, or a call that consumes the handle
    | Lend(h: Handle, to: Handle)      // the object may be reached through `to` from now on
    | Push(h: Handle)                  // a task goes to the executor
    | Deliver(h: Handle)               // the executor returns a finished task
    | FreeExecutor(h: Handle)          // frees the executor and every task still in it
    | NullCall                         // a call on a null pointer the function does not accept

  ghost predicate Mentions(e: Event, h: Handle) {
    !e.NullCall? && (e.h == h || (e.Lend? && e.to == h))
  }

  datatype Ledger = Ledger(
    mine: set<Handle>,           // live and in the hands of the application
    theirs: set<Handle>,         // tasks the executor holds
    loans: map<Handle, Handle>,  // the last borrower of each handle that was ever lent
    issued: set<Handle>,         // every handle that was ever handed out
    ok: bool)
  {
    predicate Live(h: Handle) {
      h in mine || h in theirs
    }

    /** A loan lasts until its task is delivered or its executor freed. */
    predicate Lent(h: Handle) {
      h in loans && (loans[h] in theirs || (loans[h].kind == Executor && loans[h] in mine))
    }

    /** May the application make this call now? */
    predicate Permits(e: Event) {
      match e
      case Acquire(h) => h !in issued
      case Use(h) => h in mine
      case Release(h) => h in mine && !Lent(h) && h.kind != Executor
      case Lend(h, to) => h in mine && !Lent(h) && to in mine && to != h
      case Push(h) => h in mine && h.kind == Task
      case Deliver(h) => h in theirs
      case FreeExecutor(h) => h in mine && h.kind == Executor
      case NullCall => false
    }

    /** The ledger after the call. */
    function After(e: Event): Ledger {
      if !ok || !Permits(e) then
        this.(ok := false)
      else match e
        case Acquire(h) => this.(mine := mine + {h}, issued := issued + {h})
        case Use(_) => this
        case Release(h) => this.(mine := mine - {h})
        case Lend(h, to) => this.(loans := loans[h := to])
        case Push(h) => this.(mine := mine - {h}, theirs := theirs + {h})
        case Deliver(h) => this.(mine := mine + {h}, theirs := theirs - {h})
        case FreeExecutor(h) => this.(mine := mine - {h}, theirs := {})
    }

    /** The ledger after several calls. */
    function AfterAll(calls: seq<Event>): Ledger {
      if calls == [] then this
      else AfterAll(calls[..|calls| - 1]).After(calls[|calls| - 1])
    }
  }

  const EMPTY_LEDGER := Ledger({}, {}, map[], {}, true)

  /** The ledger after a whole trace of calls. */
  function Replay(trace: seq<Event>): Ledger {
    EMPTY_LEDGER.AfterAll(trace)
  }

  lemma {:induction false} AfterConcat(l: Ledger, first: seq<Event>, second: seq<Event>)
    ensures l.AfterAll(first + second) == l.AfterAll(first).AfterAll(second)
    decreases |second|
  {
    if second == [] {
      assert first + second == first;
    } else {
      var n := |second| - 1;
      assert (first + second)[..|first| + n] == first + second[..n];
      AfterConcat(l, first, second[..n]);
    }
  }

  lemma AfterChain(l: Ledger, a: seq<Event>, b: seq<Event>, c: seq<Event>, l1: Ledger, l2: Ledger, l3: Ledger)
    requires l.AfterAll(a) == l1 && l1.AfterAll(b) == l2 && l2.AfterAll(c) == l3
    ensures l.AfterAll(a + b + c) == l3
  {
    AfterConcat(l, a, b);
    AfterConcat(l, a + b, c);
  }

  lemma After1(l: Ledger, a: Event)
    ensures l.AfterAll([a]) == l.After(a)
  {
    assert [a][..0] == [];
  }

  lemma After2(l: Ledger, a: Event, b: Event)
    ensures l.AfterAll([a, b]) == l.After(a).After(b)
  {
    After1(l, a);
    assert [a, b][..1] == [a];
  }

  lemma After3(l: Ledger, a: Event, b: Event, c: Event)
    ensures l.AfterAll([a, b, c]) == l.After(a).After(b).After(c)
  {
    After2(l, a, b);
    assert [a, b, c][..2] == [a, b];
  }

  lemma After4(l: Ledger, a: Event, b: Event, c: Event, d: Event)
    ensures l.AfterAll([a, b, c, d]) == l.After(a).After(b).After(c).After(d)
  {
    After3(l, a, b, c);
    assert [a, b, c, d][..3] == [a, b, c];
  }

  lemma After5(l: Ledger, a: Event, b: Event, c: Event, d: Event, e: Event)
    ensures l.AfterAll([a, b, c, d, e]) == l.After(a).After(b).After(c).After(d).After(e)
  {
    After4(l, a, b, c, d);
    assert [a, b, c, d, e][..4] == [a, b, c, d];
  }

  lemma ReplayNext(trace: seq<Event>, k: nat)
    requires k < |trace|
    ensures Replay(trace[..k + 1]) == Replay(trace[..k]).After(trace[k])
  {
    assert trace[..k + 1][..k] == trace[..k];
  }

  /** A trace the ledger accepts is accepted at each of its prefixes. */
  lemma {:induction false} AcceptedPrefix(trace: seq<Event>, k: nat)
    requires k <= |trace| && Replay(trace).ok
    ensures Replay(trace[..k]).ok
    decreases |trace|
  {
    if k == |trace| {
      assert trace[..k] == trace;
    } else {
      var shorter := trace[..|trace| - 1];
      AcceptedPrefix(shorter, k);
      assert shorter[..k] == trace[..k];
    }
  }

  /** Only handles that were handed out are live, no handle has two owners, and the executor holds
      tasks only. */
  lemma {:induction false} LiveWereIssued(trace: seq<Event>)
    ensures Replay(trace).mine + Replay(trace).theirs <= Replay(trace).issued
    ensures Replay(trace).mine !! Replay(trace).theirs
    ensures forall h :: h in Replay(trace).theirs ==> h.kind == Task
    ensures forall h :: h in Replay(trace).issued ==> Acquire(h) in trace
  {
    if trace != [] {
      var shorter := trace[..|trace| - 1];
      LiveWereIssued(shorter);
      assert trace == shorter + [trace[|trace| - 1]];
    }
  }

  lemma {:induction false} AcquiredWereIssued(trace: seq<Event>, h: Handle)
    requires Replay(trace).ok && Acquire(h) in trace
    ensures h in Replay(trace).issued
  {
    var n := |trace| - 1;
    assert trace == trace[..n] + [trace[n]];
    if trace[n] != Acquire(h) {
      AcceptedPrefix(trace, n);
      AcquiredWereIssued(trace[..n], h);
    }
  }

  /** A handle that has been handed out and is no longer live stays that way. */
  lemma {:induction false} GoneStaysGone(trace: seq<Event>, k: nat, m: nat, h: Handle)
    requires k <= m <= |trace| && Replay(trace).ok
    requires h in Replay(trace[..k]).issued && !Replay(trace[..k]).Live(h)
    ensures h in Replay(trace[..m]).issued && !Replay(trace[..m]).Live(h)
    decreases m
  {
    if k < m {
      GoneStaysGone(trace, k, m - 1, h);
      ReplayNext(trace, m - 1);
      AcceptedPrefix(trace, m);
    }
  }

  /** In an accepted trace no call after the release of a handle mentions that handle: it is not
      used, released or handed out a second time. */
  lemma NothingAfterRelease(trace: seq<Event>, i: nat, j: nat, h: Handle)
    requires Replay(trace).ok
    requires i < j < |trace| && trace[i] == Release(h)
    ensures !Mentions(trace[j], h)
  {
    LiveWereIssued(trace[..i]);
    ReplayNext(trace, i);
    AcceptedPrefix(trace, i + 1);
    GoneStaysGone(trace, i + 1, j, h);
    ReplayNext(trace, j);
    AcceptedPrefix(trace, j + 1);
  }

  /** Call number i ends the life of h. */
  ghost predicate EndsAt(trace: seq<Event>, i: nat, h: Handle)
    requires i < |trace|
  {
    trace[i] == Release(h) ||
    (trace[i].FreeExecutor? &&
     (trace[i].h == h || h in Replay(trace[..i]).theirs))
  }

  /** In an accepted trace a handle that was handed out and is not live any more was ended by
      exactly one call: its release, or the release of the executor that held it. */
  lemma {:induction false} EndedExactlyOnce(trace: seq<Event>, h: Handle) returns (i: nat)
    requires Replay(trace).ok
    requires h in Replay(trace).issued && !Replay(trace).Live(h)
    ensures i < |trace| && EndsAt(trace, i, h)
    ensures forall j :: 0 <= j < |trace| && EndsAt(trace, j, h) ==> j == i
  {
    assert trace[..|trace|] == trace;
    i := LastCallBeforeGone(trace, |trace|, h);
    forall j | 0 <= j < |trace| && EndsAt(trace, j, h)
      ensures j == i
    {
      EndsLife(trace, i, h);
      EndsLife(trace, j, h);
      if i < j {
        GoneStaysGone(trace, i + 1, j, h);
      } else if j < i {
        GoneStaysGone(trace, j + 1, i, h);
      }
    }
  }

  /** Only tasks and executors can end otherwise than by their own release. */
  lemma EndsByRelease(trace: seq<Event>, i: nat, h: Handle)
    requires Replay(trace).ok && i < |trace| && EndsAt(trace, i, h)
    requires h.kind != Task && h.kind != Executor
    ensures trace[i] == Release(h)
  {
    ReplayNext(trace, i);
    AcceptedPrefix(trace, i + 1);
    LiveWereIssued(trace[..i]);
  }

  lemma EndsLife(trace: seq<Event>, i: nat, h: Handle)
    requires Replay(trace).ok && i < |trace| && EndsAt(trace, i, h)
    ensures Replay(trace[..i]).Live(h)
    ensures h in Replay(trace[..i + 1]).issued && !Replay(trace[..i + 1]).Live(h)
  {
    ReplayNext(trace, i);
    AcceptedPrefix(trace, i);
    AcceptedPrefix(trace, i + 1);
    LiveWereIssued(trace[..i]);
  }

  lemma {:induction false} LastCallBeforeGone(trace: seq<Event>, m: nat, h: Handle) returns (i: nat)
    requires m <= |trace| && Replay(trace).ok
    requires h in Replay(trace[..m]).issued && !Replay(trace[..m]).Live(h)
    ensures i < m && EndsAt(trace, i, h)
    decreases m
  {
    AcceptedPrefix(trace, m);
    assert m > 0;
    ReplayNext(trace, m - 1);
    if Replay(trace[..m - 1]).Live(h) {
      i := m - 1;
    } else {
      i := LastCallBeforeGone(trace, m - 1, h);
    }
  }

  /** Is the loan from call i still running before call k? */
  ghost predicate LoanRuns(trace: seq<Event>, i: nat, k: nat, to: Handle) {
    forall m :: i < m < k && m < |trace| ==>
      trace[m] != Deliver(to) && trace[m] != Release(to) && trace[m] != FreeExecutor(to)
  }

  lemma LoanKept(l: Ledger, e: Event, h: Handle, to: Handle)
    requires l.After(e).ok && h in l.loans && l.loans[h] == to && to in l.mine && to.kind == Executor
    requires e != Release(to) && e != FreeExecutor(to)
    ensures h in l.After(e).loans && l.After(e).loans[h] == to && to in l.After(e).mine && l.After(e).Lent(h)
  {
  }

  lemma {:induction false} LoanLasts(trace: seq<Event>, i: nat, k: nat, h: Handle, x: Handle)
    requires i < k <= |trace| && Replay(trace).ok && trace[i] == Lend(h, x) && x.kind == Executor
    requires LoanRuns(trace, i, k, x)
    ensures Replay(trace[..k]).Lent(h)
    ensures h in Replay(trace[..k]).loans && Replay(trace[..k]).loans[h] == x && x in Replay(trace[..k]).mine
    decreases k
  {
    AcceptedPrefix(trace, k);
    ReplayNext(trace, k - 1);
    if i < k - 1 {
      LoanLasts(trace, i, k - 1, h, x);
      LoanKept(Replay(trace[..k - 1]), trace[k - 1], h, x);
    }
  }

  /** What an executor was lent is released only after that executor was freed. */
  lemma ReleaseWaitsForExecutor(trace: seq<Event>, i: nat, j: nat, h: Handle, x: Handle)
    requires Replay(trace).ok
    requires i < j < |trace| && trace[i] == Lend(h, x) && x.kind == Executor && trace[j] == Release(h)
    ensures exists k :: i < k < j && trace[k] == FreeExecutor(x)
  {
    if forall k :: i < k < j ==> trace[k] != FreeExecutor(x) {
      assert LoanRuns(trace, i, j, x) by {
        forall m | i < m < j
          ensures trace[m] != Deliver(x) && trace[m] != Release(x)
        {
          ReplayNext(trace, m);
          AcceptedPrefix(trace, m + 1);
          LiveWereIssued(trace[..m]);
        }
      }
      LoanLasts(trace, i, j, h, x);
      ReplayNext(trace, j);
      AcceptedPrefix(trace, j + 1);
    }
  }
}
