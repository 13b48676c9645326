/** The heap behind the opendal C binding: every handle is an outer box, most with an inner box or bytes behind
    it, and every handle has its own free function. */
module OpendalHeap {
  import opened Basics

  type Ptr = nat

  const NULL: Ptr := 0
  const DANGLING: Ptr := 1   // where a vector without capacity points

  datatype Kind = Operator | Lister | Entry | OperatorOptions | BytesHandle | ErrorHandle

  /** One allocation. */
  datatype Block =
    | Inner(kind: Kind)                            // the Rust object behind a handle
    | Outer(kind: Kind, inner: Ptr)                // the box a handle points to
    | Bytes(capacity: nat, data: seq<byte>)        // the memory of a vector
    | Slice(kind: Kind, bytesAt: Ptr, len: nat)       // opendal_bytes, or opendal_error with its message

  /** The allocator; `ok` stays on while every release fits what was allocated. */
  datatype Heap = Heap(blocks: map<Ptr, Block>, next: Ptr, ok: bool)
  {
    ghost predicate Valid() {
      next > DANGLING && forall p :: p in blocks ==> DANGLING < p < next
    }

    function Alloc(b: Block): (Heap, Ptr) {
      (this.(blocks := blocks[next := b], next := next + 1), next)
    }

    /** Box::from_raw and drop. */
    function FreeBox(p: Ptr): Heap {
      if p in blocks && !blocks[p].Bytes? then this.(blocks := blocks - {p}) else this.(ok := false)
    }

    /** A vector is forgotten; one without capacity owns no memory. */
    function LeakVec(data: seq<byte>, capacity: nat): (Heap, Ptr)
      requires |data| <= capacity
    {
      if capacity == 0 then (this, DANGLING) else Alloc(Bytes(capacity, data))
    }

    /** Vec::from_raw_parts(p, len, len) and drop: memory of exactly this capacity is released. */
    function FreeVec(p: Ptr, len: nat): Heap {
      if len == 0 then this
      else if p in blocks && blocks[p].Bytes? && blocks[p].capacity == len then this.(blocks := blocks - {p})
      else this.(ok := false)
    }

    /** opendal_operator::from, opendal_lister::new, opendal_entry::new, opendal_operator_options_new. */
    function NewPair(kind: Kind): (Heap, Ptr) {
      var (h, inner) := Alloc(Inner(kind));
      h.Alloc(Outer(kind, inner))
    }

    /** The free functions of those: inner box, then outer box. */
    function FreePair(p: Ptr): Heap {
      if p in blocks && blocks[p].Outer? then FreeBox(blocks[p].inner).FreeBox(p) else this.(ok := false)
    }

    /** opendal_bytes::new in a box, and opendal_error::new with its message. */
    function NewSlice(kind: Kind, data: seq<byte>, capacity: nat): (Heap, Ptr)
      requires |data| <= capacity
    {
      var (h, d) := LeakVec(data, capacity);
      h.Alloc(Slice(kind, d, |data|))
    }

    /** opendal_bytes_free and opendal_error_free: the bytes with their length as capacity, then the box. */
    function FreeSlice(p: Ptr): Heap {
      if p in blocks && blocks[p].Slice? then FreeVec(blocks[p].bytesAt, blocks[p].len).FreeBox(p)
      else this.(ok := false)
    }
  }

  predicate IsPair(kind: Kind) {
    kind.Operator? || kind.Lister? || kind.Entry? || kind.OperatorOptions?
  }

  // ---------------------------------------------------------------- one handle

  /** Releasing bytes by their length fits what was allocated, and leaves nothing behind, exactly when the vector
      had no spare capacity. */
  lemma SliceFreeExact(h: Heap, kind: Kind, data: seq<byte>, capacity: nat)
    requires h.Valid() && h.ok && |data| <= capacity
    ensures
      var (h', p) := h.NewSlice(kind, data, capacity);
      h'.FreeSlice(p).ok && h'.FreeSlice(p).blocks == h.blocks <==> capacity == |data|
  {
    var (v, d) := h.LeakVec(data, capacity);
    var (h', p) := h.NewSlice(kind, data, capacity);
    if capacity == |data| {
      assert h'.FreeSlice(p).blocks == h.blocks;
    } else if |data| == 0 {
      assert d in h'.FreeSlice(p).blocks && d !in h.blocks;
    }
  }

  /** The bytes behind a handle of bytes or an error. */
  function Contents(h: Heap, p: Ptr): seq<byte> {
    if p !in h.blocks || !h.blocks[p].Slice? || h.blocks[p].len == 0 then []
    else
      var at := h.blocks[p].bytesAt;
      if at in h.blocks && h.blocks[at].Bytes? then h.blocks[at].data else []
  }

  /** A pair is released without harm exactly if its outer box is there and points to another box that is there; so
      a second release is caught. */
  lemma PairFreeExact(h: Heap, p: Ptr)
    requires h.ok
    ensures h.FreePair(p).ok <==>
      p in h.blocks && h.blocks[p].Outer? && h.blocks[p].inner != p &&
      h.blocks[p].inner in h.blocks && !h.blocks[h.blocks[p].inner].Bytes?
    ensures h.FreePair(p).ok ==>
      h.FreePair(p) == h.(blocks := h.blocks - {p, h.blocks[p].inner}) && !h.FreePair(p).FreePair(p).ok
  {
    if h.FreePair(p).ok {
      assert h.blocks - {h.blocks[p].inner} - {p} == h.blocks - {p, h.blocks[p].inner};
    }
  }

  // ---------------------------------------------------------------- runs

  /** One call of the binding, with what the library behind it answers. */
  datatype Call =
    | Make(kind: Kind)                       // a call that succeeded with a new operator, lister, entry or options
    | MakeBytes(data: seq<byte>)             // a read that succeeded
    | Fail(message: seq<byte>)               // any call that returned an error
    | Quiet                                  // a write that succeeded, or the end of a listing: null, null
    | Free(p: Ptr)                           // the free function of the handle p

  /** The heap, and the handles and errors returned but not yet released. */
  datatype Session = Session(heap: Heap, held: set<Ptr>)

  predicate Legal(s: Session, c: Call) {
    match c
    case Make(kind) => IsPair(kind)
    case Free(p) => p in s.held
    case _ => true
  }

  /** A vector that was made from a buffer has exactly the capacity of its bytes. */
  function Do(s: Session, c: Call): Session
    requires Legal(s, c)
  {
    match c
    case Make(kind) => var (h, p) := s.heap.NewPair(kind); Session(h, s.held + {p})
    case MakeBytes(data) => var (h, p) := s.heap.NewSlice(BytesHandle, data, |data|); Session(h, s.held + {p})
    case Fail(message) => var (h, p) := s.heap.NewSlice(ErrorHandle, message, |message|); Session(h, s.held + {p})
    case Quiet => s
    case Free(p) =>
      Session(if p in s.heap.blocks && s.heap.blocks[p].Slice? then s.heap.FreeSlice(p) else s.heap.FreePair(p),
              s.held - {p})
  }

  function RunCalls(s: Session, calls: seq<Call>): Session
    decreases |calls|
  {
    if calls == [] || !Legal(s, calls[0]) then s else RunCalls(Do(s, calls[0]), calls[1..])
  }

  /** What each call leaves on the heap: a box with its inner box, a box with its bytes unless there are none, or
      nothing; and the handle it returns. */
  lemma CallAllocates(s: Session, c: Call)
    requires Legal(s, c) && !c.Free?
    ensures
      var n := s.heap.next;
      Do(s, c) ==
      match c
      case Make(kind) =>
        Session(Heap(s.heap.blocks[n := Inner(kind)][n + 1 := Outer(kind, n)], n + 2, s.heap.ok), s.held + {n + 1})
      case MakeBytes(data) =>
        if data == [] then
          Session(Heap(s.heap.blocks[n := Slice(BytesHandle, 1, 0)], n + 1, s.heap.ok), s.held + {n})
        else
          Session(Heap(s.heap.blocks[n := Block.Bytes(|data|, data)][n + 1 := Slice(BytesHandle, n, |data|)], n + 2,
                       s.heap.ok), s.held + {n + 1})
      case Fail(message) =>
        if message == [] then
          Session(Heap(s.heap.blocks[n := Slice(ErrorHandle, 1, 0)], n + 1, s.heap.ok), s.held + {n})
        else
          Session(Heap(s.heap.blocks[n := Block.Bytes(|message|, message)][n + 1 := Slice(ErrorHandle, n, |message|)],
                       n + 2, s.heap.ok), s.held + {n + 1})
      case Quiet => s
  {
  }

  /** The allocation behind a handle's box; the box itself if there is none. */
  function Behind(h: Heap, p: Ptr): Ptr {
    if p !in h.blocks then p
    else match h.blocks[p]
      case Outer(_, inner) => inner
      case Slice(_, at, len) => if len == 0 then p else at
      case _ => p
  }

  /** A handle is complete: its box, and what its box points to, are there. */
  ghost predicate Complete(h: Heap, p: Ptr) {
    p in h.blocks &&
    match h.blocks[p]
    case Outer(_, inner) => inner in h.blocks && h.blocks[inner].Inner? && inner != p
    case Slice(_, at, len) => len > 0 ==>
      at in h.blocks && h.blocks[at].Bytes? && h.blocks[at].capacity == len && at != p
    case _ => false
  }

  /** Live allocations are those of before and those behind the handles held, each behind one handle. */
  ghost predicate Owned(base: map<Ptr, Block>, s: Session, owner: map<Ptr, Ptr>) {
    && s.heap.next > DANGLING && s.heap.ok
    && (forall x :: x in s.heap.blocks ==> DANGLING < x < s.heap.next)
    && (forall x :: x in s.heap.blocks <==> x in base || x in owner)
    && (forall x :: x in base ==> x !in owner && s.heap.blocks[x] == base[x])
    && (forall x :: x in owner ==> owner[x] in s.held && (x == owner[x] || x == Behind(s.heap, owner[x])))
    && (forall p :: p in s.held ==> Handled(s.heap, owner, p))
  }

  /** A handle is complete, and owns its box and what is behind it. */
  ghost predicate Handled(h: Heap, owner: map<Ptr, Ptr>, p: Ptr) {
    && Complete(h, p)
    && p in owner && owner[p] == p
    && Behind(h, p) in owner && owner[Behind(h, p)] == p
  }

  /** Allocating more changes nothing for the handles held. */
  lemma GrownKeeps(base: map<Ptr, Block>, s: Session, owner: map<Ptr, Ptr>, h: Heap, q: Ptr)
    requires Owned(base, s, owner) && q in s.held
    requires forall y :: y in s.heap.blocks ==> y in h.blocks && h.blocks[y] == s.heap.blocks[y]
    ensures Behind(h, q) == Behind(s.heap, q) && Complete(h, q)
    ensures q < s.heap.next && Behind(s.heap, q) < s.heap.next
  {
    assert Handled(s.heap, owner, q);
    assert q in s.heap.blocks && Behind(s.heap, q) in s.heap.blocks;
  }

  lemma GrownHandled(base: map<Ptr, Block>, s: Session, owner: map<Ptr, Ptr>, h: Heap, x: Ptr, p: Ptr, q: Ptr)
    requires Owned(base, s, owner) && q in s.held && s.heap.next <= x && s.heap.next <= p
    requires forall y :: y in s.heap.blocks ==> y in h.blocks && h.blocks[y] == s.heap.blocks[y]
    ensures Handled(h, owner[x := p][p := p], q)
  {
    assert Handled(s.heap, owner, q);
    GrownKeeps(base, s, owner, h, q);
  }

  lemma GrownOwner(base: map<Ptr, Block>, s: Session, owner: map<Ptr, Ptr>, h: Heap, y: Ptr)
    requires Owned(base, s, owner) && y in owner
    requires forall z :: z in s.heap.blocks ==> z in h.blocks && h.blocks[z] == s.heap.blocks[z]
    ensures y < s.heap.next && owner[y] in s.held && (y == owner[y] || y == Behind(h, owner[y]))
  {
    assert y in s.heap.blocks;
    GrownKeeps(base, s, owner, h, owner[y]);
  }

  /** A handle p with x behind it has been added where nothing was before. */
  lemma GrownOwned(base: map<Ptr, Block>, s: Session, owner: map<Ptr, Ptr>, h: Heap, x: Ptr, p: Ptr,
                   s': Session, owner': map<Ptr, Ptr>)
    requires Owned(base, s, owner)
    requires s.heap.next <= x <= p < h.next && h.ok
    requires h.blocks.Keys == s.heap.blocks.Keys + {x, p}
    requires forall y :: y in s.heap.blocks ==> h.blocks[y] == s.heap.blocks[y]
    requires Complete(h, p) && Behind(h, p) == x
    requires s' == Session(h, s.held + {p}) && owner' == owner[x := p][p := p]
    ensures Owned(base, s', owner')
  {
    forall q | q in s.held
      ensures Handled(h, owner', q)
    {
      GrownHandled(base, s, owner, h, x, p, q);
    }
    assert Handled(h, owner', p);
    forall y | y in owner
      ensures y < s.heap.next && owner[y] in s.held && (y == owner[y] || y == Behind(h, owner[y]))
    {
      GrownOwner(base, s, owner, h, y);
    }
  }

  lemma MakeOwned(base: map<Ptr, Block>, s: Session, owner: map<Ptr, Ptr>, kind: Kind)
    requires Owned(base, s, owner) && IsPair(kind)
    ensures Owned(base, Do(s, Make(kind)), owner[s.heap.next := s.heap.next + 1][s.heap.next + 1 := s.heap.next + 1])
  {
    var n := s.heap.next;
    GrownOwned(base, s, owner, Do(s, Make(kind)).heap, n, n + 1, Do(s, Make(kind)),
               owner[n := n + 1][n + 1 := n + 1]);
  }

  /** The handle of new bytes: right behind its data, if there is any. */
  function SliceHandle(h: Heap, data: seq<byte>): Ptr {
    if data == [] then h.next else h.next + 1
  }

  lemma SliceOwned(base: map<Ptr, Block>, s: Session, owner: map<Ptr, Ptr>, kind: Kind, data: seq<byte>)
    requires Owned(base, s, owner)
    ensures
      var p := SliceHandle(s.heap, data);
      s.heap.NewSlice(kind, data, |data|).1 == p &&
      Owned(base, Session(s.heap.NewSlice(kind, data, |data|).0, s.held + {p}), owner[s.heap.next := p][p := p])
  {
    var h, p := s.heap.NewSlice(kind, data, |data|).0, SliceHandle(s.heap, data);
    GrownOwned(base, s, owner, h, s.heap.next, p, Session(h, s.held + {p}), owner[s.heap.next := p][p := p]);
  }

  lemma FreedBlocks(base: map<Ptr, Block>, s: Session, owner: map<Ptr, Ptr>, p: Ptr)
    requires Owned(base, s, owner) && p in s.held
    ensures Do(s, Free(p)).heap == s.heap.(blocks := s.heap.blocks - {p, Behind(s.heap, p)})
  {
    assert Handled(s.heap, owner, p);
    var b := Behind(s.heap, p);
    assert s.heap.blocks - {b} - {p} == s.heap.blocks - {p, b};
  }

  lemma FreeOwned(base: map<Ptr, Block>, s: Session, owner: map<Ptr, Ptr>, p: Ptr)
    requires Owned(base, s, owner) && p in s.held
    ensures Owned(base, Do(s, Free(p)), owner - {p, Behind(s.heap, p)})
  {
    var s' := Do(s, Free(p));
    FreedBlocks(base, s, owner, p);
    assert Handled(s.heap, owner, p);
    forall q | q in s'.held
      ensures Behind(s'.heap, q) == Behind(s.heap, q) && Handled(s'.heap, owner - {p, Behind(s.heap, p)}, q)
    {
      assert Handled(s.heap, owner, q);
      assert q != p && q != Behind(s.heap, p) && Behind(s.heap, q) != p && Behind(s.heap, q) != Behind(s.heap, p);
    }
  }

  lemma {:induction false} RunOwned(base: map<Ptr, Block>, s: Session, owner: map<Ptr, Ptr>, calls: seq<Call>)
      returns (owner': map<Ptr, Ptr>)
    requires Owned(base, s, owner)
    ensures Owned(base, RunCalls(s, calls), owner')
    decreases |calls|
  {
    if calls == [] || !Legal(s, calls[0]) {
      owner' := owner;
    } else {
      StepOwned(base, s, owner, calls[0]);
      owner' := RunOwned(base, Do(s, calls[0]), NewOwner(s, owner, calls[0]), calls[1..]);
    }
  }

  ghost function NewOwner(s: Session, owner: map<Ptr, Ptr>, c: Call): map<Ptr, Ptr> {
    var n := s.heap.next;
    match c
    case Make(_) => owner[n := n + 1][n + 1 := n + 1]
    case MakeBytes(data) => var p := SliceHandle(s.heap, data); owner[n := p][p := p]
    case Fail(message) => var p := SliceHandle(s.heap, message); owner[n := p][p := p]
    case Quiet => owner
    case Free(p) => owner - {p, Behind(s.heap, p)}
  }

  lemma StepOwned(base: map<Ptr, Block>, s: Session, owner: map<Ptr, Ptr>, c: Call)
    requires Owned(base, s, owner) && Legal(s, c)
    ensures Owned(base, Do(s, c), NewOwner(s, owner, c))
  {
    match c
    case Make(kind) => MakeOwned(base, s, owner, kind);
    case MakeBytes(data) => SliceOwned(base, s, owner, BytesHandle, data);
    case Fail(message) => SliceOwned(base, s, owner, ErrorHandle, message);
    case Quiet =>
    case Free(p) => FreeOwned(base, s, owner, p);
  }

  /** After any run of calls in which each returned handle and error was released once by its own free function,
      exactly the allocations from before are live, and every release fitted its allocation. */
  lemma HeapConserved(heap: Heap, calls: seq<Call>)
    requires heap.Valid() && heap.ok
    ensures
      var s := RunCalls(Session(heap, {}), calls);
      s.heap.ok && (s.held == {} ==> s.heap.blocks == heap.blocks)
  {
    var owner := RunOwned(heap.blocks, Session(heap, {}), map[], calls);
    var s := RunCalls(Session(heap, {}), calls);
    assert Owned(heap.blocks, s, owner);
  }

  // ---------------------------------------------------------------- what the binding's caller relies on

  /** A heap with nothing on it. */
  const EMPTY_SESSION := Session(Heap(map[], 2, true), {})

  /** Calls of the binding lead here from an empty heap. */
  ghost predicate Reached(s: Session) {
    exists calls :: RunCalls(EMPTY_SESSION, calls) == s
  }

  lemma EmptyReached()
    ensures Reached(EMPTY_SESSION)
  {
    assert RunCalls(EMPTY_SESSION, []) == EMPTY_SESSION;
  }

  lemma {:induction false} OneCallMore(s: Session, calls: seq<Call>, c: Call) returns (more: seq<Call>)
    requires Legal(RunCalls(s, calls), c)
    ensures RunCalls(s, more) == Do(RunCalls(s, calls), c)
    decreases |calls|
  {
    if calls == [] || !Legal(s, calls[0]) {
      more := [c];
      assert RunCalls(Do(s, c), more[1..]) == Do(s, c);
    } else {
      more := OneCallMore(Do(s, calls[0]), calls[1..], c);
      more := [calls[0]] + more;
    }
  }

  lemma StepReached(s: Session, c: Call)
    requires Reached(s) && Legal(s, c)
    ensures Reached(Do(s, c))
  {
    var calls :| RunCalls(EMPTY_SESSION, calls) == s;
    var more := OneCallMore(EMPTY_SESSION, calls, c);
  }

  lemma ReachedOwned(s: Session) returns (owner: map<Ptr, Ptr>)
    requires Reached(s)
    ensures Owned(map[], s, owner)
  {
    var calls :| RunCalls(EMPTY_SESSION, calls) == s;
    owner := RunOwned(map[], EMPTY_SESSION, map[], calls);
  }

  /** When no handle is held nothing is on the heap. */
  lemma NothingLeft(s: Session)
    requires Reached(s) && s.held == {}
    ensures s.heap.blocks == map[] && s.heap.ok
  {
    var owner := ReachedOwned(s);
    NothingHeld(s, owner);
  }

  /** A new handle is none of those held. */
  lemma NewHandle(s: Session, p: Ptr)
    requires Reached(s) && p >= s.heap.next
    ensures p !in s.held && p != NULL
  {
    var owner := ReachedOwned(s);
  }

  /** The bytes are behind their handle. */
  lemma SliceContents(s: Session, kind: Kind, data: seq<byte>)
    ensures Contents(s.heap.NewSlice(kind, data, |data|).0, SliceHandle(s.heap, data)) == data
  {
  }

  /** Releasing a handle takes its allocations and nothing else; when none is held any more nothing is there. */
  lemma ReleasedBlocks(s: Session, p: Ptr)
    requires Reached(s) && p in s.held
    ensures Do(s, Free(p)).heap == s.heap.(blocks := s.heap.blocks - {p, Behind(s.heap, p)})
    ensures s.heap.ok && (Do(s, Free(p)).held == {} ==> Do(s, Free(p)).heap.blocks == map[])
  {
    var owner := ReachedOwned(s);
    FreedBlocks(map[], s, owner, p);
    FreeOwned(map[], s, owner, p);
    NothingHeld(Do(s, Free(p)), owner - {p, Behind(s.heap, p)});
  }

  lemma NothingHeld(s: Session, owner: map<Ptr, Ptr>)
    requires Owned(map[], s, owner)
    ensures s.held == {} ==> s.heap.blocks == map[]
  {
    if s.held == {} {
      assert forall x :: x !in s.heap.blocks;
    }
  }
}
