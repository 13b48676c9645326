/** The sled wrapper: sled_get, sled_set, sled_del and sled_compare_and_swap in Rust, and the string methods of
    DB in Go.  Rust stands for "absent" by a null pointer in get and by length 0 in compare-and-swap; Go turns
    both into the empty string. */
module Sled {
  import opened Basics

  type Bytes = seq<byte>
  type Store = map<Bytes, Bytes>

  // ---------------------------------------------------------------- operations on the stored values

  datatype Op =
    | Get(key: Bytes)
    | Set(key: Bytes, val: Bytes)
    | Del(key: Bytes)
    | Cas(key: Bytes, before: Bytes, after: Bytes)

  datatype Outcome =
    | Got(val: Bytes)
    | Done
    | Swapped(actual: Bytes)    // success; `actual` is what the Go variable holds then
    | Refused(actual: Bytes)

  /** sled's own compare_and_swap on optional values. */
  function CompareAndSwap(db: Store, key: Bytes, before: Option<Bytes>, after: Option<Bytes>): (bool, Store) {
    var current := if key in db then Some(db[key]) else None;
    if current != before then (false, db)
    else (true, match after case None => db - {key} case Some(v) => db[key := v])
  }

  /** Length 0 means absent. */
  function Present(v: Bytes): Option<Bytes> {
    if v == [] then None else Some(v)
  }

  /** What one call through Go and Rust does to the store, and what Go reports. */
  function Perform(db: Store, op: Op): (Store, Outcome) {
    match op
    case Get(k) => (db, Got(if k in db then db[k] else []))
    case Set(k, v) => (db[k := v], Done)
    case Del(k) => (db - {k}, Done)
    case Cas(k, before, after) =>
      var r := CompareAndSwap(db, k, Present(before), Present(after));
      (r.1, if r.0 then Swapped([]) else Refused(if k in db then db[k] else []))
  }

  /** What the calls mean for the stored values.  A compare-and-swap that expects or installs "" expects or leaves the
      key absent; a refused one reports the current value and changes nothing. */
  lemma CallMeaning(db: Store, k: Bytes, v: Bytes, before: Bytes, after: Bytes)
    ensures Perform(db, Get(k)) == (db, Got(if k in db then db[k] else []))
    ensures Perform(db, Set(k, v)) == (db[k := v], Done)
    ensures Perform(db, Del(k)) == (db - {k}, Done)
    ensures (if before == [] then k !in db else k in db && db[k] == before) ==>
      Perform(db, Cas(k, before, after)) == (if after == [] then db - {k} else db[k := after], Swapped([]))
    ensures !(if before == [] then k !in db else k in db && db[k] == before) ==>
      Perform(db, Cas(k, before, after)) == (db, Refused(if k in db then db[k] else []))
  {
  }

  // ---------------------------------------------------------------- the reference: a total map with default ""

  /** Total maps with default "" and finitely many other values, as the map of those other values. */
  function Total(db: Store): Store {
    map k | k in db && db[k] != [] :: db[k]
  }

  function At(m: Store, key: Bytes): Bytes {
    if key in m then m[key] else []
  }

  function Put(m: Store, key: Bytes, v: Bytes): Store {
    if v == [] then m - {key} else m[key := v]
  }

  /** Compare-and-swap succeeds if and only if the current value is the expected one. */
  function Reference(m: Store, op: Op): (Store, Outcome) {
    match op
    case Get(k) => (m, Got(At(m, k)))
    case Set(k, v) => (Put(m, k, v), Done)
    case Del(k) => (Put(m, k, []), Done)
    case Cas(k, before, after) =>
      if At(m, k) == before then (Put(m, k, after), Swapped([])) else (m, Refused(At(m, k)))
  }

  /** A compare-and-swap that expects "" on a key that holds an empty value. */
  predicate ExpectsAbsentButEmpty(db: Store, op: Op) {
    op.Cas? && op.before == [] && op.key in db && db[op.key] == []
  }

  lemma OpRefines(db: Store, op: Op)
    ensures ExpectsAbsentButEmpty(db, op) <==> Perform(db, op).1 != Reference(Total(db), op).1
    ensures !ExpectsAbsentButEmpty(db, op) ==> Total(Perform(db, op).0) == Reference(Total(db), op).0
  {
  }

  // ---------------------------------------------------------------- whole runs

  function Outcomes(db: Store, ops: seq<Op>): seq<Outcome>
    decreases |ops|
  {
    if ops == [] then [] else [Perform(db, ops[0]).1] + Outcomes(Perform(db, ops[0]).0, ops[1..])
  }

  function After(db: Store, ops: seq<Op>): Store
    decreases |ops|
  {
    if ops == [] then db else After(Perform(db, ops[0]).0, ops[1..])
  }

  function ReferenceOutcomes(m: Store, ops: seq<Op>): seq<Outcome>
    decreases |ops|
  {
    if ops == [] then [] else [Reference(m, ops[0]).1] + ReferenceOutcomes(Reference(m, ops[0]).0, ops[1..])
  }

  predicate MeetsEmptyValue(db: Store, ops: seq<Op>)
    decreases |ops|
  {
    ops != [] && (ExpectsAbsentButEmpty(db, ops[0]) || MeetsEmptyValue(Perform(db, ops[0]).0, ops[1..]))
  }

  /** A sequence of calls reports what a total map with default "" would report, if and only if no
      compare-and-swap that expects "" meets a key holding an empty value. */
  lemma {:induction false} RunRefines(db: Store, ops: seq<Op>)
    ensures Outcomes(db, ops) == ReferenceOutcomes(Total(db), ops) <==> !MeetsEmptyValue(db, ops)
    decreases |ops|
  {
    if ops != [] {
      var op, db', m := ops[0], Perform(db, ops[0]).0, Total(db);
      OpRefines(db, op);
      RunRefines(db', ops[1..]);
      assert Outcomes(db, ops)[1..] == Outcomes(db', ops[1..]);
      assert ReferenceOutcomes(m, ops)[1..] == ReferenceOutcomes(Reference(m, op).0, ops[1..]);
    }
  }

  /** Not every run does: a key set to "" is not absent, although Get reports the same for both. */
  lemma EmptyIsNotAbsent(k: Bytes, v: Bytes)
    ensures Outcomes(map[], [Set(k, []), Cas(k, [], v)]) == [Done, Refused([])]
    ensures ReferenceOutcomes(map[], [Set(k, []), Cas(k, [], v)]) == [Done, Swapped([])]
  {
    var cas := Cas(k, [], v);
    assert [Set(k, []), cas][1..] == [cas];
    assert Outcomes(map[k := []], [cas]) == [Refused([])] + Outcomes(map[k := []], []);
    assert Put(map[], k, []) == map[];
    assert ReferenceOutcomes(map[], [cas]) == [Swapped([])] + ReferenceOutcomes(Put(map[], k, v), []);
  }

  /** The keys last set to "", from the calls alone. */
  function Emptied(e: set<Bytes>, op: Op): set<Bytes> {
    match op
    case Set(k, v) => if v == [] then e + {k} else e - {k}
    case Del(k) => e - {k}
    case _ => e
  }

  /** Does a compare-and-swap that expects "" come when its key was last set to ""? */
  predicate ExpectsEmptied(e: set<Bytes>, ops: seq<Op>)
    decreases |ops|
  {
    ops != [] &&
    ((ops[0].Cas? && ops[0].before == [] && ops[0].key in e) || ExpectsEmptied(Emptied(e, ops[0]), ops[1..]))
  }

  ghost function EmptyKeys(db: Store): set<Bytes> {
    set k | k in db && db[k] == []
  }

  lemma EmptyKeysFollow(db: Store, op: Op)
    ensures EmptyKeys(Perform(db, op).0) == Emptied(EmptyKeys(db), op)
  {
  }

  lemma {:induction false} MeetsByCalls(db: Store, ops: seq<Op>)
    ensures ExpectsEmptied(EmptyKeys(db), ops) <==> MeetsEmptyValue(db, ops)
    decreases |ops|
  {
    if ops != [] {
      EmptyKeysFollow(db, ops[0]);
      MeetsByCalls(Perform(db, ops[0]).0, ops[1..]);
    }
  }

  /** In the caller's terms: a sequence of calls reports what a total map would report, if and only if no
      compare-and-swap expects "" from a key that was last set to "".  A new store has no such keys. */
  lemma RunRefinesByCalls(db: Store, ops: seq<Op>)
    ensures Outcomes(db, ops) == ReferenceOutcomes(Total(db), ops) <==> !ExpectsEmptied(EmptyKeys(db), ops)
    ensures Outcomes(map[], ops) == ReferenceOutcomes(map[], ops) <==> !ExpectsEmptied({}, ops)
  {
    RunRefines(db, ops);
    MeetsByCalls(db, ops);
    RunRefines(map[], ops);
    MeetsByCalls(map[], ops);
    assert Total(map[]) == map[] && EmptyKeys(map[]) == {};
  }

  predicate NoEmptyValue(db: Store) {
    forall k :: k in db ==> db[k] != []
  }

  /** Nothing but setting an empty value brings one into the store; compare-and-swap never does. */
  lemma OnlySetMakesEmpty(db: Store, op: Op)
    requires NoEmptyValue(db)
    ensures NoEmptyValue(Perform(db, op).0) <==> !(op.Set? && op.val == [])
  {
    if op.Set? {
      assert op.key in Perform(db, op).0;
    }
  }

  /** What a caller can rely on: start without empty values, never set one, and the wrapper is a total map. */
  lemma {:induction false} CarefulRunRefines(db: Store, ops: seq<Op>)
    requires NoEmptyValue(db) && forall i :: 0 <= i < |ops| ==> ops[i].Set? ==> ops[i].val != []
    ensures Outcomes(db, ops) == ReferenceOutcomes(db, ops) && NoEmptyValue(After(db, ops))
    decreases |ops|
  {
    if ops != [] {
      var op, rest := ops[0], ops[1..];
      OnlySetMakesEmpty(db, op);
      OpRefines(db, op);
      CarefulRunRefines(Perform(db, op).0, rest);
      assert Total(db) == db && Total(Perform(db, op).0) == Perform(db, op).0;
    }
  }

  // ---------------------------------------------------------------- chains of compare-and-swap

  /** The successful swaps on one key in a history, in order, whichever client made them. */
  function Swaps(db: Store, ops: seq<Op>, key: Bytes): seq<(Bytes, Bytes)>
    decreases |ops|
  {
    if ops == [] then []
    else
      var r := Perform(db, ops[0]);
      (if r.1.Swapped? && ops[0].key == key then [(ops[0].before, ops[0].after)] else []) + Swaps(r.0, ops[1..], key)
  }

  /** Each swap expects what the one before it installed. */
  predicate Linked(from: Bytes, swaps: seq<(Bytes, Bytes)>, to: Bytes)
    decreases |swaps|
  {
    if swaps == [] then from == to
    else swaps[0].0 == from && Linked(swaps[0].1, swaps[1..], to)
  }

  /** In a history of compare-and-swaps by any number of clients, the successful ones on a key form a chain from
      its first value to its last. */
  lemma {:induction false} SwapsFormChain(db: Store, ops: seq<Op>, key: Bytes)
    requires forall i :: 0 <= i < |ops| ==> ops[i].Cas?
    ensures Linked(At(db, key), Swaps(db, ops, key), At(After(db, ops), key))
    decreases |ops|
  {
    if ops != [] {
      var r := Perform(db, ops[0]);
      var rest := Swaps(r.0, ops[1..], key);
      SwapsFormChain(r.0, ops[1..], key);
      if r.1.Swapped? && ops[0].key == key {
        assert ([(ops[0].before, ops[0].after)] + rest)[1..] == rest;
      } else {
        assert [] + rest == rest;
      }
    }
  }

  // ---------------------------------------------------------------- buffers

  const NULL: nat := 0
  const DANGLING: nat := 1  // where an empty boxed slice points: nothing is allocated

  /** What the allocator holds: each buffer with its bytes, its capacity being their number. */
  datatype Memory = Memory(buffers: map<nat, Bytes>, next: nat)
  {
    predicate Valid() {
      next > DANGLING && forall p :: p in buffers ==> DANGLING < p < next && buffers[p] != []
    }
  }

  /** leak_buf: a boxed slice is exactly as large as its bytes; an empty one is not allocated. */
  function LeakBuf(m: Memory, v: Bytes): (Memory, nat) {
    if v == [] then (m, DANGLING) else (Memory(m.buffers[m.next := v], m.next + 1), m.next)
  }

  /** May sled_free_buf be called with these arguments?  A size of 0 frees nothing; any other must be exactly
      the size that was allocated. */
  predicate MayFree(m: Memory, p: nat, size: nat) {
    size == 0 || (p in m.buffers && |m.buffers[p]| == size)
  }

  function FreeBuf(m: Memory, p: nat, size: nat): Memory {
    if size == 0 then m else m.(buffers := m.buffers - {p})
  }

  /** A value is handed out, or one that was handed out is freed by its length. */
  datatype BufferCall = HandOut(v: Bytes) | GiveBack(p: nat)

  /** The allocator, and the length of each non-empty value that was handed out and not yet freed. */
  datatype Lending = Lending(memory: Memory, lent: map<nat, nat>)

  function Handle(l: Lending, c: BufferCall): Lending
    requires c.GiveBack? ==> c.p in l.lent
  {
    match c
    case HandOut(v) =>
      var (m, p) := LeakBuf(l.memory, v);
      Lending(m, if v == [] then l.lent else l.lent[p := |v|])
    case GiveBack(p) => Lending(FreeBuf(l.memory, p, l.lent[p]), l.lent - {p})
  }

  /** A non-empty value comes in a new buffer of its size, an empty one in none; freeing takes just its buffer. */
  lemma BufferCallEffect(l: Lending, v: Bytes, p: nat)
    requires l.memory.Valid()
    ensures v != [] ==>
      Handle(l, HandOut(v)) == Lending(Memory(l.memory.buffers[l.memory.next := v], l.memory.next + 1),
                                       l.lent[l.memory.next := |v|])
    ensures Handle(l, HandOut([])) == l
    ensures p in l.lent && l.lent[p] > 0 ==>
      Handle(l, GiveBack(p)) == Lending(Memory(l.memory.buffers - {p}, l.memory.next), l.lent - {p})
  {
  }

  /** A run, as long as only values that are out are freed. */
  function RunBuffers(l: Lending, calls: seq<BufferCall>): Lending
    decreases |calls|
  {
    if calls == [] || (calls[0].GiveBack? && calls[0].p !in l.lent) then l
    else RunBuffers(Handle(l, calls[0]), calls[1..])
  }

  /** Beside what was allocated before, exactly the values that are out are allocated, and each may be freed by
      the length its holder knows. */
  ghost predicate Accounted(base: map<nat, Bytes>, l: Lending) {
    && l.memory.Valid()
    && l.memory.buffers.Keys == base.Keys + l.lent.Keys && base.Keys !! l.lent.Keys
    && (forall p :: p in base ==> l.memory.buffers[p] == base[p])
    && (forall p :: p in l.lent ==> l.lent[p] > 0 && MayFree(l.memory, p, l.lent[p]))
  }

  lemma HandleAccounted(base: map<nat, Bytes>, l: Lending, c: BufferCall)
    requires Accounted(base, l) && (c.GiveBack? ==> c.p in l.lent)
    ensures Accounted(base, Handle(l, c))
  {
    if c.HandOut? && c.v != [] {
      assert l.memory.next !in l.memory.buffers;
    }
  }

  /** In any run, every free names exactly the size that was allocated, and once each non-empty value has been
      freed the buffers are those of before. */
  lemma {:induction false} BuffersReturn(base: map<nat, Bytes>, l: Lending, calls: seq<BufferCall>)
    requires Accounted(base, l)
    ensures Accounted(base, RunBuffers(l, calls))
    ensures forall p :: p in RunBuffers(l, calls).lent ==>
      p in RunBuffers(l, calls).memory.buffers &&
      |RunBuffers(l, calls).memory.buffers[p]| == RunBuffers(l, calls).lent[p]
    ensures RunBuffers(l, calls).lent == map[] ==> RunBuffers(l, calls).memory.buffers == base
    decreases |calls|
  {
    if calls != [] && !(calls[0].GiveBack? && calls[0].p !in l.lent) {
      HandleAccounted(base, l, calls[0]);
      BuffersReturn(base, Handle(l, calls[0]), calls[1..]);
    }
  }

  /** A Go string over a buffer: unsafe.String(p, len). */
  datatype Value = Value(p: nat, len: nat)

  /** How sled_compare_and_swap comes back, with what the caller's pointer and length hold then; a write through
      a null pointer ends the program. */
  datatype CasReturn = Compared(ok: bool, actual: Option<nat>, actualLen: nat) | Crashed

  /** How CASString comes back; without a variable for it there is no actual value. */
  datatype CasResult = Answered(ok: bool, actual: Option<Value>) | Crashed

  class DB {
    var store: Store
    var memory: Memory
    ghost var owed: set<nat>   // buffers behind values that were returned and not yet freed

    /** Every live buffer is behind exactly one value that is still to be freed. */
    ghost predicate Valid()
      reads this
    {
      memory.Valid() && memory.buffers.Keys == owed
    }

    function Text(v: Value): Bytes
      reads this
    {
      if v.len > 0 && v.p in memory.buffers then memory.buffers[v.p] else []
    }

    /** These buffers are live and hold what they held. */
    twostate predicate StillThere(ps: set<nat>)
      reads this
    {
      forall p :: p in ps ==>
        p in memory.buffers && p in old(memory).buffers && memory.buffers[p] == old(memory).buffers[p]
    }

    constructor ()
      ensures Valid() && store == map[] && owed == {}
    {
      store, memory, owed := map[], Memory(map[], 2), {};
    }

    /** leak_buf, with its length written through a pointer. */
    method Leak(v: Bytes) returns (p: nat, len: nat)
      requires Valid()
      modifies this`memory, this`owed
      ensures Valid() && (memory, p) == LeakBuf(old(memory), v) && len == |v|
      ensures owed == old(owed) + if v == [] then {} else {p}
      ensures p != NULL && Text(Value(p, len)) == v && StillThere(old(owed))
      ensures v != [] ==> p !in old(owed)
    {
      var r := LeakBuf(memory, v);
      memory, p, len := r.0, r.1, |v|;
      owed := owed + if v == [] then {} else {p};
    }

    /** sled_set behind SetString. */
    method SetString(key: Bytes, val: Bytes)
      requires Valid()
      modifies this`store
      ensures Valid() && store == Perform(old(store), Set(key, val)).0
    {
      store := store[key := val];
    }

    /** sled_del behind DelString. */
    method DelString(key: Bytes)
      requires Valid()
      modifies this`store
      ensures Valid() && store == Perform(old(store), Del(key)).0
    {
      store := store - {key};
    }

    /** sled_get: null and an untouched length, or a leaked copy. */
    method SledGet(key: Bytes, vallen0: nat) returns (val: nat, vallen: nat)
      requires Valid()
      modifies this`memory, this`owed
      ensures Valid()
      ensures StillThere(old(owed))
      ensures key !in store ==> val == NULL && vallen == vallen0 && memory == old(memory) && owed == old(owed)
      ensures key in store ==>
        val != NULL && vallen == |store[key]| && Text(Value(val, vallen)) == store[key] &&
        owed == old(owed) + (if vallen == 0 then {} else {val}) && (vallen > 0 ==> val !in old(owed))
    {
      if key in store {
        val, vallen := Leak(store[key]);
      } else {
        val, vallen := NULL, vallen0;
      }
    }

    /** GetString. */
    method GetString(key: Bytes) returns (v: Value)
      requires Valid()
      modifies this`memory, this`owed
      ensures Valid() && Got(Text(v)) == Perform(store, Get(key)).1
      ensures v.len == |Text(v)| && StillThere(old(owed))
      ensures owed == old(owed) + (if v.len == 0 then {} else {v.p}) && (v.len > 0 ==> v.p !in old(owed))
    {
      var valLen := 0;
      var val;
      val, valLen := SledGet(key, valLen);
      v := Value(val, valLen);
    }

    /** sled_compare_and_swap: on a mismatch the length is set, and the pointer too if there is a value.  The
        caller's pointer may be null, and is written through all the same. */
    method SledCompareAndSwap(key: Bytes, oldVal: Bytes, newVal: Bytes, actual0: Option<nat>, actualLen0: nat)
        returns (r: CasReturn)
      requires Valid()
      modifies this
      ensures Valid() && StillThere(old(owed))
      ensures store == CompareAndSwap(old(store), key, Present(oldVal), Present(newVal)).1
      ensures r.Crashed? <==>
        actual0.None? && key in old(store) && !CompareAndSwap(old(store), key, Present(oldVal), Present(newVal)).0
      ensures r.Compared? ==> r.ok == CompareAndSwap(old(store), key, Present(oldVal), Present(newVal)).0
      ensures r.Compared? && (r.ok || key !in old(store)) ==>
        r.actual == actual0 && r.actualLen == (if r.ok then actualLen0 else 0) &&
        memory == old(memory) && owed == old(owed)
      ensures r.Compared? && !r.ok && key in old(store) ==>
        r.actual.Some? && r.actual != Some(NULL) && r.actualLen == |store[key]| &&
        Text(Value(r.actual.value, r.actualLen)) == store[key] &&
        owed == old(owed) + (if r.actualLen == 0 then {} else {r.actual.value}) &&
        (r.actualLen > 0 ==> r.actual.value !in old(owed))
    {
      var before := if |oldVal| == 0 then None else Some(oldVal);
      var after := if |newVal| == 0 then None else Some(newVal);
      var swap := CompareAndSwap(store, key, before, after);
      store := swap.1;
      if swap.0 {
        return Compared(true, actual0, actualLen0);
      }
      if key !in store {
        return Compared(false, actual0, 0);
      }
      var p, len := Leak(store[key]);
      if actual0.None? {
        return CasReturn.Crashed;
      }
      return Compared(false, Some(p), len);
    }

    /** CASString; the caller may pass nil for the actual value, and crashes if there is one to be written. */
    method CASString(key: Bytes, oldVal: Bytes, newVal: Bytes, wantActual: bool) returns (r: CasResult)
      requires Valid()
      modifies this
      ensures Valid() && StillThere(old(owed)) && store == Perform(old(store), Cas(key, oldVal, newVal)).0
      ensures r.Crashed? <==>
        !wantActual && key in old(store) && Perform(old(store), Cas(key, oldVal, newVal)).1.Refused?
      ensures r.Answered? ==>
        r.actual.Some? == wantActual && r.ok == Perform(old(store), Cas(key, oldVal, newVal)).1.Swapped?
      ensures r.Answered? && wantActual ==>
        && Perform(old(store), Cas(key, oldVal, newVal)).1.actual == Text(r.actual.value)
        && r.actual.value.len == |Text(r.actual.value)|
        && owed == old(owed) + (if r.actual.value.len == 0 then {} else {r.actual.value.p})
        && (r.actual.value.len > 0 ==> r.actual.value.p !in old(owed))
      ensures r.Answered? && !wantActual ==> memory == old(memory) && owed == old(owed)
    {
      var actualVal := if wantActual then Some(NULL) else None;
      var c := SledCompareAndSwap(key, oldVal, newVal, actualVal, 0);
      if c.Crashed? {
        return CasResult.Crashed;
      }
      return Answered(c.ok, if wantActual then Some(Value(c.actual.value, c.actualLen)) else None);
    }

    /** Value.Free on a value that has not been freed: always with the size that was allocated, and nothing but
        its buffer goes. */
    method Free(v: Value)
      requires Valid()
      requires v.len > 0 ==> v.p in owed && v.len == |Text(v)|
      modifies this`memory, this`owed
      ensures Valid() && MayFree(old(memory), v.p, v.len)
      ensures v.len > 0 ==> v.p in old(memory).buffers && |old(memory).buffers[v.p]| == v.len
      ensures owed == old(owed) - if v.len == 0 then {} else {v.p}
      ensures memory.buffers == old(memory).buffers - if v.len == 0 then {} else {v.p}
    {
      memory := FreeBuf(memory, v.p, v.len);
      owed := owed - if v.len == 0 then {} else {v.p};
    }
  }
}
