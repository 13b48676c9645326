/** The calls of the opendal C binding over one heap: options, operators, reading, writing and listing.  Whether
    the library behind a call fails, and with which message, is given with the call. */
module OpendalApi {
  import opened Basics
  import opened OpendalHeap

  type Options = map<string, string>

  /** Each pair is still to be copied or has been. */
  ghost predicate Split(all: Options, rest: Options, done: Options) {
    && (forall k :: k in all <==> k in rest || k in done)
    && (forall k :: k in rest ==> k !in done && rest[k] == all[k])
    && (forall k :: k in done ==> k in all && done[k] == all[k])
  }

  lemma OneMoved(all: Options, rest: Options, done: Options, k: string)
    requires Split(all, rest, done) && k in rest
    ensures Split(all, rest - {k}, done[k := rest[k]]) && |rest - {k}| < |rest|
  {
    assert (rest - {k}).Keys == rest.Keys - {k};
  }

  lemma AllMoved(all: Options, done: Options)
    requires Split(all, map[], done)
    ensures done == all
  {
    assert done.Keys == all.Keys;
  }

  /** A hash map of options on the heap, changed in place. */
  class OptionMap {
    var entries: Options

    constructor ()
      ensures entries == map[]
    {
      entries := map[];
    }

    method Insert(key: string, value: string)
      modifies this
      ensures entries == old(entries)[key := value]
    {
      entries := entries[key := value];
    }
  }

  /** opendal_operator_options: a handle around such a map. */
  class OperatorOptions {
    const handle: Ptr
    const inner: OptionMap

    constructor (handle: Ptr)
      ensures this.handle == handle && fresh(inner) && inner.entries == map[]
    {
      this.handle := handle;
      inner := new OptionMap();
    }
  }

  /** opendal_operator: options of its own, and a backend that keeps what was last written to each path in a
      buffer of its own. */
  class Operator {
    const handle: Ptr
    const config: OptionMap
    var files: map<string, array<byte>>
    ghost var stored: map<string, seq<byte>>

    /** The buffers still hold what was stored. */
    ghost predicate Valid()
      reads this, files.Values
    {
      files.Keys == stored.Keys && forall path :: path in files ==> files[path][..] == stored[path]
    }

    constructor (handle: Ptr, config: OptionMap)
      ensures this.handle == handle && this.config == config && files == map[] && Valid() && stored == map[]
    {
      this.handle, this.config, files, stored := handle, config, map[], map[];
    }

    /** The service takes the bytes as they are now: they are copied into a new buffer. */
    method Store(path: string, bytes: array<byte>)
      requires Valid()
      modifies this
      ensures Valid() && stored == old(stored)[path := bytes[..]]
      ensures forall p :: p in files ==> fresh(files[p]) || (p in old(files) && files[p] == old(files)[p])
    {
      var copy := CopyOf(bytes);
      files, stored := files[path := copy], stored[path := bytes[..]];
    }
  }

  /** A new buffer with the same bytes. */
  method CopyOf(bytes: array<byte>) returns (copy: array<byte>)
    ensures fresh(copy) && copy[..] == bytes[..]
  {
    copy := new byte[bytes.Length];
    forall i | 0 <= i < bytes.Length {
      copy[i] := bytes[i];
    }
  }

  /** opendal_lister over the entries not yet returned. */
  class Lister {
    const handle: Ptr
    var entries: seq<string>

    constructor (handle: Ptr, entries: seq<string>)
      ensures this.handle == handle && this.entries == entries
    {
      this.handle, this.entries := handle, entries;
    }
  }

  /** The binding's heap and the handles its caller holds. */
  class Binding {
    var session: Session

    /** The heap is what calls of the binding made of an empty one. */
    ghost predicate Valid()
      reads this
    {
      Reached(session)
    }

    constructor ()
      ensures Valid() && session == EMPTY_SESSION
    {
      session := EMPTY_SESSION;
      new;
      EmptyReached();
    }

    /** A call came back with a handle that was not there before. */
    twostate predicate IsNew(p: Ptr)
      reads this
    {
      p != NULL && p !in old(session).held && session.held == old(session).held + {p}
    }

    /** A call came back with an error that was not there before, with this message behind it. */
    twostate predicate IsNewError(error: Ptr, message: seq<byte>)
      reads this
    {
      IsNew(error) && Contents(session.heap, error) == message
    }

    /** Box::into_raw(Box::new(...)) twice. */
    method MakePair(kind: Kind) returns (p: Ptr)
      requires Valid() && IsPair(kind)
      modifies this
      ensures Valid() && IsNew(p) && session == Do(old(session), Make(kind))
    {
      p := session.heap.next + 1;
      NewHandle(session, p);
      StepReached(session, Make(kind));
      session := Do(session, Make(kind));
    }

    /** The bytes of a read in their box. */
    method MakeSlice(data: seq<byte>) returns (p: Ptr)
      requires Valid()
      modifies this
      ensures Valid() && IsNew(p) && session == Do(old(session), MakeBytes(data))
      ensures Contents(session.heap, p) == data
    {
      p := SliceHandle(session.heap, data);
      NewHandle(session, p);
      SliceContents(session, BytesHandle, data);
      StepReached(session, MakeBytes(data));
      session := Do(session, MakeBytes(data));
    }

    /** opendal_error::new. */
    method MakeError(message: seq<byte>) returns (error: Ptr)
      requires Valid()
      modifies this
      ensures Valid() && IsNewError(error, message) && session == Do(old(session), Fail(message))
    {
      error := SliceHandle(session.heap, message);
      NewHandle(session, error);
      SliceContents(session, ErrorHandle, message);
      StepReached(session, Fail(message));
      session := Do(session, Fail(message));
    }

    /** opendal_operator_options_new. */
    method OptionsNew() returns (options: OperatorOptions)
      requires Valid()
      modifies this
      ensures Valid() && fresh(options) && fresh(options.inner) && options.inner.entries == map[]
      ensures IsNew(options.handle)
    {
      var p := MakePair(Kind.OperatorOptions);
      options := new OperatorOptions(p);
    }

    /** The loop of opendal_operator_new: every pair is copied into a new map, whatever the order of the
        iteration. */
    method CopyOptions(options: OperatorOptions?) returns (copy: OptionMap)
      ensures fresh(copy) && copy.entries == if options == null then map[] else options.inner.entries
    {
      copy := new OptionMap();
      if options != null {
        CopyEntries(options.inner, copy);
      }
    }

    method CopyEntries(from: OptionMap, to: OptionMap)
      requires from != to && to.entries == map[]
      modifies to
      ensures to.entries == from.entries
    {
      var rest := from.entries;
      while rest != map[]
        invariant Split(from.entries, rest, to.entries)
        decreases |rest|
      {
        assert rest.Keys != {};
        var k :| k in rest;
        OneMoved(from.entries, rest, to.entries, k);
        to.Insert(k, rest[k]);
        rest := rest - {k};
      }
      AllMoved(from.entries, to.entries);
    }

    /** opendal_operator_new: a scheme that is not known, options the service refuses, or a new operator with a
        copy of the options. */
    method OperatorNew(options: OperatorOptions?, refused: Option<seq<byte>>) returns (op: Operator?, error: Ptr)
      requires Valid()
      modifies this
      ensures Valid()
      ensures refused.Some? ==> op == null && IsNewError(error, refused.value)
      ensures refused.None? ==>
        error == NULL && op != null && fresh(op) && fresh(op.config) && op.Valid() && op.stored == map[] &&
        IsNew(op.handle) &&
        op.config.entries == if options == null then map[] else options.inner.entries
    {
      if refused.Some? {
        error := MakeError(refused.value);
        return null, error;
      }
      var config := CopyOptions(options);
      var p := MakePair(Kind.Operator);
      op := new Operator(p, config);
      return op, NULL;
    }

    /** opendal_operator_write. */
    method Write(op: Operator, path: string, bytes: array<byte>, refused: Option<seq<byte>>) returns (error: Ptr)
      requires Valid() && op.Valid()
      modifies this, op
      ensures Valid() && op.Valid()
      ensures refused.None? ==>
        error == NULL && op.stored == old(op.stored)[path := bytes[..]] && session == old(session)
      ensures refused.Some? ==> op.stored == old(op.stored) && IsNewError(error, refused.value)
      ensures forall p :: p in op.files ==>
        fresh(op.files[p]) || (p in old(op.files) && op.files[p] == old(op.files)[p])
    {
      if refused.Some? {
        error := MakeError(refused.value);
        return;
      }
      op.Store(path, bytes);
      return NULL;
    }

    /** opendal_operator_read: new bytes with what was last written, or an error, also for a missing path. */
    method Read(op: Operator, path: string, refused: Option<seq<byte>>, missing: seq<byte>)
        returns (data: array?<byte>, handle: Ptr, error: Ptr)
      requires Valid() && op.Valid()
      modifies this
      ensures Valid()
      ensures data != null <==> refused.None? && path in op.stored
      ensures data != null ==>
        error == NULL && fresh(data) && data[..] == op.stored[path] && IsNew(handle) &&
        Contents(session.heap, handle) == data[..]
      ensures data == null ==>
        handle == NULL && IsNewError(error, if refused.Some? then refused.value else missing)
    {
      if refused.Some? || path !in op.files {
        error := MakeError(if refused.Some? then refused.value else missing);
        return null, NULL, error;
      }
      handle := MakeSlice(op.files[path][..]);
      data := CopyOf(op.files[path]);
      return data, handle, NULL;
    }

    /** opendal_operator_list. */
    method List(op: Operator, entries: seq<string>, refused: Option<seq<byte>>) returns (lister: Lister?, error: Ptr)
      requires Valid()
      modifies this
      ensures Valid()
      ensures refused.Some? ==> lister == null && IsNewError(error, refused.value)
      ensures refused.None? ==>
        error == NULL && lister != null && fresh(lister) && lister.entries == entries && IsNew(lister.handle)
    {
      if refused.Some? {
        error := MakeError(refused.value);
        return null, error;
      }
      var p := MakePair(Kind.Lister);
      lister := new Lister(p, entries);
      return lister, NULL;
    }

    /** opendal_lister_next: the next entry, an error in its place, or null and null at the end. */
    method Next(lister: Lister, refused: Option<seq<byte>>) returns (entry: Ptr, name: string, error: Ptr)
      requires Valid()
      modifies this, lister
      ensures Valid()
      ensures old(lister.entries) == [] ==>
        entry == NULL && error == NULL && lister.entries == [] && session == old(session)
      ensures old(lister.entries) != [] ==> lister.entries == old(lister.entries)[1..]
      ensures old(lister.entries) != [] && refused.None? ==>
        error == NULL && IsNew(entry) && name == old(lister.entries)[0]
      ensures old(lister.entries) != [] && refused.Some? ==> entry == NULL && IsNewError(error, refused.value)
    {
      if lister.entries == [] {
        return NULL, "", NULL;
      }
      name := lister.entries[0];
      lister.entries := lister.entries[1..];
      if refused.Some? {
        error := MakeError(refused.value);
        return NULL, "", error;
      }
      entry := MakePair(Kind.Entry);
      error := NULL;
    }

    /** The free function that belongs to a handle or an error, called once for each: its allocations go, and
        when nothing is held any more nothing is allocated. */
    method Release(p: Ptr)
      requires Valid() && p in session.held
      modifies this
      ensures Valid() && session.held == old(session).held - {p} && session.heap.ok
      ensures session.heap.blocks == old(session).heap.blocks - {p, Behind(old(session).heap, p)}
      ensures session.held == {} ==> session.heap.blocks == map[]
    {
      StepReached(session, Free(p));
      ReleasedBlocks(session, p);
      session := Do(session, Free(p));
    }
  }
}
