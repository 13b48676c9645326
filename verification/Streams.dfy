/** The two buffers a body passes through: the shared read buffer of upload.c and the growing response buffer
    of Get. */
module Streams {
  import opened Basics
  import opened Ownership
  import opened PollLoop
  import opened HyperLib

  /** Total bytes memcpy moves while these chunks are appended one by one: each append copies all that was
      there before and the chunk itself. */
  function CopyCost(chunks: seq<seq<byte>>): nat {
    if chunks == [] then 0 else CopyCost(chunks[..|chunks| - 1]) + |Concat(chunks)|
  }

  /** Chunk number i is copied once by its own append and once by each later one. */
  function WeightedLength(chunks: seq<seq<byte>>): nat {
    if chunks == [] then 0 else |chunks[0]| * |chunks| + WeightedLength(chunks[1..])
  }

  /** The size asked of malloc: the sum of the lengths modulo the word size. */
  function RequestedSize(bodyLen: nat, chunkLen: nat): nat {
    (bodyLen + chunkLen) % WORD_SIZE
  }

  /** The size asked for leaves room for both copies exactly when the sum does not wrap. */
  lemma NoRoomAfterWrap(bodyLen: nat, chunkLen: nat)
    requires bodyLen < WORD_SIZE && chunkLen < WORD_SIZE
    ensures bodyLen + chunkLen <= RequestedSize(bodyLen, chunkLen) <==> bodyLen + chunkLen < WORD_SIZE
    ensures bodyLen + chunkLen >= WORD_SIZE ==> RequestedSize(bodyLen, chunkLen) < bodyLen
  {
  }

  /** hyper_buf_copy: a new buffer with the first n bytes. */
  method BufCopy(src: array<byte>, n: nat) returns (copy: array<byte>)
    requires n <= src.Length
    ensures fresh(copy) && copy[..] == src[..n]
  {
    copy := new byte[n];
    forall i | 0 <= i < n {
      copy[i] := src[i];
    }
  }

  class FileUpload {
    const file: seq<byte>
    const handle: Handle
    const buf: array<byte>               // upload.buf, shared by all reads
    var offset: nat                      // bytes read so far
    ghost var emitted: seq<array<byte>>  // every chunk handed to hyper
    ghost var chunks: seq<seq<byte>>     // what each held when it was handed over

    /** The chunks given away still hold what they held, and together they are the first n bytes of the file. */
    ghost predicate Covers(n: nat)
      reads this, emitted
    {
      && buf.Length == FILE_BUFFER_SIZE
      && n <= offset <= |file|
      && buf !in emitted
      && |emitted| == |chunks|
      && (forall i :: 0 <= i < |emitted| ==> emitted[i][..] == chunks[i])
      && Concat(chunks) == file[..n]
    }

    ghost predicate Valid()
      reads this, emitted
    {
      Covers(offset)
    }

    constructor (file: seq<byte>, handle: Handle)
      ensures Valid() && fresh(buf) && this.file == file && this.handle == handle
      ensures offset == 0 && emitted == [] && chunks == []
    {
      this.file, this.handle, offset, emitted, chunks := file, handle, 0, [], [];
      buf := new byte[FILE_BUFFER_SIZE];
    }

    /** read: the next n bytes of the file overwrite the front of the buffer. */
    method ReadFile(n: nat)
      requires offset + n <= |file| && n <= buf.Length
      modifies this`offset, buf
      ensures offset == old(offset) + n
      ensures buf[..n] == file[old(offset)..offset]
    {
      forall i | 0 <= i < n {
        buf[i] := file[offset + i];
      }
      offset := offset + n;
    }

    /** The chunk with the bytes read last goes to hyper. */
    ghost method Note(from: nat, chunk: array<byte>)
      requires Covers(from) && chunk != buf && chunk[..] == file[from..offset]
      modifies this`emitted, this`chunks
      ensures Valid() && emitted == old(emitted) + [chunk] && chunks == old(chunks) + [chunk[..]]
    {
      ConcatSnoc(chunks, chunk[..]);
      emitted, chunks := emitted + [chunk], chunks + [chunk[..]];
      assert file[..from] + file[from..offset] == file[..offset];
    }

    /** poll_req_upload.  The chunk is a copy, so the chunks given away earlier keep their bytes although the
        buffer is overwritten. */
    method PollReqUpload(hyper: Hyper, sys: SysResult) returns (code: nat, chunk: array?<byte>)
      requires Valid() && hyper.executing.next > 0
      requires sys.Bytes? ==> offset + sys.n <= |file| && sys.n <= FILE_BUFFER_SIZE
      modifies this, buf, hyper`calls
      ensures Valid() && hyper.calls == old(hyper.calls) + UploadCalls(handle, sys, hyper.Id())
      ensures code == if sys.Bytes? then POLL_READY else POLL_ERROR
      ensures offset == old(offset) + if sys.Bytes? then sys.n else 0
      ensures chunk != null <==> sys.Bytes? && sys.n > 0
      ensures chunk == null ==> emitted == old(emitted) && chunks == old(chunks)
      ensures chunk != null ==>
        fresh(chunk) && chunk[..] == file[old(offset)..offset] &&
        emitted == old(emitted) + [chunk] && chunks == old(chunks) + [chunk[..]]
    {
      hyper.Call(Use(handle));
      if sys.Bytes? && sys.n > 0 {
        ReadFile(sys.n);
        var copy := hyper.Create(Buffer);
        chunk := BufCopy(buf, sys.n);
        hyper.Call(Release(copy));
        Note(old(offset), chunk);
        return POLL_READY, chunk;
      }
      if sys.Bytes? {
        return POLL_READY, null;
      }
      return POLL_ERROR, null;
    }
  }

  class HttpResponse {
    var body: array?<byte>               // ResponseBody
    var bodyLen: nat                     // ResponseBodyLen
    var buffer: Option<Handle>           // the allocation body points to
    ghost var accepted: seq<seq<byte>>   // chunks appended so far
    ghost var copied: nat                // bytes moved by Memcpy so far

    ghost predicate Valid()
      reads this, body
    {
      && (body == null <==> buffer.None?)
      && bodyLen == |Contents()|
      && Contents() == Concat(accepted)
      && copied == CopyCost(accepted)
    }

    function Contents(): seq<byte>
      reads this, body
    {
      if body == null then [] else body[..]
    }

    constructor ()
      ensures Valid() && body == null && bodyLen == 0 && buffer.None? && accepted == [] && copied == 0
    {
      body, bodyLen, buffer, accepted, copied := null, 0, None, [], 0;
    }

    /** AppendToResponseBody: a larger buffer takes the place of the old one; without memory the response stays
        as it is and the iteration stops. */
    method Append(hyper: Hyper, chunk: array<byte>, memory: bool) returns (code: nat)
      requires Valid() && hyper.executing.next > 0 && body != chunk
      requires memory ==> bodyLen + chunk.Length < WORD_SIZE
      modifies this, hyper`calls
      ensures Valid()
      ensures code == if memory then ITER_CONTINUE else ITER_BREAK
      ensures memory ==>
        accepted == old(accepted) + [chunk[..]] && Contents() == old(Contents()) + chunk[..] &&
        fresh(body) && buffer == Some(Handle(ResponseBuffer, hyper.Id())) &&
        hyper.calls == old(hyper.calls) + AppendCalls(old(buffer), hyper.Id())
      ensures !memory ==> unchanged(this) && hyper.calls == old(hyper.calls)
    {
      if !memory {
        return ITER_BREAK;
      }
      var larger, handle := Grow(hyper, chunk);
      ConcatSnoc(accepted, chunk[..]);
      CopyCostSnoc(accepted, chunk[..]);
      accepted := accepted + [chunk[..]];
      body, bodyLen, buffer := larger, bodyLen + chunk.Length, Some(handle);
      return ITER_CONTINUE;
    }

    /** memcpy of the first n bytes of src to position `at` of dst. */
    method Memcpy(dst: array<byte>, at: nat, src: array<byte>, n: nat)
      requires dst != src && at + n <= dst.Length && n <= src.Length
      modifies dst, this`copied
      ensures dst[..] == old(dst[..at]) + src[..n] + old(dst[at + n..])
      ensures copied == old(copied) + n
    {
      forall i | 0 <= i < n {
        dst[at + i] := src[i];
      }
      copied := copied + n;
    }

    /** A new buffer with the old bytes and the chunk behind them; the old buffer is freed. */
    method Grow(hyper: Hyper, chunk: array<byte>) returns (larger: array<byte>, handle: Handle)
      requires Valid() && hyper.executing.next > 0 && body != chunk
      requires bodyLen + chunk.Length < WORD_SIZE
      modifies hyper`calls, this`copied
      ensures fresh(larger) && larger[..] == Contents() + chunk[..]
      ensures copied == old(copied) + bodyLen + chunk.Length
      ensures handle == Handle(ResponseBuffer, hyper.Id())
      ensures hyper.calls == old(hyper.calls) + AppendCalls(buffer, hyper.Id())
    {
      handle := hyper.Create(ResponseBuffer);
      NoRoomAfterWrap(bodyLen, chunk.Length);
      larger := new byte[RequestedSize(bodyLen, chunk.Length)];
      if body != null {
        MoveInto(larger, hyper);
      }
      hyper.Call(Use(handle));
      assert hyper.calls == old(hyper.calls) + AppendCalls(buffer, hyper.Id());
      assert larger[..bodyLen] == Contents();
      Memcpy(larger, bodyLen, chunk, chunk.Length);
    }

    /** The old bytes go to the front of the new buffer, and the old buffer is freed. */
    method MoveInto(larger: array<byte>, hyper: Hyper)
      requires Valid() && body != null && larger != body && bodyLen <= larger.Length
      modifies larger, hyper`calls, this`copied
      ensures larger[..bodyLen] == body[..] && copied == old(copied) + bodyLen
      ensures hyper.calls == old(hyper.calls) + [Use(buffer.value), Release(buffer.value)]
    {
      hyper.Call(Use(buffer.value));
      Memcpy(larger, 0, body, bodyLen);
      hyper.Call(Release(buffer.value));
    }
  }

  // ---------------------------------------------------------------- the cost of copying

  lemma CopyCostSnoc(chunks: seq<seq<byte>>, last: seq<byte>)
    ensures CopyCost(chunks + [last]) == CopyCost(chunks) + |Concat(chunks)| + |last|
  {
    ConcatSnoc(chunks, last);
    assert (chunks + [last])[..|chunks|] == chunks;
  }

  lemma {:induction false} WeightedSnoc(chunks: seq<seq<byte>>, last: seq<byte>)
    ensures WeightedLength(chunks + [last]) == WeightedLength(chunks) + |Concat(chunks)| + |last|
    decreases |chunks|
  {
    if chunks == [] {
      assert (chunks + [last])[1..] == [];
    } else {
      WeightedSnoc(chunks[1..], last);
      assert (chunks + [last])[1..] == chunks[1..] + [last];
      ConcatCons(chunks);
      OneMore(|chunks[0]|, |chunks|);
    }
  }

  lemma OneMore(c: nat, n: nat)
    ensures c * (n + 1) == c * n + c
  {
  }

  lemma {:induction false} ConcatCons(chunks: seq<seq<byte>>)
    requires chunks != []
    ensures |Concat(chunks)| == |chunks[0]| + |Concat(chunks[1..])|
    decreases |chunks|
  {
    var n := |chunks| - 1;
    if n > 0 {
      ConcatCons(chunks[..n]);
      assert chunks[1..][..n - 1] == chunks[..n][1..];
    }
  }

  /** The bytes copied for chunks c_0 .. c_{n-1} are exactly the sum of (n - i) * |c_i|. */
  lemma {:induction false} CopyCostExact(chunks: seq<seq<byte>>)
    ensures CopyCost(chunks) == WeightedLength(chunks)
    decreases |chunks|
  {
    if chunks != [] {
      var n := |chunks| - 1;
      CopyCostExact(chunks[..n]);
      assert chunks == chunks[..n] + [chunks[n]];
      WeightedSnoc(chunks[..n], chunks[n]);
    }
  }

  /** So they are at most n times the final length ... */
  lemma {:induction false} CopyCostByLength(chunks: seq<seq<byte>>)
    ensures CopyCost(chunks) <= |chunks| * |Concat(chunks)|
    decreases |chunks|
  {
    if chunks != [] {
      var n := |chunks| - 1;
      CopyCostByLength(chunks[..n]);
      ProductGrows(n, |Concat(chunks[..n])|, |Concat(chunks)|);
    }
  }

  lemma ProductGrows(n: nat, a: nat, b: nat)
    requires a <= b
    ensures n * a + b <= (n + 1) * b
  {
    assert n * a <= n * b;
  }

  /** ... and at most c * n * (n + 1) / 2 for chunks of at most c bytes. */
  lemma {:induction false} CopyCostQuadratic(chunks: seq<seq<byte>>, c: nat)
    requires forall i :: 0 <= i < |chunks| ==> |chunks[i]| <= c
    ensures 2 * CopyCost(chunks) <= c * (|chunks| * (|chunks| + 1))
    decreases |chunks|
  {
    if chunks != [] {
      CopyCostQuadratic(chunks[..|chunks| - 1], c);
      LengthBound(chunks, c);
      TriangleGrows(|chunks| - 1, c);
    }
  }

  lemma TriangleGrows(n: nat, c: nat)
    ensures c * (n * (n + 1)) + 2 * (c * (n + 1)) == c * ((n + 1) * (n + 2))
  {
    assert n * (n + 1) + 2 * (n + 1) == (n + 1) * (n + 2);
  }

  lemma {:induction false} LengthBound(chunks: seq<seq<byte>>, c: nat)
    requires forall i :: 0 <= i < |chunks| ==> |chunks[i]| <= c
    ensures |Concat(chunks)| <= c * |chunks|
    decreases |chunks|
  {
    if chunks != [] {
      LengthBound(chunks[..|chunks| - 1], c);
    }
  }
}
