/** Bounded capture of a process's output: the first bytes and the last bytes of everything written. */
module Capture {
  import opened Records

  const USIZE_MAX := 0xffff_ffff_ffff_ffff

  function Min(a: nat, b: nat): nat { if a < b then a else b }

  /** The first `n` bytes, or all of them. */
  function First(bytes: Bytes, n: nat): Bytes {
    bytes[..Min(n, |bytes|)]
  }

  /** What follows the first `n` bytes. */
  function Rest(bytes: Bytes, n: nat): Bytes {
    bytes[Min(n, |bytes|)..]
  }

  /** The last `n` bytes, or all of them. */
  function Last(bytes: Bytes, n: nat): Bytes {
    bytes[|bytes| - Min(n, |bytes|)..]
  }

  /** The first half of the limit, of the whole stream. */
  function HeadOf(stream: Bytes, limit: nat): Bytes {
    First(stream, limit / 2)
  }

  /** The last bytes, up to the rest of the limit, of what follows the head. */
  function TailOf(stream: Bytes, limit: nat): Bytes {
    Last(Rest(stream, limit / 2), limit - limit / 2)
  }

  class CappedOutput {
    var head: Bytes
    var tail: Bytes
    var total: nat
    const limit: nat
    /** Everything pushed so far. */
    ghost var stream: Bytes

    /** What is kept depends on the stream alone, however it was cut into chunks. */
    ghost predicate Valid()
      reads this
    {
      && total == Min(|stream|, USIZE_MAX)
      && head == HeadOf(stream, limit) && tail == TailOf(stream, limit)
    }

    constructor (limit: nat)
      ensures Valid() && this.limit == limit && stream == []
    {
      head, tail, total, stream := [], [], 0, [];
      this.limit := limit;
    }

    method Push(bytes: Bytes)
      requires Valid()
      modifies this
      ensures Valid() && stream == old(stream) + bytes
    {
      ghost var before := stream;
      stream := stream + bytes;
      total := if total + |bytes| > USIZE_MAX then USIZE_MAX else total + |bytes|;
      if limit == 0 {
        NothingKept(before);
        NothingKept(stream);
        return;
      }
      head, tail := Keep(head, tail, bytes, limit / 2, limit - limit / 2, before);
    }

    /** How many bytes the rendering says were left out. */
    method Omitted() returns (omitted: nat)
      requires Valid()
      ensures |stream| <= USIZE_MAX ==> omitted + |head| + |tail| == |stream|
      ensures |stream| <= limit && |stream| <= USIZE_MAX ==> omitted == 0 && head + tail == stream
    {
      CaptureSizes(stream, limit);
      NothingDropped(stream, limit);
      omitted := if total > |head| + |tail| then total - (|head| + |tail|) else 0;
    }
  }

  /** Fill a head of `h` bytes, then let the rest run through a tail of `n`. */
  method Keep(head: Bytes, tail: Bytes, bytes: Bytes, h: nat, n: nat, ghost before: Bytes)
    returns (head': Bytes, tail': Bytes)
    requires n > 0 && head == First(before, h) && tail == Last(Rest(before, h), n)
    ensures head' == First(before + bytes, h) && tail' == Last(Rest(before + bytes, h), n)
  {
    var taken := Min(if h > |head| then h - |head| else 0, |bytes|);
    CaptureGrows(before, bytes, h, taken);
    head' := head + bytes[..taken];
    tail' := PushTail(tail, bytes[taken..], n, Rest(before, h));
  }

  /** Keep the last `n` bytes while pushing one byte at a time. */
  method PushTail(tail: Bytes, bytes: Bytes, n: nat, ghost base: Bytes) returns (kept: Bytes)
    requires n > 0 && tail == Last(base, n)
    ensures kept == Last(base + bytes, n)
  {
    kept := tail;
    assert base + bytes[..0] == base;
    for i := 0 to |bytes|
      invariant kept == Last(base + bytes[..i], n)
    {
      LastSnoc(base + bytes[..i], bytes[i], n);
      assert base + bytes[..i] + [bytes[i]] == base + bytes[..i + 1];
      if |kept| == n {
        kept := kept[1..];
      }
      kept := kept + [bytes[i]];
    }
    assert bytes[..|bytes|] == bytes;
  }

  lemma NothingKept(stream: Bytes)
    ensures HeadOf(stream, 0) == [] && TailOf(stream, 0) == []
  {
  }

  /** What one chunk adds to the two ends. */
  lemma CaptureGrows(before: Bytes, bytes: Bytes, h: nat, taken: nat)
    requires taken == Min(if h > |First(before, h)| then h - |First(before, h)| else 0, |bytes|)
    ensures First(before + bytes, h) == First(before, h) + bytes[..taken]
    ensures Rest(before + bytes, h) == Rest(before, h) + bytes[taken..]
  {
  }

  lemma LastSnoc(bytes: Bytes, b: Byte, n: nat)
    requires n > 0
    ensures Last(bytes + [b], n) == (if |Last(bytes, n)| == n then Last(bytes, n)[1..] else Last(bytes, n)) + [b]
  {
  }

  lemma CaptureSizes(stream: Bytes, limit: nat)
    ensures |HeadOf(stream, limit)| + |TailOf(stream, limit)| == Min(|stream|, limit)
  {
  }

  /** Nothing is dropped exactly when the stream fits the limit. */
  lemma NothingDropped(stream: Bytes, limit: nat)
    ensures HeadOf(stream, limit) + TailOf(stream, limit) == stream <==> |stream| <= limit
  {
    var h := |HeadOf(stream, limit)|;
    if |stream| <= limit {
      assert stream[h..][0..] == stream[h..];
      assert stream == stream[..h] + stream[h..];
    } else {
      CaptureSizes(stream, limit);
    }
  }
}
