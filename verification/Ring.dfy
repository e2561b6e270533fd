/** The contract of Zephyr's ring_buf, over a real array: a bounded byte queue whose
    claims stop at the physical wrap. */
module RingBuffer {
  import opened Words

  /** Both rings of src/uart_bridge.c. */
  const RING_SIZE := 2048

  /** Where the i-th queued byte sits. */
  function Slot(head: nat, i: nat, capacity: nat): nat {
    if head + i < capacity then head + i else head + i - capacity
  }

  method CopyInto(out: array<byte>, at: nat, chunk: seq<byte>)
    requires at + |chunk| <= out.Length
    modifies out
    ensures out[..] == old(out[..])[..at] + chunk + old(out[..])[at + |chunk|..]
  {
    forall i | 0 <= i < |chunk| {
      out[at + i] := chunk[i];
    }
  }

  lemma Advance(source: seq<byte>, out: seq<byte>, n: nat, k: nat)
    requires n + k <= |source| && n + k <= |out|
    ensures var done := source[..n] + out[n..];
            done[..n] + source[n..][..k] + done[n + k..] == source[..n + k] + out[n + k..]
    ensures source[n..][k..] == source[n + k..]
  {
  }

  class Ring {
    const data: array<byte>
    var head: nat
    var count: nat
    ghost var contents: seq<byte>   // the queued bytes, oldest first

    constructor (capacity: nat)
      requires capacity > 0
      ensures Valid() && fresh(data)
      ensures contents == [] && Capacity() == capacity && head == 0
    {
      data := new byte[capacity];
      head, count := 0, 0;
      contents := [];
    }

    ghost predicate Valid()
      reads this, data
    {
      && head < data.Length && count <= data.Length
      && |contents| == count
      && forall i :: 0 <= i < count ==> contents[i] == data[Slot(head, i, data.Length)]
    }

    function Capacity(): nat {
      data.Length
    }

    predicate IsEmpty()
      reads this
    {
      count == 0
    }

    /** ring_buf_put: queues what fits. */
    method Put(bytes: seq<byte>) returns (queued: nat)
      requires Valid()
      modifies this`count, this`contents, data
      ensures Valid() && queued == Min(|bytes|, Capacity() - old(|contents|))
      ensures contents == old(contents) + bytes[..queued]
    {
      queued := if |bytes| < data.Length - count then |bytes| else data.Length - count;
      var i := 0;
      while i < queued
        invariant i <= queued && count == old(count) + i && Valid()
        invariant contents == old(contents) + bytes[..i]
      {
        data[Slot(head, count, data.Length)] := bytes[i];
        count := count + 1;
        contents := contents + [bytes[i]];
        i := i + 1;
      }
    }

    /** ring_buf_get_claim's length: contiguous bytes only. */
    function ClaimLen(max: nat): (n: nat)
      requires Valid()
      reads this, data
      ensures n <= max && n <= count && head + n <= data.Length
      ensures n == max || n == count || head + n == data.Length
      ensures n == 0 <==> count == 0 || max == 0
    {
      Min(max, Min(count, data.Length - head))
    }

    /** ring_buf_get_claim: a view of the oldest bytes, nothing consumed. */
    method Claim(max: nat) returns (chunk: seq<byte>)
      requires Valid()
      ensures |chunk| == ClaimLen(max) && chunk == contents[..|chunk|]
    {
      var n := ClaimLen(max);
      chunk := data[head..head + n];
    }

    /** ring_buf_get_finish. */
    method Finish(consumed: nat)
      requires Valid() && consumed <= count
      modifies this
      ensures Valid() && contents == old(contents)[consumed..]
      ensures head == Slot(old(head), consumed, Capacity())
    {
      head := Slot(head, consumed, data.Length);
      count := count - consumed;
      contents := contents[consumed..];
    }

    /** ring_buf_get: moves bytes out in one or two pieces, across the wrap. */
    method Get(out: array<byte>) returns (n: nat)
      requires Valid() && out != data
      modifies this, out
      ensures Valid() && n == Min(out.Length, old(|contents|))
      ensures out[..] == old(contents)[..n] + old(out[..])[n..]
      ensures contents == old(contents)[n..]
    {
      n := 0;
      while n < out.Length && count > 0
        invariant Valid() && n <= out.Length && n <= |old(contents)|
        invariant contents == old(contents)[n..]
        invariant out[..] == old(contents)[..n] + old(out[..])[n..]
      {
        var chunk := Claim(out.Length - n);
        CopyInto(out, n, chunk);
        Finish(|chunk|);
        Advance(old(contents), old(out[..]), n, |chunk|);
        n := n + |chunk|;
      }
    }
  }
}
