/** The two bt_nus_send loops of src/main.c. The stack's answers are an oracle:
    `errs(k)` is what the k-th call of bt_nus_send returns. */
module SendLoops {
  import opened Words
  import opened ProxyCore

  function Flatten(parts: seq<seq<byte>>): seq<byte> {
    if parts == [] then [] else parts[0] + Flatten(parts[1..])
  }

  /** How one hook output is cut into notifications when nothing goes wrong. */
  function Slices(data: seq<byte>, max: nat): seq<seq<byte>>
    requires max > 0
  {
    if data == [] then []
    else [data[..Min(|data|, max)]] + Slices(data[Min(|data|, max)..], max)
  }

  /** k is n / d rounded up. */
  predicate IsCeilDiv(k: nat, n: nat, d: nat)
    requires d > 0
  {
    n <= k * d && (k - 1) * d < if n == 0 then 0 else n
  }

  /** Nothing is lost or reordered by the cutting. */
  lemma {:induction false} SlicesJoin(data: seq<byte>, max: nat)
    requires max > 0
    ensures Flatten(Slices(data, max)) == data
  {
    if data != [] {
      var m := Min(|data|, max);
      SlicesJoin(data[m..], max);
      assert data == data[..m] + data[m..];
    }
  }

  /** There are ceil(len / max) slices. */
  lemma {:induction false} SlicesCount(data: seq<byte>, max: nat)
    requires max > 0
    ensures IsCeilDiv(|Slices(data, max)|, |data|, max)
  {
    if data != [] {
      var m := Min(|data|, max);
      SlicesCount(data[m..], max);
      var rest := |Slices(data[m..], max)|;
      assert (rest + 1) * max == rest * max + max;
      assert rest * max == (rest - 1) * max + max;
    }
  }

  lemma {:induction false} SlicesSized(data: seq<byte>, max: nat)
    requires max > 0
    ensures forall s :: s in Slices(data, max) ==> 0 < |s| <= max
  {
    if data != [] {
      SlicesSized(data[Min(|data|, max)..], max);
    }
  }

  lemma {:induction false} FlattenPrefix(a: seq<seq<byte>>, b: seq<seq<byte>>)
    requires a <= b
    ensures Flatten(a) <= Flatten(b)
  {
    if a != [] {
      FlattenPrefix(a[1..], b[1..]);
    }
  }

  /** Sending the next slice leaves the later ones as they were. */
  lemma NextOfPlan(data: seq<byte>, sent: nat, slice: nat, max: nat, notified: seq<seq<byte>>)
    requires sent < |data| && max > 0 && slice == Min(|data| - sent, max)
    ensures notified + Slices(data[sent..], max)
            == notified + [data[sent..sent + slice]] + Slices(data[sent + slice..], max)
  {
    assert data[sent..][..slice] == data[sent..sent + slice];
    assert data[sent..][slice..] == data[sent + slice..];
  }

  /** The number of calls among the first k that were answered with 0. */
  ghost function Taken(errs: nat -> int, k: nat): nat {
    if k == 0 then 0 else Taken(errs, k - 1) + (if errs(k - 1) == 0 then 1 else 0)
  }

  /** send_processed. `lastRetry` bounds the transient shortages; nothing else about
      the stack is assumed. However the shortages fall, what goes out is an initial
      run of the same slices, one per call answered with 0, and all of them unless some
      answer was neither 0 nor a shortage; the first such answer ends it. */
  method SendProcessed(data: array<byte>, outLen: nat, maxSend: u16, errs: nat -> int, ghost lastRetry: nat)
    returns (notified: seq<seq<byte>>, calls: nat, dropped: bool)
    requires outLen <= data.Length && maxSend > 0
    requires forall k: nat :: k >= lastRetry ==> !Shortage(errs(k))
    ensures notified <= Slices(data[..outLen], maxSend)
    ensures !dropped ==> notified == Slices(data[..outLen], maxSend)
    ensures |notified| == Taken(errs, calls)
    ensures dropped ==> calls > 0 && errs(calls - 1) != 0 && !Shortage(errs(calls - 1))
    ensures forall k: nat :: k < (if dropped then calls - 1 else calls) ==> errs(k) == 0 || Shortage(errs(k))
  {
    var sent: nat := 0;
    notified, calls, dropped := [], 0, false;
    var out := data[..outLen];
    ghost var plan := Slices(out, maxSend);
    var slice := NextSlice(outLen, sent, maxSend);
    while slice > 0
      invariant sent <= outLen && slice == NextSlice(outLen, sent, maxSend)
      invariant plan == notified + Slices(out[sent..], maxSend)
      invariant |notified| == Taken(errs, calls)
      invariant forall k: nat :: k < calls ==> errs(k) == 0 || Shortage(errs(k))
      decreases outLen - sent, lastRetry - calls
    {
      var err := errs(calls);
      calls := calls + 1;
      match SendResult(err) {
        case Consumed =>
          NextOfPlan(out, sent, slice, maxSend, notified);
          notified := notified + [out[sent..sent + slice]];
          sent := sent + slice;
        case Retry =>
          // k_sleep, then resend from the same place.
        case Drop =>
          dropped := true;
          return;
      }
      slice := NextSlice(outLen, sent, maxSend);
    }
    assert notified == plan;
  }

  /** What send_processed notifies, read back by the phone: an initial part of the
      hook output in non-empty notifications that fit, and the whole of it in
      ceil(len / max) of them when nothing dropped. */
  lemma NotifiedStream(data: seq<byte>, max: nat, notified: seq<seq<byte>>)
    requires max > 0 && notified <= Slices(data, max)
    ensures Flatten(notified) <= data
    ensures forall s :: s in notified ==> 0 < |s| <= max
    ensures notified == Slices(data, max) ==> Flatten(notified) == data && IsCeilDiv(|notified|, |data|, max)
  {
    SlicesJoin(data, max);
    SlicesCount(data, max);
    SlicesSized(data, max);
    FlattenPrefix(notified, Slices(data, max));
  }

  const ACK_TRIES := 5

  /** The k-th answer is the first that is not a shortage. */
  ghost predicate SettlesAt(errs: nat -> int, k: nat) {
    && !Shortage(errs(k))
    && forall j: nat :: j < k ==> Shortage(errs(j))
  }

  /** cmd_ack_send: at most five calls, and the echo goes out exactly when the first
      answer that is not a shortage comes within them and is a success. */
  method CmdAckSend(errs: nat -> int) returns (delivered: bool, calls: nat)
    ensures 0 < calls <= 5
    ensures delivered <==> exists k: nat :: k < 5 && SettlesAt(errs, k) && errs(k) == 0
    ensures calls < 5 ==> SettlesAt(errs, calls - 1)
  {
    calls, delivered := 0, false;
    while calls < ACK_TRIES
      invariant calls <= ACK_TRIES && !delivered
      invariant forall k: nat :: k < calls ==> Shortage(errs(k))
    {
      var err := errs(calls);
      calls := calls + 1;
      match SendResult(err) {
        case Consumed =>
          assert SettlesAt(errs, calls - 1);
          delivered := true;
          return;
        case Retry =>
        case Drop =>
          assert SettlesAt(errs, calls - 1);
          return;
      }
    }
  }
}
