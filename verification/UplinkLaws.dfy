/** What every run of the serial-to-phone path keeps. */
module UplinkLaws {
  import opened Words
  import opened ProxyCore
  import opened RingBuffer
  import opened UplinkModel

  // --- Positions --------------------------------------------------------------------

  ghost predicate Increasing(s: seq<nat>) {
    forall i, j :: 0 <= i < j < |s| ==> s[i] < s[j]
  }

  ghost predicate Before(a: seq<nat>, b: seq<nat>) {
    forall i, j :: 0 <= i < |a| && 0 <= j < |b| ==> a[i] < b[j]
  }

  ghost predicate Below(s: seq<nat>, n: nat) {
    forall i :: 0 <= i < |s| ==> s[i] < n
  }

  /** Notified, claimed and queued positions, each in the order received and each group
      wholly before the next. */
  ghost predicate Chain(notified: seq<nat>, claimed: seq<nat>, queued: seq<nat>, n: nat) {
    && Increasing(notified) && Increasing(claimed) && Increasing(queued)
    && Before(notified, claimed) && Before(notified, queued) && Before(claimed, queued)
    && Below(notified, n) && Below(claimed, n) && Below(queued, n)
  }

  /** The fates agree with where the bytes are. */
  ghost predicate Placed(fate: seq<Fate>, notified: seq<nat>, claimed: seq<nat>, queued: seq<nat>) {
    forall i: nat :: i < |fate| ==>
      && (fate[i] == Queued <==> i in queued)
      && (fate[i] == InClaim <==> i in claimed)
      && (fate[i] == Notified <==> i in notified)
  }

  function Count(fate: seq<Fate>, f: Fate): nat {
    if fate == [] then 0
    else Count(fate[..|fate| - 1], f) + if fate[|fate| - 1] == f then 1 else 0
  }

  // --- Invariants -------------------------------------------------------------------

  predicate PcSound(s: State) {
    && s.head < RING_SIZE && |s.ring| <= RING_SIZE && |s.fate| == |s.received|
    && (s.pc == Deciding || s.pc == Referenced ==> s.ring != [])
    && (s.pc.Claimed? || s.pc.Hooked? ==>
          0 < s.pc.n <= |s.ring| && s.pc.max > 0 && (s.pc.n > PROC_BUF_SIZE ==> s.wide))
    && (s.pc.Sending? ==> s.pc.sent <= |s.pc.data| <= PROC_BUF_SIZE && s.pc.max > 0)
  }

  predicate Accounted(drops: u32, fate: seq<Fate>, wide: bool) {
    && drops == Count(fate, Overflowed) % U32_RANGE
    && (!wide ==> forall i :: 0 <= i < |fate| ==> fate[i] != Truncated)
  }

  /** Past its last look at the ring, the writer will not sleep over queued bytes. */
  predicate NoLostWakeup(s: State) {
    (s.pc == Waiting || s.pc == Reporting) && s.ring != [] ==> s.sem
  }

  ghost predicate Inv(s: State) {
    && PcSound(s)
    && Chain(s.notified, Unsent(s.pc), s.ring, |s.received|)
    && Placed(s.fate, s.notified, Unsent(s.pc), s.ring)
    && Accounted(s.drops, s.fate, s.wide)
    && NoLostWakeup(s)
  }

  // --- Moving positions ---------------------------------------------------------------

  lemma Split(s: seq<nat>, k: nat)
    requires Increasing(s) && k <= |s|
    ensures Increasing(s[..k]) && Increasing(s[k..]) && Before(s[..k], s[k..])
    ensures forall x: nat :: x in s <==> x in s[..k] || x in s[k..]
    ensures forall x: nat :: x in s[..k] ==> x !in s[k..]
  {
    assert s == s[..k] + s[k..];
  }

  lemma Apart(a: seq<nat>, b: seq<nat>)
    requires Before(a, b)
    ensures forall x: nat :: x in a ==> x !in b
  {
  }

  /** The first k queued bytes leave the path altogether. */
  lemma Discard(fate: seq<Fate>, notified: seq<nat>, claimed: seq<nat>, queued: seq<nat>, k: nat, f: Fate, n: nat)
    requires Chain(notified, claimed, queued, n) && Placed(fate, notified, claimed, queued)
    requires k <= |queued| && f != Queued && f != InClaim && f != Notified
    ensures Chain(notified, claimed, queued[k..], n)
    ensures Placed(SetFate(fate, queued[..k], f), notified, claimed, queued[k..])
  {
    Split(queued, k);
    Apart(notified, queued);
    Apart(claimed, queued);
  }

  /** The first k queued bytes become the claim. */
  lemma BecomeClaim(fate: seq<Fate>, notified: seq<nat>, queued: seq<nat>, k: nat, n: nat)
    requires Chain(notified, [], queued, n) && Placed(fate, notified, [], queued) && k <= |queued|
    ensures Chain(notified, queued[..k], queued[k..], n)
    ensures Placed(SetFate(fate, queued[..k], InClaim), notified, queued[..k], queued[k..])
  {
    Split(queued, k);
    Apart(notified, queued);
  }

  /** The first k claimed bytes are notified. */
  lemma BecomeNotified(fate: seq<Fate>, notified: seq<nat>, claimed: seq<nat>, queued: seq<nat>, k: nat, n: nat)
    requires Chain(notified, claimed, queued, n) && Placed(fate, notified, claimed, queued) && k <= |claimed|
    ensures Chain(notified + claimed[..k], claimed[k..], queued, n)
    ensures Placed(SetFate(fate, claimed[..k], Notified), notified + claimed[..k], claimed[k..], queued)
  {
    Split(claimed, k);
    Apart(notified, claimed);
    Apart(claimed, queued);
  }

  /** The rest of the claim is dropped. */
  lemma AbandonClaim(fate: seq<Fate>, notified: seq<nat>, claimed: seq<nat>, queued: seq<nat>, n: nat)
    requires Chain(notified, claimed, queued, n) && Placed(fate, notified, claimed, queued)
    ensures Chain(notified, [], queued, n)
    ensures Placed(SetFate(fate, claimed, SendDropped), notified, [], queued)
  {
    Apart(notified, claimed);
    Apart(claimed, queued);
  }

  /** New bytes join the queue, as far as they fit. */
  lemma Arrive(fate: seq<Fate>, notified: seq<nat>, claimed: seq<nat>, queued: seq<nat>, more: nat, fit: nat)
    requires Chain(notified, claimed, queued, |fate|) && Placed(fate, notified, claimed, queued) && fit <= more
    ensures Chain(notified, claimed, queued + Range(|fate|, fit), |fate| + more)
    ensures Placed(fate + Arrivals(more, fit), notified, claimed, queued + Range(|fate|, fit))
  {
    var fate', queued', tail := fate + Arrivals(more, fit), queued + Range(|fate|, fit), Range(|fate|, fit);
    forall i: nat | i < |fate'|
      ensures (fate'[i] == Queued <==> i in queued') && (fate'[i] == InClaim <==> i in claimed)
      ensures fate'[i] == Notified <==> i in notified
    {
      if i < |fate| {
        assert fate'[i] == fate[i];
      } else {
        assert fate'[i] == Arrivals(more, fit)[i - |fate|];
        if i < |fate| + fit {
          assert tail[i - |fate|] == i;
        }
      }
    }
  }

  // --- Counting -------------------------------------------------------------------------

  lemma {:induction false} CountAgrees(a: seq<Fate>, b: seq<Fate>, f: Fate)
    requires |a| == |b| && forall i :: 0 <= i < |a| ==> (a[i] == f <==> b[i] == f)
    ensures Count(a, f) == Count(b, f)
  {
    if a != [] {
      CountAgrees(a[..|a| - 1], b[..|b| - 1], f);
    }
  }

  lemma {:induction false} CountAppend(a: seq<Fate>, b: seq<Fate>, f: Fate)
    ensures Count(a + b, f) == Count(a, f) + Count(b, f)
  {
    if b == [] {
      assert a + b == a;
    } else {
      assert (a + b)[..|a + b| - 1] == a + b[..|b| - 1];
      CountAppend(a, b[..|b| - 1], f);
    }
  }

  lemma {:induction false} CountArrivals(n: nat, fit: nat)
    requires fit <= n
    ensures Count(Arrivals(n, fit), Overflowed) == n - fit
  {
    if n > 0 {
      CountArrivals(n - 1, Min(fit, n - 1));
      assert Arrivals(n, fit)[..n - 1] == Arrivals(n - 1, Min(fit, n - 1));
    }
  }

  /** Giving bytes a fate leaves the count of every other fate they do not have. */
  lemma Recount(fate: seq<Fate>, ps: seq<nat>, f: Fate, g: Fate)
    requires f != g && forall p :: p in ps && p < |fate| ==> fate[p] != g
    ensures Count(SetFate(fate, ps, f), g) == Count(fate, g)
  {
    CountAgrees(SetFate(fate, ps, f), fate, g);
  }

  /** The positions below the last one. */
  lemma WithoutTop(ps: seq<nat>, n: nat) returns (shorter: seq<nat>)
    requires Increasing(ps) && Below(ps, n + 1)
    ensures Increasing(shorter) && Below(shorter, n)
    ensures ps == if n in ps then shorter + [n] else shorter
  {
    if ps != [] && ps[|ps| - 1] == n {
      shorter := ps[..|ps| - 1];
      assert ps == shorter + [n];
    } else {
      shorter := ps;
    }
  }

  lemma {:induction false} FitsBelow(ps: seq<nat>, n: nat)
    requires Increasing(ps) && Below(ps, n)
    ensures |ps| <= n
  {
    if ps != [] {
      var k := |ps| - 1;
      FitsBelow(ps[..k], ps[k]);
    }
  }

  lemma SetFatePrefix(fate: seq<Fate>, ps: seq<nat>, shorter: seq<nat>, f: Fate)
    requires fate != []
    requires ps == if |fate| - 1 in ps then shorter + [|fate| - 1] else shorter
    ensures SetFate(fate, ps, f)[..|fate| - 1] == SetFate(fate[..|fate| - 1], shorter, f)
  {
    forall i | 0 <= i < |fate| - 1
      ensures i in ps <==> i in shorter
    {
    }
  }

  /** Giving bytes a fate that none of them has adds them to its count. */
  lemma {:induction false} CountSet(fate: seq<Fate>, ps: seq<nat>, f: Fate)
    requires Increasing(ps) && Below(ps, |fate|) && forall p :: p in ps ==> fate[p] != f
    ensures Count(SetFate(fate, ps, f), f) == Count(fate, f) + |ps|
    decreases |fate|
  {
    FitsBelow(ps, |fate|);
    if fate != [] {
      var n := |fate| - 1;
      var shorter := WithoutTop(ps, n);
      CountSet(fate[..n], shorter, f);
      SetFatePrefix(fate, ps, shorter, f);
    }
  }

  /** A fate that exactly the listed positions have is counted by the list. */
  lemma {:induction false} CountPositions(fate: seq<Fate>, ps: seq<nat>, f: Fate)
    requires Increasing(ps) && Below(ps, |fate|)
    requires forall i: nat :: i < |fate| ==> (fate[i] == f <==> i in ps)
    ensures Count(fate, f) == |ps|
    decreases |fate|
  {
    FitsBelow(ps, |fate|);
    if fate != [] {
      var n := |fate| - 1;
      var shorter := WithoutTop(ps, n);
      CountPositions(fate[..n], shorter, f);
    }
  }

  /** What the fate list says besides the positions. */
  lemma RecountQueued(
    fate: seq<Fate>, notified: seq<nat>, claimed: seq<nat>, queued: seq<nat>, ps: seq<nat>, f: Fate, g: Fate)
    requires Placed(fate, notified, claimed, queued) && f != g && g != Queued && g != InClaim
    requires forall p :: p in ps ==> p in queued || p in claimed
    ensures Count(SetFate(fate, ps, f), g) == Count(fate, g)
  {
    Recount(fate, ps, f, g);
  }

  // --- Steps ----------------------------------------------------------------------------

  lemma RxReadyCounts(fate: seq<Fate>, drops: u32, wide: bool, more: nat, fit: nat)
    requires Accounted(drops, fate, wide) && fit <= more
    ensures Accounted(AddU32(drops, more - fit), fate + Arrivals(more, fit), wide)
  {
    CountAppend(fate, Arrivals(more, fit), Overflowed);
    CountArrivals(more, fit);
    AddU32Tracks(drops, Count(fate, Overflowed), more - fit);
  }

  lemma RxReadyStep(s: State, data: seq<byte>)
    requires Inv(s) && CanStep(s, RxReady(data))
    ensures Inv(Next(s, RxReady(data)))
  {
    var fit := Min(|data|, RING_SIZE - |s.ring|);
    var n := Next(s, RxReady(data));
    assert n == s.(received := n.received, fate := s.fate + Arrivals(|data|, fit),
                   ring := s.ring + Range(|s.fate|, fit),
                   drops := AddU32(s.drops, |data| - fit), sem := n.sem);
    RxReadyCounts(s.fate, s.drops, s.wide, |data|, fit);
    Arrive(s.fate, s.notified, Unsent(s.pc), s.ring, |data|, fit);
  }

  lemma DrainStepKeeps(s: State)
    requires Inv(s) && CanStep(s, DrainStep)
    ensures Inv(Next(s, DrainStep))
  {
    var k := ClaimLen(s, U32_MAX);
    if k > 0 {
      Discard(s.fate, s.notified, [], s.ring, k, Drained, |s.received|);
      RecountQueued(s.fate, s.notified, [], s.ring, s.ring[..k], Drained, Overflowed);
    }
  }

  /** The finish: k bytes leave the ring, the first `kept` of them as the claim. */
  lemma FinishMoves(fate: seq<Fate>, notified: seq<nat>, ring: seq<nat>, kept: nat, k: nat, n: nat)
    requires Chain(notified, [], ring, n) && Placed(fate, notified, [], ring) && kept <= k <= |ring|
    ensures Chain(notified, ring[..kept], ring[k..], n)
    ensures var fate' := SetFate(SetFate(fate, ring[..kept], InClaim), ring[kept..k], Truncated);
            && Placed(fate', notified, ring[..kept], ring[k..])
            && Count(fate', Overflowed) == Count(fate, Overflowed)
  {
    var mid, rest := SetFate(fate, ring[..kept], InClaim), ring[kept..];
    BecomeClaim(fate, notified, ring, kept, n);
    RecountQueued(fate, notified, [], ring, ring[..kept], InClaim, Overflowed);
    assert rest[..k - kept] == ring[kept..k] && rest[k - kept..] == ring[k..];
    Discard(mid, notified, ring[..kept], rest, k - kept, Truncated, n);
    RecountQueued(mid, notified, ring[..kept], rest, ring[kept..k], Truncated, Overflowed);
  }

  lemma FinishKeeps(s: State)
    requires Inv(s) && CanStep(s, Finish)
    ensures Inv(Next(s, Finish))
  {
    var k, kept := s.pc.n, Min(s.pc.n, PROC_BUF_SIZE);
    var n := Next(s, Finish);
    FinishMoves(s.fate, s.notified, s.ring, kept, k, |s.received|);
    assert Unsent(n.pc) == s.ring[..kept];
    if !s.wide {
      assert s.ring[kept..k] == [];
    }
  }

  /** One accepted slice of the hook output. */
  lemma SliceMoves(fate: seq<Fate>, notified: seq<nat>, now: seq<nat>, rest: seq<nat>, ring: seq<nat>, n: nat)
    requires Chain(notified, now + rest, ring, n) && Placed(fate, notified, now + rest, ring)
    ensures Chain(notified + now, rest, ring, n)
    ensures Placed(SetFate(fate, now, Notified), notified + now, rest, ring)
    ensures Count(SetFate(fate, now, Notified), Overflowed) == Count(fate, Overflowed)
  {
    assert (now + rest)[..|now|] == now && (now + rest)[|now|..] == rest;
    BecomeNotified(fate, notified, now + rest, ring, |now|, n);
    RecountQueued(fate, notified, now + rest, ring, now, Notified, Overflowed);
  }

  lemma CutAt(data: seq<nat>, sent: nat, end: nat)
    requires sent <= end <= |data|
    ensures data[sent..] == data[sent..end] + data[end..]
  {
  }

  /** The claim in two parts: the next slice and what is left after it. */
  lemma NextSliceSplits(s: State, err: int) returns (now: seq<nat>, rest: seq<nat>)
    requires PcSound(s) && CanStep(s, SendStep(err)) && SendResult(err) == Consumed && s.pc.sent < |s.pc.data|
    ensures Unsent(s.pc) == now + rest
    ensures var n := Next(s, SendStep(err));
            && PcSound(n) && Unsent(n.pc) == rest && n.pc.Sending?
            && n == s.(fate := SetFate(s.fate, now, Notified), notified := s.notified + now, pc := n.pc)
  {
    var Sending(max, data, sent) := s.pc;
    var end := sent + NextSlice(|data|, sent, max);
    now, rest := data[sent..end], data[end..];
    CutAt(data, sent, end);
  }

  lemma ConsumedKeeps(s: State, err: int)
    requires Inv(s) && CanStep(s, SendStep(err)) && SendResult(err) == Consumed
    requires s.pc.sent < |s.pc.data|
    ensures Inv(Next(s, SendStep(err)))
  {
    var now, rest := NextSliceSplits(s, err);
    SliceMoves(s.fate, s.notified, now, rest, s.ring, |s.received|);
    SetFateAccounted(s.fate, now, Notified, s.drops, s.wide);
  }

  lemma SetFateAccounted(fate: seq<Fate>, ps: seq<nat>, f: Fate, drops: u32, wide: bool)
    requires Accounted(drops, fate, wide) && f != Truncated
    requires Count(SetFate(fate, ps, f), Overflowed) == Count(fate, Overflowed)
    ensures Accounted(drops, SetFate(fate, ps, f), wide)
  {
  }

  lemma DropKeeps(s: State, err: int)
    requires Inv(s) && CanStep(s, SendStep(err)) && SendResult(err) == Drop
    requires s.pc.sent < |s.pc.data|
    ensures Inv(Next(s, SendStep(err)))
  {
    AbandonClaim(s.fate, s.notified, Unsent(s.pc), s.ring, |s.received|);
    RecountQueued(s.fate, s.notified, Unsent(s.pc), s.ring, Unsent(s.pc), SendDropped, Overflowed);
  }

  lemma SendStepKeeps(s: State, err: int)
    requires Inv(s) && CanStep(s, SendStep(err))
    ensures Inv(Next(s, SendStep(err)))
  {
    if s.pc.sent == |s.pc.data| {
      assert Unsent(s.pc) == [];
    } else if SendResult(err) == Consumed {
      ConsumedKeeps(s, err);
    } else if SendResult(err) == Drop {
      DropKeeps(s, err);
    }
  }

  /** Every step of the interrupt and of the writer keeps all of it. */
  lemma InvStep(s: State, e: Event)
    requires Inv(s) && CanStep(s, e)
    ensures Inv(Next(s, e))
  {
    match e {
      case RxReady(data) => RxReadyStep(s, data);
      case DrainStep => DrainStepKeeps(s);
      case Finish => FinishKeeps(s);
      case SendStep(err) => SendStepKeeps(s, err);
      case _ =>
    }
  }
}
