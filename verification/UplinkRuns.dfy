/** The promises of the serial-to-phone path, over every run from boot. */
module UplinkRuns {
  import opened Words
  import opened ProxyCore
  import opened RingBuffer
  import opened Sequences
  import opened UplinkModel
  import opened UplinkLaws

  predicate Legal(s: State, es: seq<Event>)
    decreases |es|
  {
    es == [] || (CanStep(s, es[0]) && Legal(Next(s, es[0]), es[1..]))
  }

  function Run(s: State, es: seq<Event>): State
    requires Legal(s, es)
    decreases |es|
  {
    if es == [] then s else Run(Next(s, es[0]), es[1..])
  }

  lemma {:induction false} RunInv(s: State, es: seq<Event>)
    requires Inv(s) && Legal(s, es)
    ensures Inv(Run(s, es))
    decreases |es|
  {
    if es != [] {
      InvStep(s, es[0]);
      RunInv(Next(s, es[0]), es[1..]);
    }
  }

  /** A state some run from boot reaches. */
  ghost predicate Reachable(s: State) {
    exists es: seq<Event> :: Legal(Start(), es) && s == Run(Start(), es)
  }

  lemma {:induction false} Extend(s: State, es: seq<Event>, e: Event)
    requires Legal(s, es) && CanStep(Run(s, es), e)
    ensures Legal(s, es + [e]) && Run(s, es + [e]) == Next(Run(s, es), e)
    decreases |es|
  {
    if es == [] {
      assert [e][1..] == [];
    } else {
      Extend(Next(s, es[0]), es[1..], e);
      assert (es + [e])[1..] == es[1..] + [e];
    }
  }

  lemma ReachNext(s: State, e: Event)
    requires Reachable(s) && CanStep(s, e)
    ensures Reachable(Next(s, e))
  {
    var es: seq<Event> :| Legal(Start(), es) && s == Run(Start(), es);
    Extend(Start(), es, e);
  }

  lemma StartInv()
    ensures Inv(Start())
  {
  }

  lemma ReachableInv(s: State)
    requires Reachable(s)
    ensures Inv(s)
  {
    var es: seq<Event> :| Legal(Start(), es) && s == Run(Start(), es);
    StartInv();
    RunInv(Start(), es);
  }

  // --- Conservation -----------------------------------------------------------------

  /** The number of bytes a step gives a fate they then keep. */
  function Gained(s: State, e: Event, f: Fate): nat
    requires CanStep(s, e)
  {
    match e
    case RxReady(data) => if f == Overflowed && |s.ring| + |data| > 2048 then |s.ring| + |data| - 2048 else 0
    case DrainStep => if f == Drained then ClaimLen(s, U32_MAX) else 0
    case Finish => if f == Truncated then s.pc.n - Min(s.pc.n, 512) else 0
    case SendStep(err) =>
      var slice := NextSlice(|s.pc.data|, s.pc.sent, s.pc.max);
      if f == Notified && slice > 0 && err == 0 then slice
      else if f == SendDropped && slice > 0 && err != 0 && !Shortage(err) then |s.pc.data| - s.pc.sent
      else 0
    case _ => 0
  }

  function Total(s: State, es: seq<Event>, f: Fate): nat
    requires Legal(s, es)
    decreases |es|
  {
    if es == [] then 0 else Gained(s, es[0], f) + Total(Next(s, es[0]), es[1..], f)
  }

  predicate Final(f: Fate) {
    f != Queued && f != InClaim
  }

  lemma ArrivalLedger(fate: seq<Fate>, n: nat, fit: nat, f: Fate)
    requires fit <= n && Final(f)
    ensures Count(fate + Arrivals(n, fit), f) == Count(fate, f) + if f == Overflowed then n - fit else 0
  {
    CountAppend(fate, Arrivals(n, fit), f);
    if f == Overflowed {
      CountArrivals(n, fit);
    } else {
      NoneCounted(Arrivals(n, fit), f);
    }
  }

  /** Bytes on their way have no final fate. */
  ghost predicate OnTheirWay(fate: seq<Fate>, ps: seq<nat>) {
    Increasing(ps) && Below(ps, |fate|) && forall i :: 0 <= i < |ps| ==> !Final(fate[ps[i]])
  }

  lemma PathOnItsWay(s: State)
    requires Inv(s)
    ensures OnTheirWay(s.fate, s.ring) && OnTheirWay(s.fate, Unsent(s.pc))
  {
    assert forall i :: 0 <= i < |s.ring| ==> s.ring[i] in s.ring;
    assert forall i :: 0 <= i < |Unsent(s.pc)| ==> Unsent(s.pc)[i] in Unsent(s.pc);
  }

  /** They get a final fate, or none. */
  lemma SetLedger(fate: seq<Fate>, ps: seq<nat>, g: Fate, f: Fate)
    requires OnTheirWay(fate, ps) && Final(f)
    ensures Count(SetFate(fate, ps, g), f) == Count(fate, f) + if f == g then |ps| else 0
  {
    if f == g {
      CountSet(fate, ps, f);
    } else {
      Recount(fate, ps, g, f);
    }
  }

  lemma FinishLedger(fate: seq<Fate>, ring: seq<nat>, kept: nat, n: nat, f: Fate)
    requires OnTheirWay(fate, ring) && kept <= n <= |ring| && Final(f)
    ensures Count(SetFate(SetFate(fate, ring[..kept], InClaim), ring[kept..n], Truncated), f)
            == Count(fate, f) + if f == Truncated then n - kept else 0
  {
    var now, cut := ring[..kept], ring[kept..n];
    SetLedger(fate, now, InClaim, f);
    SetLedger(SetFate(fate, now, InClaim), cut, Truncated, f);
  }

  lemma SliceLedger(fate: seq<Fate>, data: seq<nat>, sent: nat, slice: nat, f: Fate)
    requires sent + slice <= |data| && OnTheirWay(fate, data[sent..]) && Final(f)
    ensures Count(SetFate(fate, data[sent..sent + slice], Notified), f)
            == Count(fate, f) + if f == Notified then slice else 0
  {
    assert data[sent..][..slice] == data[sent..sent + slice];
    SetLedger(fate, data[sent..][..slice], Notified, f);
  }

  lemma SendLedger(s: State, err: int, f: Fate)
    requires CanStep(s, SendStep(err)) && OnTheirWay(s.fate, s.pc.data[s.pc.sent..]) && Final(f)
    ensures Count(Next(s, SendStep(err)).fate, f) == Count(s.fate, f) + Gained(s, SendStep(err), f)
  {
    var Sending(max, data, sent) := s.pc;
    var slice := NextSlice(|data|, sent, max);
    var fate' := Next(s, SendStep(err)).fate;
    if slice == 0 || SendResult(err) == Retry {
      assert fate' == s.fate;
    } else if SendResult(err) == Consumed {
      assert fate' == SetFate(s.fate, data[sent..sent + slice], Notified);
      SliceLedger(s.fate, data, sent, slice, f);
    } else {
      assert fate' == SetFate(s.fate, data[sent..], SendDropped);
      SetLedger(s.fate, data[sent..], SendDropped, f);
    }
  }

  lemma DrainLedger(s: State, f: Fate)
    requires CanStep(s, DrainStep) && OnTheirWay(s.fate, s.ring) && Final(f)
    ensures Count(Next(s, DrainStep).fate, f) == Count(s.fate, f) + Gained(s, DrainStep, f)
  {
    var n := ClaimLen(s, U32_MAX);
    if n > 0 {
      SetLedger(s.fate, s.ring[..n], Drained, f);
    }
  }

  lemma LedgerStep(s: State, e: Event, f: Fate)
    requires Inv(s) && CanStep(s, e) && Final(f)
    ensures Count(Next(s, e).fate, f) == Count(s.fate, f) + Gained(s, e, f)
  {
    PathOnItsWay(s);
    match e {
      case RxReady(data) => ArrivalLedger(s.fate, |data|, Min(|data|, RING_SIZE - |s.ring|), f);
      case DrainStep => DrainLedger(s, f);
      case Finish => FinishLedger(s.fate, s.ring, Min(s.pc.n, PROC_BUF_SIZE), s.pc.n, f);
      case SendStep(err) => SendLedger(s, err, f);
      case _ =>
    }
  }

  /** The ledger: over every run, the bytes with a final fate are those the steps gave it. */
  lemma {:induction false} Ledger(s: State, es: seq<Event>, f: Fate)
    requires Inv(s) && Legal(s, es) && Final(f)
    ensures Count(Run(s, es).fate, f) == Count(s.fate, f) + Total(s, es, f)
    decreases |es|
  {
    if es != [] {
      LedgerStep(s, es[0], f);
      InvStep(s, es[0]);
      Ledger(Next(s, es[0]), es[1..], f);
    }
  }

  lemma {:induction false} CountsAddUp(fate: seq<Fate>)
    ensures |fate| == Count(fate, Queued) + Count(fate, Overflowed) + Count(fate, Drained) + Count(fate, InClaim)
                      + Count(fate, Truncated) + Count(fate, SendDropped) + Count(fate, Notified)
  {
    if fate != [] {
      CountsAddUp(fate[..|fate| - 1]);
    }
  }

  lemma {:induction false} NoneCounted(fate: seq<Fate>, f: Fate)
    requires forall i :: 0 <= i < |fate| ==> fate[i] != f
    ensures Count(fate, f) == 0
  {
    if fate != [] {
      NoneCounted(fate[..|fate| - 1], f);
    }
  }

  /** Conservation, over every run from boot: the received bytes are those queued, those
      of the claim still to be sent and those notified, and those the steps of the run
      lost to the full ring, drained, cut off by the hook or dropped with a failed send;
      the firmware's counter is the first of the losses. */
  lemma UplinkConservation(es: seq<Event>)
    requires Legal(Start(), es)
    ensures var s := Run(Start(), es);
            && (s.pc.Sending? ==> s.pc.sent <= |s.pc.data|)
            && |s.received| == |s.ring| + |Unsent(s.pc)| + |s.notified|
               + Total(Start(), es, Overflowed) + Total(Start(), es, Drained)
               + Total(Start(), es, Truncated) + Total(Start(), es, SendDropped)
            && |s.notified| == Total(Start(), es, Notified)
            && s.drops == Total(Start(), es, Overflowed) % U32_RANGE
  {
    var s := Run(Start(), es);
    StartInv();
    RunInv(Start(), es);
    Ledger(Start(), es, Overflowed);
    Ledger(Start(), es, Drained);
    Ledger(Start(), es, Truncated);
    Ledger(Start(), es, SendDropped);
    Ledger(Start(), es, Notified);
    CountsAddUp(s.fate);
    CountPositions(s.fate, s.ring, Queued);
    CountPositions(s.fate, Unsent(s.pc), InClaim);
    CountPositions(s.fate, s.notified, Notified);
  }

  // --- Order ------------------------------------------------------------------------

  function Pick(stream: seq<byte>, ps: seq<nat>): (r: seq<byte>)
    requires Below(ps, |stream|)
    ensures |r| == |ps|
  {
    seq(|ps|, i requires 0 <= i < |ps| => stream[ps[i]])
  }

  lemma {:induction false} PickIsSubsequence(stream: seq<byte>, ps: seq<nat>)
    requires Increasing(ps) && Below(ps, |stream|)
    ensures Subsequence(Pick(stream, ps), stream)
    decreases |stream|
  {
    if ps != [] {
      var n, k := |stream| - 1, |ps| - 1;
      if ps[k] == n {
        PickIsSubsequence(stream[..n], ps[..k]);
        assert Pick(stream, ps)[..k] == Pick(stream[..n], ps[..k]);
      } else {
        assert Below(ps, n);
        PickIsSubsequence(stream[..n], ps);
        assert Pick(stream, ps) == Pick(stream[..n], ps);
      }
    }
  }

  /** The notified stream is the received one with bytes left out, never reordered. */
  lemma NotifiedInOrder(s: State)
    requires Reachable(s)
    ensures Below(s.notified, |s.received|) && Subsequence(Pick(s.received, s.notified), s.received)
  {
    ReachableInv(s);
    PickIsSubsequence(s.received, s.notified);
  }

  /** Over every run in which no claim is made under an MTU above 515, the hook cuts
      nothing off. */
  lemma HookTruncation(es: seq<Event>)
    requires Legal(Start(), es)
    requires forall e :: e in es && e.ClaimStep? ==> e.mtu <= PROC_BUF_SIZE + ATT_HEADER_LEN
    ensures Total(Start(), es, Truncated) == 0
  {
    StartInv();
    StaysNarrow(Start(), es);
    RunInv(Start(), es);
    Ledger(Start(), es, Truncated);
    NoneCounted(Run(Start(), es).fate, Truncated);
  }

  lemma {:induction false} StaysNarrow(s: State, es: seq<Event>)
    requires Legal(s, es) && !s.wide
    requires forall e :: e in es && e.ClaimStep? ==> e.mtu <= PROC_BUF_SIZE + ATT_HEADER_LEN
    ensures !Run(s, es).wide
    decreases |es|
  {
    if es != [] {
      StaysNarrow(Next(s, es[0]), es[1..]);
    }
  }

  /** Exactly when it does cut: more than its buffer was claimed. Any MTU above 515 with
      as many bytes contiguous in the ring makes such a claim. */
  lemma CutsLongClaims(s: State, mtu: u16)
    requires Reachable(s) && s.pc == Referenced
    ensures CanStep(s, ClaimStep(mtu))
    ensures var c := Next(s, ClaimStep(mtu));
            && CanStep(c, Hook) && CanStep(Next(c, Hook), Finish)
            && (Gained(Next(c, Hook), Finish, Truncated) > 0 <==>
                  mtu > PROC_BUF_SIZE + ATT_HEADER_LEN && ClaimLen(s, RING_SIZE) > PROC_BUF_SIZE)
  {
    ReachableInv(s);
  }

  // --- Wakeups ----------------------------------------------------------------------

  /** No lost wakeup: a writer past its last emptiness or drain check sees the
      semaphore up if bytes are queued, even when the latest put queued nothing. */
  lemma NeverSleepsOnData(s: State)
    requires Reachable(s) && (s.pc == Waiting || s.pc == Reporting) && s.ring != []
    ensures s.sem
  {
    ReachableInv(s);
  }

  /** The writer only ever blocks with nothing queued: otherwise some step of its own is
      enabled, whatever the stack answers. */
  lemma WriterNeverStuck(s: State, forward: bool, mtu: u16, err: int)
    requires Reachable(s)
    ensures || (s.pc == Waiting && !s.sem && s.ring == [])
            || exists e :: e in {Take, CheckEmpty, Decide(forward), DrainStep, ClaimStep(mtu), Hook, Finish,
                                 SendStep(err), Report} && CanStep(s, e)
  {
    ReachableInv(s);
    var e := match s.pc
      case Waiting => Take
      case Checking => CheckEmpty
      case Deciding => Decide(forward)
      case Draining => DrainStep
      case Referenced => ClaimStep(mtu)
      case Claimed(_, _) => Hook
      case Hooked(_, _) => Finish
      case Sending(_, _, _) => SendStep(err)
      case Reporting => Report;
    assert (s.pc == Waiting && !s.sem) || CanStep(s, e);
  }

  /** A full ring: the put queues nothing and gives nothing, and the writer is still
      awake or still to be woken. */
  lemma FullRingStillWakes(s: State, data: seq<byte>)
    requires Reachable(s) && |s.ring| == RING_SIZE && CanStep(s, RxReady(data))
    ensures var n := Next(s, RxReady(data));
            && n.ring == s.ring && n.sem == s.sem
            && (n.pc == Waiting || n.pc == Reporting ==> n.sem)
            && n.drops == AddU32(s.drops, |data|)
  {
    ReachableInv(s);
  }

  /** The semaphore is given for an arrival exactly when some of it was queued. */
  lemma ArrivalGives(s: State, data: seq<byte>)
    requires Reachable(s) && CanStep(s, RxReady(data))
    ensures Next(s, RxReady(data)).sem <==> s.sem || (data != [] && |s.ring| < RING_SIZE)
  {
    ReachableInv(s);
  }

  lemma {:induction false} SemaphoreStays(s: State, es: seq<Event>)
    requires Legal(s, es) && s.sem && Take !in es
    ensures Run(s, es).sem
    decreases |es|
  {
    if es != [] {
      SemaphoreStays(Next(s, es[0]), es[1..]);
    }
  }

  /** A wakeup given on a disconnect or on encryption is kept until the writer takes it. */
  lemma WakeIsKept(s: State, es: seq<Event>)
    requires CanStep(s, Wake) && Legal(Next(s, Wake), es) && Take !in es
    ensures Run(Next(s, Wake), es).sem
  {
    SemaphoreStays(Next(s, Wake), es);
  }

  // --- Sizes and answers --------------------------------------------------------------

  /** What section 3.4.7.1 of Bluetooth Core Specification Vol 3 Part F leaves for a
      notification's value, and 20 octets should no MTU be known. */
  function Payload(mtu: u16): nat {
    if mtu > 3 then mtu - 3 else 20
  }

  /** Where the writer claims it has seen bytes, and only it removes them: the claim is
      never empty, so that the break that gives the reference back unsent is a guard only,
      and it is all that one notification and the ring's wrap allow. */
  lemma ClaimNeverEmpty(s: State, mtu: u16)
    requires Reachable(s) && s.pc == Referenced
    ensures CanStep(s, ClaimStep(mtu)) && Next(s, ClaimStep(mtu)).pc.Claimed?
    ensures Next(s, ClaimStep(mtu)).pc.n == Min(Payload(mtu), Min(|s.ring|, RING_SIZE - s.head)) > 0
  {
    ReachableInv(s);
  }

  /** The MTU the latest claim was made under. */
  function LastMtu(mtu: u16, es: seq<Event>): u16
    decreases |es|
  {
    if es == [] then mtu else LastMtu(if es[0].ClaimStep? then es[0].mtu else mtu, es[1..])
  }

  predicate ClaimedUnder(s: State, mtu: u16) {
    s.pc.Claimed? || s.pc.Hooked? || s.pc.Sending? ==> s.pc.max == Payload(mtu)
  }

  lemma {:induction false} RunClaimedUnder(s: State, es: seq<Event>, mtu: u16)
    requires Legal(s, es) && ClaimedUnder(s, mtu)
    ensures ClaimedUnder(Run(s, es), LastMtu(mtu, es))
    decreases |es|
  {
    if es != [] {
      RunClaimedUnder(Next(s, es[0]), es[1..], if es[0].ClaimStep? then es[0].mtu else mtu);
    }
  }

  /** Over every run, what one send puts on the air is exactly as much of the unsent bytes
      as fits the link's MTU, and that only if it was answered with 0. */
  lemma NotificationsFit(es: seq<Event>, err: int)
    requires Legal(Start(), es) && CanStep(Run(Start(), es), SendStep(err))
    ensures var s := Run(Start(), es); var unsent := Unsent(s.pc);
            Next(s, SendStep(err)).notified ==
              s.notified + if err == 0 then unsent[..Min(|unsent|, Payload(LastMtu(0, es)))] else []
  {
    StartInv();
    RunInv(Start(), es);
    RunClaimedUnder(Start(), es, 0);
    SendTakes(Run(Start(), es), err);
  }

  lemma SendTakes(s: State, err: int)
    requires Inv(s) && CanStep(s, SendStep(err))
    ensures Next(s, SendStep(err)).notified ==
              s.notified + if err == 0 then Unsent(s.pc)[..Min(|Unsent(s.pc)|, s.pc.max)] else []
  {
    if s.pc.sent == |s.pc.data| {
      assert Next(s, SendStep(err)).notified == s.notified + [];
    } else if err == 0 {
      var now, rest := NextSliceSplits(s, err);
      assert Unsent(s.pc)[..|now|] == now;
      assert |now| == NextSlice(|s.pc.data|, s.pc.sent, s.pc.max);
    }
  }

  /** A shortage costs nothing: everything is as before the call, and the next round
      offers the same slice. */
  lemma ShortageKeeps(s: State, err: int)
    requires Reachable(s) && CanStep(s, SendStep(err)) && Unsent(s.pc) != []
    ensures err == -ENOMEM || err == -EAGAIN <==> Next(s, SendStep(err)) == s
  {
    ReachableInv(s);
    if err == 0 {
      SendTakes(s, err);
    }
  }

  // --- The writer comes to rest -----------------------------------------------------------

  /** Steps the writer can still take, at most, with nothing new arriving. */
  function Work(s: State): nat {
    8 * |s.ring| + (if s.sem then 8 else 0) + match s.pc
      case Waiting => 0
      case Reporting => 1
      case Draining => 2
      case Hooked(_, _) => 3
      case Claimed(_, _) => 4
      case Referenced => 5
      case Deciding => 6
      case Checking => 7
      case Sending(_, data, sent) => 8 + if sent <= |data| then |data| - sent else 0
  }

  /** A step of the writer's own, not held up by a shortage. */
  predicate Proceeds(e: Event) {
    !e.RxReady? && !e.Wake? && (e.SendStep? ==> !Shortage(e.err))
  }

  lemma StepWorks(s: State, e: Event)
    requires Inv(s) && CanStep(s, e) && Proceeds(e)
    ensures Work(Next(s, e)) < Work(s)
  {
    match e {
      case SendStep(err) => SendWorks(s, err);
      case _ =>
    }
  }

  lemma SendWorks(s: State, err: int)
    requires PcSound(s) && CanStep(s, SendStep(err)) && !Shortage(err)
    ensures Work(Next(s, SendStep(err))) < Work(s)
  {
    var n := Next(s, SendStep(err));
    assert n.ring == s.ring && n.sem == s.sem;
  }

  /** Left alone, the writer comes to rest: of steps of its own that are not held up by a
      shortage it can take no more than its work is, however the sends are answered. With
      WriterNeverStuck, it ends blocked, with nothing queued. */
  lemma {:induction false} WriterSettles(s: State, es: seq<Event>)
    requires Inv(s) && Legal(s, es) && forall e :: e in es ==> Proceeds(e)
    ensures |es| + Work(Run(s, es)) <= Work(s)
    decreases |es|
  {
    if es != [] {
      StepWorks(s, es[0]);
      InvStep(s, es[0]);
      WriterSettles(Next(s, es[0]), es[1..]);
    }
  }
}
