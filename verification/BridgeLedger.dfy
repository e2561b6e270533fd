/** The bridge's accounts, entry by entry: what the driver reported sent, what it refused or
    gave up, what it was handed, and when the retry work warned. */
module BridgeLedger {
  import opened Words
  import opened RingBuffer
  import opened Sequences
  import opened BridgeModel
  import opened BridgeLaws
  import opened BridgeRuns

  // --- Bytes ---------------------------------------------------------------------------------

  /** The bytes UART_TX_DONE and UART_TX_ABORTED report as sent in this step. */
  function SentNow(s: State, e: Event): seq<byte>
    requires CanStep(s, e)
  {
    match e
    case TxIsr(TxDone(_)) => s.tx.driver.chunk
    case TxIsr(TxAborted(sent, _)) => s.tx.driver.chunk[..sent]
    case _ => []
  }

  /** The ISR's kick after its report finds something to send. */
  predicate ChainsNow(s: State) {
    s.tx.ring != [] && !s.reconfiguring
  }

  /** The bytes aborted, or staged for a uart_tx that was refused. */
  function LostNow(s: State, e: Event): nat
    requires CanStep(s, e)
  {
    match e
    case Sender(KickCleanUp) => s.tx.len
    case TxIsr(TxDone(err)) => if ChainsNow(s) && err != 0 then Min(64, |s.tx.ring|) else 0
    case TxIsr(TxAborted(sent, err)) =>
      |s.tx.driver.chunk| - sent + if ChainsNow(s) && err != 0 then Min(64, |s.tx.ring|) else 0
    case _ => 0
  }

  function SentIn(s: State, es: seq<Event>): seq<byte>
    requires Legal(s, es)
    decreases |es|
  {
    if es == [] then [] else SentNow(s, es[0]) + SentIn(Next(s, es[0]), es[1..])
  }

  function LostIn(s: State, es: seq<Event>): nat
    requires Legal(s, es)
    decreases |es|
  {
    if es == [] then 0 else LostNow(s, es[0]) + LostIn(Next(s, es[0]), es[1..])
  }

  lemma SettleEntry(t: Tx, sent: nat)
    requires t.driver.TxBusy? && sent <= |t.driver.chunk|
    ensures WireBytes(Settle(t, sent).settled) == WireBytes(t.settled) + t.driver.chunk[..sent]
    ensures LostBytes(Settle(t, sent).settled) == LostBytes(t.settled) + (|t.driver.chunk| - sent)
  {
    var wire, lost := t.driver.chunk[..sent], t.driver.chunk[sent..];
    Settled(t.settled, OnWire(wire));
    if lost == [] {
      assert Settle(t, sent).settled == t.settled + [OnWire(wire)];
    } else {
      Settled(t.settled + [OnWire(wire)], Lost(lost));
    }
  }

  lemma CleanUpEntry(t: Tx, err: int)
    requires t.len <= |t.buf|
    ensures WireBytes(CleanUp(t, err).settled) == WireBytes(t.settled)
    ensures LostBytes(CleanUp(t, err).settled) == LostBytes(t.settled) + t.len
  {
    Settled(t.settled, Lost(t.buf[..t.len]));
  }

  lemma KickEntry(t: Tx, reconfiguring: bool, err: int)
    requires |t.buf| == STAGE_SIZE && !t.inProgress
    ensures var u := KickInIsr(t, reconfiguring, err);
            && WireBytes(u.settled) == WireBytes(t.settled)
            && LostBytes(u.settled) ==
                 LostBytes(t.settled) + if t.ring != [] && !reconfiguring && err != 0 then Min(64, |t.ring|) else 0
  {
    if t.ring != [] && !reconfiguring && err != 0 {
      CleanUpEntry(Start(Stage(t), reconfiguring, err), err);
    }
  }

  lemma TxIsrEntry(s: State, e: TxIsrEvent)
    requires CanStep(s, TxIsr(e))
    ensures var u := NextTxIsr(s.tx, s.reconfiguring, e);
            && WireBytes(u.settled) == WireBytes(s.tx.settled) + SentNow(s, TxIsr(e))
            && LostBytes(u.settled) == LostBytes(s.tx.settled) + LostNow(s, TxIsr(e))
  {
    var sent := if e.TxDone? then |s.tx.driver.chunk| else e.sent;
    SettleEntry(s.tx, sent);
    KickEntry(Settle(s.tx, sent), s.reconfiguring, e.err);
  }

  lemma SendEntry(s: State, e: SendEvent)
    requires CanStep(s, Sender(e))
    ensures var u := NextSend(s, e).tx;
            && WireBytes(u.settled) == WireBytes(s.tx.settled)
            && LostBytes(u.settled) == LostBytes(s.tx.settled) + LostNow(s, Sender(e))
  {
    if e == KickCleanUp {
      CleanUpEntry(s.tx, s.pc.txErr);
    }
  }

  lemma Entry(s: State, e: Event)
    requires CanStep(s, e)
    ensures WireBytes(Next(s, e).tx.settled) == WireBytes(s.tx.settled) + SentNow(s, e)
    ensures LostBytes(Next(s, e).tx.settled) == LostBytes(s.tx.settled) + LostNow(s, e)
  {
    match e {
      case Sender(x) => SendEntry(s, x);
      case TxIsr(x) => TxIsrEntry(s, x);
      case RxIsr(_) =>
      case Retry(_) =>
      case Baud(_) =>
    }
  }

  lemma {:induction false} Entries(s: State, es: seq<Event>)
    requires Legal(s, es)
    ensures WireBytes(Run(s, es).tx.settled) == WireBytes(s.tx.settled) + SentIn(s, es)
    ensures LostBytes(Run(s, es).tx.settled) == LostBytes(s.tx.settled) + LostIn(s, es)
    decreases |es|
  {
    if es != [] {
      var n := Next(s, es[0]);
      Entry(s, es[0]);
      Entries(n, es[1..]);
      Regrouped(WireBytes(s.tx.settled), SentNow(s, es[0]), SentIn(n, es[1..]));
    }
  }

  predicate Started(buf: nat, staging: seq<byte>, es: seq<Event>, rate: nat) {
    buf in SLAB && |staging| == STAGE_SIZE && Legal(AfterInit(buf, staging, rate), es)
  }

  /** Over every run from init: what has been sent is what the driver reported sent, what
      has been lost is what it aborted or refused, and the counter is that, mod 2^32;
      together with the staged chunk and the queue they are what was accepted. */
  lemma TxLedger(buf: nat, staging: seq<byte>, rate: nat, es: seq<Event>)
    requires Started(buf, staging, es, rate)
    ensures var s0 := AfterInit(buf, staging, rate); var s := Run(s0, es);
            && WireBytes(s.tx.settled) == SentIn(s0, es)
            && s.tx.drops == LostIn(s0, es) % U32_RANGE
            && |s.tx.accepted| == |SentIn(s0, es)| + LostIn(s0, es) + s.tx.len + |s.tx.ring|
  {
    Entries(AfterInit(buf, staging, rate), es);
    TxConservation(Run(AfterInit(buf, staging, rate), es));
  }

  lemma SendStages(s: State, e: SendEvent)
    requires CanSend(s, e) && |s.tx.buf| == STAGE_SIZE && !e.Put? && NextSend(s, e).tx.ring != s.tx.ring
    ensures NextSend(s, e).tx.ring == s.tx.ring[Min(64, |s.tx.ring|)..]
  {
  }

  lemma IsrStages(t: Tx, reconfiguring: bool, e: TxIsrEvent)
    requires CanTxIsr(t, e) && |t.buf| == STAGE_SIZE && NextTxIsr(t, reconfiguring, e).ring != t.ring
    ensures NextTxIsr(t, reconfiguring, e).ring == t.ring[Min(64, |t.ring|)..]
  {
    var sent := if e.TxDone? then |t.driver.chunk| else e.sent;
    assert Settle(t, sent).ring == t.ring;
  }

  /** A kick takes as much as fits the staging buffer: 64 bytes, or all there are. */
  lemma FullChunks(s: State, e: Event)
    requires CanStep(s, e) && !(e.Sender? && e.send.Put?) && Next(s, e).tx.ring != s.tx.ring
    ensures Next(s, e).tx.ring == s.tx.ring[Min(64, |s.tx.ring|)..]
  {
    match e {
      case Sender(x) => SendStages(s, x);
      case TxIsr(x) => IsrStages(s.tx, s.reconfiguring, x);
      case RxIsr(_) =>
      case Retry(_) =>
      case Baud(_) =>
    }
  }

  // --- uart_tx's answers -----------------------------------------------------------------------

  /** What uart_tx answered in this step, if it was called. */
  function StartNow(s: State, e: Event): Option<int> {
    match e
    case Sender(KickStart(err)) => Some(err)
    case TxIsr(TxDone(err)) => if ChainsNow(s) then Some(err) else None
    case TxIsr(TxAborted(_, err)) => if ChainsNow(s) then Some(err) else None
    case _ => None
  }

  function LastStart(before: Option<int>, s: State, es: seq<Event>): Option<int>
    requires Legal(s, es)
    decreases |es|
  {
    if es == [] then before
    else LastStart(if StartNow(s, es[0]).Some? then StartNow(s, es[0]) else before, Next(s, es[0]), es[1..])
  }

  /** The latest error among them; 0 if there was none. */
  function LastRefusal(before: int, s: State, es: seq<Event>): int
    requires Legal(s, es)
    decreases |es|
  {
    if es == [] then before
    else
      var a := StartNow(s, es[0]);
      LastRefusal(if a.Some? && a.value != 0 then a.value else before, Next(s, es[0]), es[1..])
  }

  predicate Recorded(s: State, last: Option<int>, refusal: int) {
    && (s.tx.startFailed <==> last.Some? && last.value != 0)
    && (if s.pc.StartFailed? then s.pc.txErr == refusal else s.tx.lastErr == refusal)
  }

  lemma StepRecords(s: State, e: Event, last: Option<int>, refusal: int)
    requires Inv(s) && CanStep(s, e) && Recorded(s, last, refusal)
    ensures var a := StartNow(s, e);
            Recorded(Next(s, e), if a.Some? then a else last, if a.Some? && a.value != 0 then a.value else refusal)
  {
    match e {
      case Sender(x) => SendRecords(s, x, last, refusal);
      case TxIsr(_) =>
      case RxIsr(_) =>
      case Retry(_) =>
      case Baud(x) => BaudRecords(s, x, last, refusal);
    }
  }

  lemma SendRecords(s: State, e: SendEvent, last: Option<int>, refusal: int)
    requires CanStep(s, Sender(e)) && Recorded(s, last, refusal)
    ensures var a := StartNow(s, Sender(e));
            Recorded(NextSend(s, e), if a.Some? then a else last, if a.Some? && a.value != 0 then a.value else refusal)
  {
  }

  lemma BaudRecords(s: State, e: BaudEvent, last: Option<int>, refusal: int)
    requires CanBaud(s, e) && Recorded(s, last, refusal)
    ensures Recorded(NextBaud(s, e), last, refusal)
  {
  }

  lemma {:induction false} RunRecords(s: State, es: seq<Event>, last: Option<int>, refusal: int)
    requires Inv(s) && Legal(s, es) && Recorded(s, last, refusal)
    ensures Recorded(Run(s, es), LastStart(last, s, es), LastRefusal(refusal, s, es))
    decreases |es|
  {
    if es != [] {
      var a := StartNow(s, es[0]);
      StepRecords(s, es[0], last, refusal);
      InvStep(s, es[0]);
      RunRecords(Next(s, es[0]), es[1..], if a.Some? then a else last,
                 if a.Some? && a.value != 0 then a.value else refusal);
    }
  }

  /** No stalled transmission, over every run from init: at rest, queued bytes mean a
      transfer in flight or that uart_tx, when it was called last, answered an error; and
      the error kept for the report is the last one it answered. */
  lemma OnlyRefusalStalls(buf: nat, staging: seq<byte>, rate: nat, es: seq<Event>)
    requires Started(buf, staging, es, rate)
    ensures var s0 := AfterInit(buf, staging, rate); var s := Run(s0, es);
            s.pc == Idle ==>
              && (s.tx.ring != [] ==> s.tx.driver.TxBusy? || LastStart(Some(0), s0, es) != Some(0))
              && s.tx.lastErr == LastRefusal(0, s0, es)
  {
    var s0 := AfterInit(buf, staging, rate);
    InitInv(buf, staging, rate);
    RunInv(s0, es);
    RunRecords(s0, es, Some(0), 0);
    LastAnswered(Some(0), s0, es);
  }

  lemma {:induction false} LastAnswered(before: Option<int>, s: State, es: seq<Event>)
    requires Legal(s, es) && before.Some?
    ensures LastStart(before, s, es).Some?
    decreases |es|
  {
    if es != [] {
      LastAnswered(if StartNow(s, es[0]).Some? then StartNow(s, es[0]) else before, Next(s, es[0]), es[1..]);
    }
  }

  // --- Reception ---------------------------------------------------------------------------------

  /** A buffer request is answered whenever the slab has a block. */
  lemma RequestServed(s: State, buf: nat)
    requires Reachable(s) && CanStep(s, RxIsr(BufRequest(buf)))
    ensures var n := Next(s, RxIsr(BufRequest(buf))).rx;
            && n.held == s.rx.held + (if s.rx.free != {} then {buf} else {})
            && n.free == s.rx.free - n.held
            && (s.rx.free != {} ==> buf !in s.rx.held)
  {
    ReachableInv(s);
    var n := Next(s, RxIsr(BufRequest(buf))).rx;
    assert s.rx.free !! s.rx.held;
    assert n.free == s.rx.free - n.held;
  }

  /** Whether this step of the retry paths warns or, having got reception going, ends the
      outage. */
  function LatchNow(s: State, e: Event): Option<bool> {
    match e
    case Retry(Alloc(_)) => if s.rx.free == {} then Some(true) else None
    case Retry(Enable(err)) => if err == 0 then Some(false) else None
    case Retry(GiveBack) => Some(s.rx.handler.Refused?)
    case RxIsr(RxDisabled(_, err, _)) =>
      if !s.reconfiguring && s.rx.free != {} && (err == 0 || err == -EBUSY) then Some(false) else None
    case _ => None
  }

  function LatchIn(before: bool, s: State, es: seq<Event>): bool
    requires Legal(s, es)
    decreases |es|
  {
    if es == [] then before
    else LatchIn(if LatchNow(s, es[0]).Some? then LatchNow(s, es[0]).value else before, Next(s, es[0]), es[1..])
  }

  lemma IsrLatches(s: State, e: RxIsrEvent)
    requires CanRxIsr(s.rx, e)
    ensures NextRxIsr(s.rx, s.reconfiguring, e).warned ==
              if LatchNow(s, RxIsr(e)).Some? then LatchNow(s, RxIsr(e)).value else s.rx.warned
  {
  }

  lemma RetryLatches(s: State, e: RetryEvent)
    requires CanRetry(s.rx, e)
    ensures NextRetry(s.rx, s.reconfiguring, e).warned ==
              if LatchNow(s, Retry(e)).Some? then LatchNow(s, Retry(e)).value else s.rx.warned
  {
  }

  lemma BaudLatches(s: State, e: BaudEvent)
    requires CanBaud(s, e)
    ensures NextBaud(s, e).rx.warned == s.rx.warned
  {
  }

  lemma StepLatches(s: State, e: Event)
    requires CanStep(s, e)
    ensures Next(s, e).rx.warned == if LatchNow(s, e).Some? then LatchNow(s, e).value else s.rx.warned
  {
    match e {
      case Sender(x) => SendBystander(s, x);
      case TxIsr(_) =>
      case RxIsr(x) => IsrLatches(s, x);
      case Retry(x) => RetryLatches(s, x);
      case Baud(x) => BaudLatches(s, x);
    }
  }

  /** The latch is down after every end of an outage and up after every failed attempt
      since, so that each outage warns once, and the next one warns again. */
  lemma {:induction false} LatchFollows(s: State, es: seq<Event>)
    requires Legal(s, es)
    ensures Run(s, es).rx.warned == LatchIn(s.rx.warned, s, es)
    decreases |es|
  {
    if es != [] {
      StepLatches(s, es[0]);
      LatchFollows(Next(s, es[0]), es[1..]);
    }
  }
}
