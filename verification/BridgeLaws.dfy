/** What every run of the UART bridge keeps. */
module BridgeLaws {
  import opened Words
  import opened RingBuffer
  import opened BridgeModel

  // --- Histories ----------------------------------------------------------------

  function Bytes(ps: seq<Piece>): seq<byte> {
    if ps == [] then [] else Bytes(ps[..|ps| - 1]) + ps[|ps| - 1].bytes
  }

  function LostBytes(ps: seq<Piece>): nat {
    if ps == [] then 0
    else LostBytes(ps[..|ps| - 1]) + if ps[|ps| - 1].Lost? then |ps[|ps| - 1].bytes| else 0
  }

  /** The bytes the peer saw. */
  function WireBytes(ps: seq<Piece>): seq<byte> {
    if ps == [] then []
    else WireBytes(ps[..|ps| - 1]) + if ps[|ps| - 1].OnWire? then ps[|ps| - 1].bytes else []
  }

  lemma Settled(ps: seq<Piece>, p: Piece)
    ensures Bytes(ps + [p]) == Bytes(ps) + p.bytes
    ensures LostBytes(ps + [p]) == LostBytes(ps) + if p.Lost? then |p.bytes| else 0
    ensures WireBytes(ps + [p]) == WireBytes(ps) + if p.OnWire? then p.bytes else []
  {
    assert (ps + [p])[..|ps|] == ps;
  }

  // --- Where the thread is --------------------------------------------------------

  predicate Staging(pc: Pc) {
    pc.Staged? || pc.StartFailed?
  }

  /** uart_reconfiguring is set. */
  predicate Flagged(pc: Pc) {
    pc in {BaudOwned, BaudAborted, BaudArmed, BaudWaiting, BaudQuiet, BaudConfig} || pc.BaudRestart?
  }

  /** A baud change is under way and has still to restart reception. */
  predicate WillRestartRx(pc: Pc) {
    || pc == BaudCancelled || Flagged(pc)
    || pc.BaudReleased? || pc.BaudAllocated? || pc.BaudRefused? || pc.BaudNoRx?
  }

  /** The error uart_bridge_set_baud has settled on. */
  function Outcome(pc: Pc): Option<int> {
    match pc
    case BaudRestart(err) => Some(err)
    case BaudReleased(err) => Some(err)
    case BaudAllocated(err, _) => Some(err)
    case BaudRefused(err, _) => Some(err)
    case BaudNoRx(err) => Some(err)
    case Kick(ToBaud(err)) => Some(err)
    case Staged(ToBaud(err)) => Some(err)
    case StartFailed(ToBaud(err), _) => Some(err)
    case _ => None
  }

  // --- Invariants -------------------------------------------------------------------

  function InFlight(t: Tx): seq<byte>
    requires t.len <= |t.buf|
  {
    if t.inProgress then t.buf[..t.len] else []
  }

  /** One transfer at a time, its buffer untouched, and the flags tell the truth. */
  predicate SingleFlight(t: Tx, pc: Pc, reconfiguring: bool) {
    && |t.buf| == STAGE_SIZE && |t.ring| <= RING_SIZE && t.len <= STAGE_SIZE
    && (t.inProgress <==> t.driver.TxBusy? || Staging(pc))
    && (Staging(pc) ==> t.driver == TxIdle)
    && (pc.StartFailed? ==> t.startFailed)
    && (t.driver.TxBusy? ==> t.driver.chunk == t.buf[..t.len])
    && (t.inProgress <==> t.len > 0)
    && !t.misuse
    && (reconfiguring <==> Flagged(pc))
  }

  /** Every accepted byte is on the wire, counted lost, staged or queued, in order. */
  predicate TxConserved(t: Tx) {
    && t.len <= |t.buf|
    && t.accepted == Bytes(t.settled) + InFlight(t) + t.ring
    && t.drops == LostBytes(t.settled) % U32_RANGE
  }

  /** Queued bytes are always on their way: a transfer is in flight, a kick or a baud
      change that ends in one is under way, or the latest uart_tx was refused. */
  predicate NoStall(t: Tx, pc: Pc) {
    t.ring != [] ==> t.inProgress || t.startFailed || pc.Kick? || WillRestartRx(pc)
  }

  function HandlerBuf(h: Handler): set<nat> {
    if h.Allocated? || h.Redundant? || h.Refused? then {h.buf} else {}
  }

  function ThreadBuf(pc: Pc): set<nat> {
    if pc.BaudAllocated? || pc.BaudRefused? then {pc.buf} else {}
  }

  /** Four disjoint parts of one whole. */
  ghost predicate Parts(all: set<nat>, a: set<nat>, b: set<nat>, c: set<nat>, d: set<nat>) {
    && a !! b && a !! c && a !! d && b !! c && b !! d && c !! d
    && forall x: nat :: x in all <==> x in a || x in b || x in c || x in d
  }

  /** The blocks are free, with the driver, or local to one of the two threads. */
  ghost predicate SlabPartition(r: Rx, pc: Pc, all: set<nat>) {
    && Parts(all, r.free, r.held, HandlerBuf(r.handler), ThreadBuf(pc))
    && (r.driver == RxOff ==> r.held == {})
    && !r.doubleFree
  }

  /** The handler will start reception, or put itself back on the timer. */
  predicate HandlerWillRetry(h: Handler) {
    h.Entered? || h.Checked? || h.Allocated? || h.Refused?
  }

  /** Reception is running, is about to report that it stopped, or somebody has the
      job of restarting it. */
  predicate RxAlive(r: Rx, pc: Pc) {
    || r.driver != RxOff
    || r.retryPending
    || HandlerWillRetry(r.handler)
    || WillRestartRx(pc)
  }

  /** set_baud is not left waiting for a DISABLED event that has come. */
  predicate Quiesces(r: Rx, pc: Pc) {
    pc == BaudWaiting && r.driver == RxOff ==> r.quiesced
  }

  predicate WarnedOnce(r: Rx) {
    r.warnings == if r.warned then 1 else 0
  }

  /** The rate is the one asked for exactly when the call is going to return 0. */
  predicate BaudHonest(s: State) {
    match Outcome(s.pc)
    case Some(err) =>
      if err == 0 then s.rate == s.target && s.applied == s.acked + [s.target]
      else s.rate == s.before && s.applied == s.acked
    case None =>
      && s.applied == s.acked
      && (WillRestartRx(s.pc) ==> s.rate == s.before)
  }

  ghost predicate Inv(s: State) {
    && SingleFlight(s.tx, s.pc, s.reconfiguring)
    && NoStall(s.tx, s.pc)
    && TxConserved(s.tx)
    && SlabPartition(s.rx, s.pc, SLAB)
    && RxAlive(s.rx, s.pc)
    && WarnedOnce(s.rx)
    && Quiesces(s.rx, s.pc)
    && BaudHonest(s)
  }

  // --- Steps --------------------------------------------------------------------------

  lemma Regroup(a: seq<byte>, b: seq<byte>, c: seq<byte>, d: seq<byte>)
    ensures a + (b + c) + d == a + b + c + d
  {
  }

  /** A transfer's bytes in two pieces, the second of which may be empty and left out. */
  lemma SettledInTwo(ps: seq<Piece>, wire: seq<byte>, lost: seq<byte>)
    ensures var qs := ps + [OnWire(wire)] + if lost == [] then [] else [Lost(lost)];
            Bytes(qs) == Bytes(ps) + (wire + lost) && LostBytes(qs) == LostBytes(ps) + |lost|
  {
    Settled(ps, OnWire(wire));
    if lost == [] {
      assert ps + [OnWire(wire)] + [] == ps + [OnWire(wire)] && wire + lost == wire;
    } else {
      Settled(ps + [OnWire(wire)], Lost(lost));
      Regroup(Bytes(ps), wire, lost, []);
    }
  }

  lemma SettleKeeps(t: Tx, sent: nat)
    requires TxConserved(t) && t.driver.TxBusy? && t.inProgress && t.driver.chunk == t.buf[..t.len]
    requires sent <= |t.driver.chunk|
    ensures TxConserved(Settle(t, sent))
  {
    var wire, lost := t.driver.chunk[..sent], t.driver.chunk[sent..];
    assert InFlight(t) == wire + lost;
    SettledInTwo(t.settled, wire, lost);
    AddU32Tracks(t.drops, LostBytes(t.settled), |lost|);
    var u := Settle(t, sent);
    assert u.accepted == Bytes(u.settled) + [] + u.ring;
  }

  /** The head of the queue moves into the front of the staging buffer. */
  lemma Restage(ring: seq<byte>, buf: seq<byte>, n: nat)
    requires n <= |ring| && n <= |buf|
    ensures (ring[..n] + buf[n..])[..n] == ring[..n] && ring[..n] + ring[n..] == ring
  {
  }

  lemma StageKeeps(t: Tx)
    requires TxConserved(t) && |t.buf| == STAGE_SIZE && !t.inProgress
    ensures TxConserved(Stage(t))
    ensures Stage(t).buf[..Stage(t).len] == t.ring[..Stage(t).len]
  {
    var n := Min(STAGE_SIZE, |t.ring|);
    Restage(t.ring, t.buf, n);
    Regroup(Bytes(t.settled), t.ring[..n], t.ring[n..], []);
    assert InFlight(t) == [];
  }

  lemma CleanUpKeeps(t: Tx, err: int)
    requires TxConserved(t) && t.inProgress
    ensures TxConserved(CleanUp(t, err))
  {
    Settled(t.settled, Lost(t.buf[..t.len]));
    AddU32Tracks(t.drops, LostBytes(t.settled), t.len);
  }

  lemma KickInIsrKeeps(t: Tx, reconfiguring: bool, err: int)
    requires TxConserved(t) && |t.buf| == STAGE_SIZE
    ensures TxConserved(KickInIsr(t, reconfiguring, err))
  {
    if !t.inProgress && !reconfiguring && t.ring != [] {
      StageKeeps(t);
      var u := Start(Stage(t), reconfiguring, err);
      assert TxConserved(u);
      if err != 0 {
        CleanUpKeeps(u, err);
      }
    }
  }

  lemma SendConserves(s: State, e: SendEvent)
    requires SingleFlight(s.tx, s.pc, s.reconfiguring) && TxConserved(s.tx) && CanSend(s, e)
    ensures TxConserved(NextSend(s, e).tx)
  {
    match e {
      case Put(data) =>
        var fits := data[..Min(|data|, RING_SIZE - |s.tx.ring|)];
        assert s.tx.accepted + fits == Bytes(s.tx.settled) + InFlight(s.tx) + (s.tx.ring + fits);
      case KickStage =>
        if !(s.tx.inProgress || s.reconfiguring || s.tx.ring == []) {
          StageKeeps(s.tx);
        }
      case KickStart(_) =>
      case KickCleanUp =>
        CleanUpKeeps(s.tx, s.pc.txErr);
    }
  }

  lemma SendFlight(s: State, e: SendEvent)
    requires SingleFlight(s.tx, s.pc, s.reconfiguring) && NoStall(s.tx, s.pc) && CanSend(s, e)
    ensures var n := NextSend(s, e);
            SingleFlight(n.tx, n.pc, n.reconfiguring) && NoStall(n.tx, n.pc)
  {
  }

  lemma SendRest(s: State, e: SendEvent)
    requires Inv(s) && CanSend(s, e)
    ensures var n := NextSend(s, e);
            && n.rx == s.rx && BaudHonest(n)
            && ThreadBuf(n.pc) == ThreadBuf(s.pc) && WillRestartRx(n.pc) == WillRestartRx(s.pc)
            && Quiesces(n.rx, n.pc)
  {
  }

  lemma TxIsrKeeps(t: Tx, pc: Pc, reconfiguring: bool, e: TxIsrEvent)
    requires SingleFlight(t, pc, reconfiguring) && NoStall(t, pc) && TxConserved(t) && CanTxIsr(t, e)
    ensures var u := NextTxIsr(t, reconfiguring, e);
            SingleFlight(u, pc, reconfiguring) && NoStall(u, pc) && TxConserved(u)
  {
    var sent := if e.TxDone? then |t.driver.chunk| else e.sent;
    SettleKeeps(t, sent);
    KickInIsrKeeps(Settle(t, sent), reconfiguring, e.err);
  }

  lemma RxIsrAlive(r: Rx, pc: Pc, reconfiguring: bool, e: RxIsrEvent)
    requires RxAlive(r, pc) && WarnedOnce(r) && Quiesces(r, pc) && (reconfiguring <==> Flagged(pc)) && CanRxIsr(r, e)
    ensures var n := NextRxIsr(r, reconfiguring, e);
            RxAlive(n, pc) && WarnedOnce(n) && Quiesces(n, pc)
  {
  }

  lemma RxIsrSlab(r: Rx, pc: Pc, reconfiguring: bool, e: RxIsrEvent, all: set<nat>)
    requires SlabPartition(r, pc, all) && CanRxIsr(r, e) && !e.RxDisabled?
    ensures SlabPartition(NextRxIsr(r, reconfiguring, e), pc, all)
  {
  }

  lemma DisabledSlab(r: Rx, pc: Pc, reconfiguring: bool, e: RxIsrEvent, all: set<nat>)
    requires SlabPartition(r, pc, all) && CanRxIsr(r, e) && e.RxDisabled?
    ensures SlabPartition(NextRxIsr(r, reconfiguring, e), pc, all)
  {
  }

  lemma RetryAlive(r: Rx, pc: Pc, reconfiguring: bool, e: RetryEvent)
    requires RxAlive(r, pc) && WarnedOnce(r) && Quiesces(r, pc) && (reconfiguring <==> Flagged(pc)) && CanRetry(r, e)
    ensures var n := NextRetry(r, reconfiguring, e);
            RxAlive(n, pc) && WarnedOnce(n) && Quiesces(n, pc)
  {
  }

  lemma RetrySlab(r: Rx, pc: Pc, reconfiguring: bool, e: RetryEvent, all: set<nat>)
    requires SlabPartition(r, pc, all) && CanRetry(r, e) && !e.GiveBack?
    ensures SlabPartition(NextRetry(r, reconfiguring, e), pc, all)
  {
  }

  lemma GiveBackSlab(r: Rx, pc: Pc, reconfiguring: bool, all: set<nat>)
    requires SlabPartition(r, pc, all) && CanRetry(r, GiveBack)
    ensures SlabPartition(NextRetry(r, reconfiguring, GiveBack), pc, all)
  {
  }

  lemma BaudFlight(s: State, e: BaudEvent)
    requires SingleFlight(s.tx, s.pc, s.reconfiguring) && NoStall(s.tx, s.pc) && CanBaud(s, e)
    ensures var n := NextBaud(s, e);
            n.tx == s.tx && SingleFlight(s.tx, n.pc, n.reconfiguring) && NoStall(s.tx, n.pc)
  {
  }

  lemma BaudAlive(s: State, e: BaudEvent)
    requires RxAlive(s.rx, s.pc) && WarnedOnce(s.rx) && Quiesces(s.rx, s.pc) && CanBaud(s, e)
    ensures var n := NextBaud(s, e);
            RxAlive(n.rx, n.pc) && WarnedOnce(n.rx) && Quiesces(n.rx, n.pc)
  {
  }

  lemma BaudKeepsHonest(s: State, e: BaudEvent)
    requires BaudHonest(s) && CanBaud(s, e)
    ensures BaudHonest(NextBaud(s, e))
  {
  }

  lemma BaudSlab(s: State, e: BaudEvent, all: set<nat>)
    requires SlabPartition(s.rx, s.pc, all) && CanBaud(s, e)
    ensures SlabPartition(NextBaud(s, e).rx, NextBaud(s, e).pc, all)
  {
  }

  /** Every step of every context keeps all of it. */
  lemma InvStep(s: State, e: Event)
    requires Inv(s) && CanStep(s, e)
    ensures Inv(Next(s, e))
  {
    match e {
      case Sender(x) =>
        SendFlight(s, x);
        SendConserves(s, x);
        SendRest(s, x);
      case TxIsr(x) =>
        TxIsrKeeps(s.tx, s.pc, s.reconfiguring, x);
      case RxIsr(x) =>
        RxIsrAlive(s.rx, s.pc, s.reconfiguring, x);
        if x.RxDisabled? {
          DisabledSlab(s.rx, s.pc, s.reconfiguring, x, SLAB);
        } else {
          RxIsrSlab(s.rx, s.pc, s.reconfiguring, x, SLAB);
        }
      case Retry(x) =>
        RetryAlive(s.rx, s.pc, s.reconfiguring, x);
        if x.GiveBack? {
          GiveBackSlab(s.rx, s.pc, s.reconfiguring, SLAB);
        } else {
          RetrySlab(s.rx, s.pc, s.reconfiguring, x, SLAB);
        }
      case Baud(x) =>
        BaudFlight(s, x);
        BaudAlive(s, x);
        BaudKeepsHonest(s, x);
        BaudSlab(s, x, SLAB);
    }
  }
}
