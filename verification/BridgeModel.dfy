/** src/uart_bridge.c as a state machine. ISR events are atomic; the one thread that
    calls uart_bridge_send and uart_bridge_set_baud, and the retry work handler, are
    cut at irq_lock/irq_unlock and at every driver call, so any interleaving of the
    three is a run. What the driver answers is part of the event. */
module BridgeModel {
  import opened Words
  import opened RingBuffer

  const STAGE_SIZE := 64
  const SLAB: set<nat> := {0, 1, 2, 3}

  // --- Transmission -----------------------------------------------------------

  /** The chunk is what uart_tx was given; the hardware reads it until it reports. */
  datatype TxDriver = TxIdle | TxBusy(chunk: seq<byte>)

  /** What became of a piece of the accepted stream. */
  datatype Piece = OnWire(bytes: seq<byte>) | Lost(bytes: seq<byte>)

  datatype Tx = Tx(
    ring: seq<byte>,
    buf: seq<byte>,
    inProgress: bool,
    len: nat,
    drops: u32,
    lastErr: int,
    driver: TxDriver,
    accepted: seq<byte>,    // history: every byte put in the ring
    settled: seq<Piece>,    // history: what left the staging buffer, in order
    startFailed: bool,      // history: the latest uart_tx was refused
    misuse: bool)           // history: uart_tx called on a busy driver or mid-reconfigure

  // --- Reception ----------------------------------------------------------------

  /** RxStopping: no longer receiving, UART_RX_DISABLED still to come. */
  datatype RxDriver = RxOff | RxLive | RxStopping

  /** Where the retry work handler is; its buffer is a handler-local slab block. */
  datatype Handler =
    | Resting
    | Entered               // before the uart_reconfiguring test
    | Checked               // before k_mem_slab_alloc
    | Allocated(buf: nat)   // before uart_rx_enable
    | Redundant(buf: nat)   // -EBUSY: buffer still to be freed
    | Refused(buf: nat)     // failed: buffer to be freed, work to be rescheduled

  datatype Rx = Rx(
    free: set<nat>,
    held: set<nat>,         // handed to the driver
    driver: RxDriver,
    quiesced: bool,         // the rx_quiesced semaphore
    retryPending: bool,
    handler: Handler,
    warned: bool,
    warnings: nat,          // history: warnings since the latch was last cleared
    doubleFree: bool)       // history: a free block was freed again

  // --- The calling thread ---------------------------------------------------------

  /** Who a kick returns to. */
  datatype Kont = ToSender | ToBaud(err: int)

  datatype Pc =
    | Idle
    | Kick(k: Kont)                       // uart_tx_kick entered
    | Staged(k: Kont)                     // lock released, uart_tx to come
    | StartFailed(k: Kont, txErr: int)    // uart_tx failed, clean-up to come
    | BaudCancelled                       // retry work cancelled
    | BaudOwned                           // uart_reconfiguring set
    | BaudAborted                         // uart_tx_abort called
    | BaudArmed                           // rx_quiesced reset
    | BaudWaiting                         // uart_rx_disable accepted
    | BaudQuiet                           // before uart_config_get
    | BaudConfig                          // before uart_configure
    | BaudRestart(err: int)               // at the restart label
    | BaudReleased(err: int)              // flag cleared, before the allocation
    | BaudAllocated(err: int, buf: nat)   // before uart_rx_enable
    | BaudRefused(err: int, buf: nat)     // buffer to be freed
    | BaudNoRx(err: int)                  // retry work to be rescheduled

  datatype State = State(
    tx: Tx,
    rx: Rx,
    reconfiguring: bool,
    rate: nat,
    pc: Pc,
    target: nat,            // the rate asked for by the call in progress
    result: int,            // what the latest uart_bridge_set_baud returned
    before: nat,            // history: the rate when that call began
    applied: seq<nat>,      // history: rates successfully configured
    acked: seq<nat>)        // history: baud commands acknowledged by the caller

  /** uart_bridge_send and uart_tx_kick, in the calling thread. */
  datatype SendEvent =
    | Put(data: seq<byte>)
    | KickStage
    | KickStart(err: int)
    | KickCleanUp

  /** uart_cb; `err` is what the handler's own driver call returns, if it makes one. */
  datatype TxIsrEvent =
    | TxDone(err: int)
    | TxAborted(sent: nat, err: int)

  datatype RxIsrEvent =
    | BufRequest(buf: nat)
    | BufReleased(released: Option<nat>)
    | RxStops                      // not a callback: out of buffers, line error
    | RxDisabled(buf: nat, err: int, live: bool)

  /** uart_rx_retry_handler, on the system workqueue. */
  datatype RetryEvent =
    | Fire
    | Check
    | Alloc(buf: nat)
    | Enable(err: int)
    | GiveBack

  /** uart_bridge_set_baud, in the calling thread. */
  datatype BaudEvent =
    | Call(baud: nat)
    | Claim
    | Abort
    | Reset
    | Disable(err: int)
    | Wait(stopped: bool)
    | GetConfig(err: int)
    | Configure(err: int)
    | Release
    | AllocRx(buf: nat)
    | EnableRx(err: int)
    | FreeRx
    | Reschedule

  datatype Event =
    | Sender(send: SendEvent)
    | TxIsr(txIsr: TxIsrEvent)
    | RxIsr(rxIsr: RxIsrEvent)
    | Retry(retry: RetryEvent)
    | Baud(baud: BaudEvent)

  // --- Library contracts ------------------------------------------------------------

  /** uart_tx accepts a transfer only while none is in flight. */
  predicate TxAnswer(d: TxDriver, err: int) {
    err == 0 ==> d == TxIdle
  }

  /** uart_rx_enable starts a stopped receiver; -EBUSY means it is receiving, or its
      DISABLED event is still to come. */
  predicate EnableAnswer(d: RxDriver, err: int) {
    (err == 0 ==> d == RxOff) && (err == -EBUSY ==> d != RxOff)
  }

  /** uart_rx_disable: 0 when reception will stop, -EFAULT when it is not running. */
  predicate DisableAnswer(d: RxDriver, err: int) {
    (err == 0 ==> d != RxOff) && (err == -EFAULT ==> d != RxLive)
  }

  /** k_mem_slab_alloc picks any free block. */
  predicate AllocAnswer(free: set<nat>, buf: nat) {
    free != {} ==> buf in free
  }

  // --- uart_bridge_send and uart_tx_kick ------------------------------------------------

  /** ring_buf_put: what does not fit is not accepted. */
  function Queue(t: Tx, data: seq<byte>): Tx
    requires |t.ring| <= RING_SIZE
  {
    var fits := data[..Min(|data|, RING_SIZE - |t.ring|)];
    t.(ring := t.ring + fits, accepted := t.accepted + fits)
  }

  /** The part under irq_lock, once there is something to stage. */
  function Stage(t: Tx): Tx
    requires |t.buf| == STAGE_SIZE
  {
    var n := Min(STAGE_SIZE, |t.ring|);
    t.(ring := t.ring[n..], buf := t.ring[..n] + t.buf[n..], inProgress := true, len := n)
  }

  function Start(t: Tx, reconfiguring: bool, err: int): Tx
    requires t.len <= |t.buf|
  {
    var u := t.(misuse := t.misuse || t.driver != TxIdle || reconfiguring, startFailed := err != 0);
    if err == 0 then u.(driver := TxBusy(t.buf[..t.len])) else u
  }

  function CleanUp(t: Tx, err: int): Tx
    requires t.len <= |t.buf|
  {
    t.(drops := AddU32(t.drops, t.len), lastErr := err, inProgress := false, len := 0,
       settled := t.settled + [Lost(t.buf[..t.len])])
  }

  /** The whole kick, as the ISR runs it. */
  function KickInIsr(t: Tx, reconfiguring: bool, err: int): Tx
    requires |t.buf| == STAGE_SIZE
  {
    if t.inProgress || reconfiguring || t.ring == [] then t
    else
      var u := Start(Stage(t), reconfiguring, err);
      if err == 0 then u else CleanUp(u, err)
  }

  /** The driver's report: `sent` bytes of the transfer reached the wire. */
  function Settle(t: Tx, sent: nat): Tx
    requires t.driver.TxBusy? && sent <= |t.driver.chunk|
  {
    var lost := t.driver.chunk[sent..];
    t.(inProgress := false, len := 0, driver := TxIdle,
       drops := AddU32(t.drops, if t.len > sent then t.len - sent else 0),
       settled := t.settled + [OnWire(t.driver.chunk[..sent])] + (if lost == [] then [] else [Lost(lost)]))
  }

  // --- Reception --------------------------------------------------------------------

  function Free(r: Rx, buf: nat): Rx {
    r.(free := r.free + {buf}, doubleFree := r.doubleFree || buf in r.free)
  }

  function Enabled(r: Rx, buf: nat): Rx {
    r.(driver := RxLive, held := r.held + {buf})
  }

  function ClearLatch(r: Rx): Rx {
    r.(warned := false, warnings := 0)
  }

  function WarnOnce(r: Rx): Rx {
    r.(warned := true, warnings := r.warnings + if r.warned then 0 else 1)
  }

  /** UART_RX_DISABLED outside a reconfigure: one inline attempt, else the work. An
      -EBUSY here says that reception is live after all, or that the DISABLED event
      that counts is still to come. */
  function RestartInIsr(r: Rx, buf: nat, err: int, live: bool): Rx {
    if r.free == {} then r.(retryPending := true)
    else
      var a := r.(free := r.free - {buf});
      if err == 0 then ClearLatch(Enabled(a, buf))
      else if err == -EBUSY then ClearLatch(Free(a, buf)).(driver := if live then RxLive else RxStopping)
      else Free(a, buf).(retryPending := true)
  }

  // --- Steps ------------------------------------------------------------------------

  function Return(s: State, k: Kont): State {
    match k
    case ToSender => s.(pc := Idle)
    case ToBaud(err) => s.(pc := Idle, result := err, acked := s.acked + if err == 0 then [s.target] else [])
  }

  predicate CanSend(s: State, e: SendEvent) {
    match e
    case Put(_) => s.pc == Idle && |s.tx.ring| <= RING_SIZE
    case KickStage => s.pc.Kick?
    case KickStart(err) => s.pc.Staged? && TxAnswer(s.tx.driver, err) && s.tx.len <= |s.tx.buf|
    case KickCleanUp => s.pc.StartFailed? && s.tx.len <= |s.tx.buf|
  }

  function NextSend(s: State, e: SendEvent): State
    requires CanSend(s, e) && |s.tx.buf| == STAGE_SIZE
  {
    var tx := s.tx;
    match e
    case Put(data) => s.(tx := Queue(tx, data), pc := Kick(ToSender))
    case KickStage =>
      if tx.inProgress || s.reconfiguring || tx.ring == [] then Return(s, s.pc.k)
      else s.(tx := Stage(tx), pc := Staged(s.pc.k))
    case KickStart(err) =>
      var t := s.(tx := Start(tx, s.reconfiguring, err));
      if err == 0 then Return(t, s.pc.k) else t.(pc := StartFailed(s.pc.k, err))
    case KickCleanUp =>
      Return(s.(tx := CleanUp(tx, s.pc.txErr)), s.pc.k)
  }

  predicate CanTxIsr(t: Tx, e: TxIsrEvent) {
    match e
    case TxDone(_) => t.driver.TxBusy?
    case TxAborted(sent, _) => t.driver.TxBusy? && sent <= |t.driver.chunk|
  }

  function NextTxIsr(t: Tx, reconfiguring: bool, e: TxIsrEvent): Tx
    requires CanTxIsr(t, e) && |t.buf| == STAGE_SIZE
  {
    match e
    case TxDone(err) => KickInIsr(Settle(t, |t.driver.chunk|), reconfiguring, err)
    case TxAborted(sent, err) => KickInIsr(Settle(t, sent), reconfiguring, err)
  }

  predicate CanRxIsr(r: Rx, e: RxIsrEvent) {
    match e
    case BufRequest(buf) => r.driver == RxLive && AllocAnswer(r.free, buf)
    case BufReleased(buf) => buf.Some? ==> buf.value in r.held
    case RxStops => r.driver == RxLive
    case RxDisabled(buf, _, _) => r.driver == RxStopping && r.held == {} && AllocAnswer(r.free, buf)
  }

  function NextRxIsr(r: Rx, reconfiguring: bool, e: RxIsrEvent): Rx
    requires CanRxIsr(r, e)
  {
    match e
    case BufRequest(buf) =>
      if r.free == {} then r else r.(free := r.free - {buf}, held := r.held + {buf})
    case BufReleased(None) => r
    case BufReleased(Some(buf)) => Free(r.(held := r.held - {buf}), buf)
    case RxStops => r.(driver := RxStopping)
    case RxDisabled(buf, err, live) =>
      var off := r.(driver := RxOff);
      if reconfiguring then off.(quiesced := true) else RestartInIsr(off, buf, err, live)
  }

  predicate CanRetry(r: Rx, e: RetryEvent) {
    match e
    case Fire => r.retryPending && r.handler == Resting
    case Check => r.handler == Entered
    case Alloc(buf) => r.handler == Checked && AllocAnswer(r.free, buf)
    case Enable(err) => r.handler.Allocated? && EnableAnswer(r.driver, err)
    case GiveBack => r.handler.Redundant? || r.handler.Refused?
  }

  function NextRetry(r: Rx, reconfiguring: bool, e: RetryEvent): Rx
    requires CanRetry(r, e)
  {
    match e
    case Fire => r.(retryPending := false, handler := Entered)
    case Check => r.(handler := if reconfiguring then Resting else Checked)
    case Alloc(buf) =>
      if r.free == {} then WarnOnce(r).(retryPending := true, handler := Resting)
      else r.(free := r.free - {buf}, handler := Allocated(buf))
    case Enable(err) =>
      var buf := r.handler.buf;
      if err == 0 then ClearLatch(Enabled(r, buf)).(handler := Resting)
      else r.(handler := if err == -EBUSY then Redundant(buf) else Refused(buf))
    case GiveBack =>
      var freed := Free(r, r.handler.buf).(handler := Resting);
      if r.handler.Redundant? then ClearLatch(freed) else WarnOnce(freed).(retryPending := true)
  }

  predicate CanBaud(s: State, e: BaudEvent) {
    match e
    case Call(_) => s.pc == Idle
    case Claim => s.pc == BaudCancelled
    case Abort => s.pc == BaudOwned
    case Reset => s.pc == BaudAborted
    case Disable(err) => s.pc == BaudArmed && DisableAnswer(s.rx.driver, err)
    case Wait(stopped) => s.pc == BaudWaiting && (stopped ==> s.rx.quiesced)
    case GetConfig(_) => s.pc == BaudQuiet
    case Configure(_) => s.pc == BaudConfig
    case Release => s.pc.BaudRestart?
    case AllocRx(buf) => s.pc.BaudReleased? && AllocAnswer(s.rx.free, buf)
    case EnableRx(err) => s.pc.BaudAllocated? && EnableAnswer(s.rx.driver, err)
    case FreeRx => s.pc.BaudRefused?
    case Reschedule => s.pc.BaudNoRx?
  }

  function NextBaud(s: State, e: BaudEvent): State
    requires CanBaud(s, e)
  {
    var rx := s.rx;
    match e
    case Call(baud) =>
      s.(rx := rx.(retryPending := false), pc := BaudCancelled, target := baud, before := s.rate)
    case Claim => s.(reconfiguring := true, pc := BaudOwned)
    case Abort => s.(pc := BaudAborted)
    case Reset => s.(rx := rx.(quiesced := false), pc := BaudArmed)
    case Disable(err) =>
      if err == 0 then s.(rx := rx.(driver := RxStopping), pc := BaudWaiting)
      else s.(pc := if err == -EFAULT then BaudQuiet else BaudRestart(err))
    case Wait(stopped) =>
      if stopped then s.(rx := rx.(quiesced := false), pc := BaudQuiet)
      else s.(pc := BaudRestart(-ETIMEDOUT))
    case GetConfig(err) => s.(pc := if err == 0 then BaudConfig else BaudRestart(err))
    case Configure(err) =>
      if err == 0 then s.(rate := s.target, applied := s.applied + [s.target], pc := BaudRestart(0))
      else s.(pc := BaudRestart(err))
    case Release => s.(reconfiguring := false, pc := BaudReleased(s.pc.err))
    case AllocRx(buf) =>
      if rx.free == {} then s.(pc := BaudNoRx(s.pc.err))
      else s.(rx := rx.(free := rx.free - {buf}), pc := BaudAllocated(s.pc.err, buf))
    case EnableRx(err) =>
      if err == 0 then s.(rx := Enabled(rx, s.pc.buf), pc := Kick(ToBaud(s.pc.err)))
      else s.(pc := BaudRefused(s.pc.err, s.pc.buf))
    case FreeRx => s.(rx := Free(rx, s.pc.buf), pc := BaudNoRx(s.pc.err))
    case Reschedule => s.(rx := rx.(retryPending := true), pc := Kick(ToBaud(s.pc.err)))
  }

  predicate CanStep(s: State, e: Event) {
    && |s.tx.buf| == STAGE_SIZE
    && match e
       case Sender(x) => CanSend(s, x)
       case TxIsr(x) => CanTxIsr(s.tx, x)
       case RxIsr(x) => CanRxIsr(s.rx, x)
       case Retry(x) => CanRetry(s.rx, x)
       case Baud(x) => CanBaud(s, x)
  }

  function Next(s: State, e: Event): State
    requires CanStep(s, e)
  {
    match e
    case Sender(x) => NextSend(s, x)
    case TxIsr(x) => s.(tx := NextTxIsr(s.tx, s.reconfiguring, x))
    case RxIsr(x) => s.(rx := NextRxIsr(s.rx, s.reconfiguring, x))
    case Retry(x) => s.(rx := NextRetry(s.rx, s.reconfiguring, x))
    case Baud(x) => NextBaud(s, x)
  }

  /** The state a successful uart_bridge_init leaves: reception running on one buffer. */
  function AfterInit(buf: nat, staging: seq<byte>, rate: nat): State
    requires buf in SLAB && |staging| == STAGE_SIZE
  {
    State(
      Tx([], staging, false, 0, 0, 0, TxIdle, [], [], false, false),
      Rx(SLAB - {buf}, {buf}, RxLive, false, false, Resting, false, 0, false),
      false, rate, Idle, rate, 0, rate, [], [])
  }
}
