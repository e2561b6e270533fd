/** src/uart_bridge.c in its own shape: static variables changed in place. Each method
    is one atomic section, proved against the step it takes in BridgeModel. */
module UartBridge {
  import opened Words
  import opened RingBuffer
  import opened UartRxRetry
  import M = BridgeModel

  /** The transmit statics: ring, staging buffer, flags and counters. */
  class TxPath {
    const ring: Ring
    const buf: array<byte>
    var inProgress: bool
    var len: nat
    var drops: u32
    var lastErr: int
    ghost var driver: M.TxDriver
    ghost var accepted: seq<byte>
    ghost var settled: seq<M.Piece>
    ghost var startFailed: bool
    ghost var misuse: bool

    constructor ()
      ensures Valid() && fresh(ring) && fresh(ring.data) && fresh(buf)
      ensures Value() == M.Tx([], buf[..], false, 0, 0, 0, M.TxIdle, [], [], false, false)
    {
      ring := new Ring(RING_SIZE);
      buf := new byte[M.STAGE_SIZE];
      inProgress, len, drops, lastErr := false, 0, 0, 0;
      driver, accepted, settled, startFailed, misuse := M.TxIdle, [], [], false, false;
    }

    ghost predicate Valid()
      reads ring, ring.data
    {
      && ring.Valid() && ring.Capacity() == RING_SIZE
      && buf.Length == M.STAGE_SIZE && buf != ring.data
    }

    ghost function Value(): M.Tx
      reads this, ring, buf
    {
      M.Tx(ring.contents, buf[..], inProgress, len, drops, lastErr, driver, accepted, settled, startFailed, misuse)
    }

    /** uart_bridge_send's ring_buf_put. */
    method Put(data: seq<byte>)
      requires Valid()
      modifies this`accepted, ring, ring.data
      ensures Valid() && Value() == M.Queue(old(Value()), data)
    {
      var queued := ring.Put(data);
      accepted := accepted + data[..queued];
    }

    /** The next chunk into the staging buffer, under irq_lock. */
    method Stage() returns (staged: nat)
      requires Valid() && !inProgress
      modifies this`inProgress, this`len, ring, ring.data, buf
      ensures Valid() && (staged == 0 <==> old(ring.contents) == [])
      ensures Value() == if staged == 0 then old(Value()) else M.Stage(old(Value()))
    {
      staged := ring.Get(buf);
      if staged == 0 {
        return;
      }
      inProgress, len := true, staged;
    }

    /** uart_tx on the staged bytes. */
    method Start(reconfiguring: bool, err: int)
      requires len <= buf.Length
      modifies this`driver, this`misuse, this`startFailed
      ensures Value() == M.Start(old(Value()), reconfiguring, err)
    {
      misuse := misuse || driver != M.TxIdle || reconfiguring;
      startFailed := err != 0;
      if err == 0 {
        driver := M.TxBusy(buf[..len]);
      }
    }

    /** The staged chunk is dropped after a refused uart_tx. */
    method CleanUp(err: int)
      requires len <= buf.Length
      modifies this`drops, this`lastErr, this`inProgress, this`len, this`settled
      ensures Value() == M.CleanUp(old(Value()), err)
    {
      drops := AddU32(drops, len);
      lastErr := err;
      settled := settled + [M.Lost(buf[..len])];
      inProgress := false;
      len := 0;
    }

    /** uart_tx_kick in the ISR, where nothing comes between its parts. */
    method KickInIsr(reconfiguring: bool, err: int)
      requires Valid()
      modifies this, ring, ring.data, buf
      ensures Valid() && Value() == M.KickInIsr(old(Value()), reconfiguring, err)
    {
      if inProgress || reconfiguring {
        return;
      }
      var staged := Stage();
      if staged == 0 {
        return;
      }
      Start(reconfiguring, err);
      if err != 0 {
        CleanUp(err);
      }
    }

    /** The driver is done with the transfer: `wire` of its bytes went out. */
    ghost method Report(wire: nat)
      requires driver.TxBusy? && wire <= |driver.chunk|
      modifies this`driver, this`settled
      ensures driver == M.TxIdle
      ensures var c := old(driver.chunk);
              settled == old(settled) + [M.OnWire(c[..wire])] + if c[wire..] == [] then [] else [M.Lost(c[wire..])]
    {
      var c := driver.chunk;
      settled := settled + [M.OnWire(c[..wire])] + if c[wire..] == [] then [] else [M.Lost(c[wire..])];
      driver := M.TxIdle;
    }

    /** UART_TX_DONE, up to its kick. */
    method Done()
      requires driver.TxBusy? && len <= |driver.chunk|
      modifies this
      ensures Value() == M.Settle(old(Value()), |old(driver.chunk)|)
    {
      Report(|driver.chunk|);
      inProgress := false;
      len := 0;
    }

    /** UART_TX_ABORTED, up to its kick. */
    method Aborted(sent: nat)
      requires driver.TxBusy? && sent <= |driver.chunk|
      modifies this
      ensures Value() == M.Settle(old(Value()), sent)
    {
      Report(sent);
      var aborted := if len > sent then len - sent else 0;
      if aborted > 0 {
        drops := AddU32(drops, aborted);
      }
      inProgress := false;
      len := 0;
    }
  }

  /** The receive statics: slab, rx_quiesced, retry work and its warning latch. */
  class RxPath {
    var free: set<nat>
    var quiesced: bool
    var retryPending: bool
    var warned: bool
    var handler: M.Handler
    ghost var held: set<nat>
    ghost var driver: M.RxDriver
    ghost var warnings: nat
    ghost var doubleFree: bool

    constructor ()
      ensures Value() == M.Rx(M.SLAB, {}, M.RxOff, false, false, M.Resting, false, 0, false)
    {
      free, quiesced, retryPending, warned, handler := M.SLAB, false, false, false, M.Resting;
      held, driver, warnings, doubleFree := {}, M.RxOff, 0, false;
    }

    ghost function Value(): M.Rx
      reads this
    {
      M.Rx(free, held, driver, quiesced, retryPending, handler, warned, warnings, doubleFree)
    }

    /** k_mem_slab_alloc. */
    method Alloc(buf: nat) returns (ok: bool)
      requires M.AllocAnswer(free, buf)
      modifies this`free
      ensures ok == (old(free) != {}) && free == if ok then old(free) - {buf} else old(free)
    {
      ok := free != {};
      if ok {
        free := free - {buf};
      }
    }

    /** k_mem_slab_free. */
    method Free(buf: nat)
      modifies this`free, this`doubleFree
      ensures Value() == M.Free(old(Value()), buf)
    {
      doubleFree := doubleFree || buf in free;
      free := free + {buf};
    }

    /** What an accepted uart_rx_enable does. */
    ghost method Enabled(buf: nat)
      modifies this`driver, this`held
      ensures Value() == M.Enabled(old(Value()), buf)
    {
      driver, held := M.RxLive, held + {buf};
    }

    /** uart_rx_retry_warn_once: at most one warning per outage. */
    method WarnOnce()
      modifies this`warned, this`warnings
      ensures Value() == M.WarnOnce(old(Value()))
    {
      if !warned {
        warned := true;
        warnings := warnings + 1;
      }
    }

    /** uart_rx_retry_clear_latch. */
    method ClearLatch()
      modifies this`warned, this`warnings
      ensures Value() == M.ClearLatch(old(Value()))
    {
      warned, warnings := false, 0;
    }

    // --- uart_cb -------------------------------------------------------------------

    /** UART_RX_BUF_REQUEST: answered with a block if there is one. */
    method BufRequest(buf: nat)
      requires M.CanRxIsr(Value(), M.BufRequest(buf))
      modifies this
      ensures Value() == M.NextRxIsr(old(Value()), false, M.BufRequest(buf))
    {
      var ok := Alloc(buf);
      if ok {
        held := held + {buf};
      }
    }

    /** UART_RX_BUF_RELEASED. */
    method BufReleased(buf: Option<nat>)
      requires M.CanRxIsr(Value(), M.BufReleased(buf))
      modifies this
      ensures Value() == M.NextRxIsr(old(Value()), false, M.BufReleased(buf))
    {
      if buf.Some? {
        held := held - {buf.value};
        Free(buf.value);
      }
    }

    /** UART_RX_DISABLED. */
    method Disabled(reconfiguring: bool, buf: nat, err: int, live: bool)
      requires M.CanRxIsr(Value(), M.RxDisabled(buf, err, live))
      modifies this
      ensures Value() == M.NextRxIsr(old(Value()), reconfiguring, M.RxDisabled(buf, err, live))
    {
      driver := M.RxOff;
      if reconfiguring {
        quiesced := true;
        return;
      }
      var ok := Alloc(buf);
      if ok {
        if EnableSucceeded(err) {
          if err == -EBUSY {
            Free(buf);
            driver := if live then M.RxLive else M.RxStopping;
          } else {
            Enabled(buf);
          }
          ClearLatch();
          return;
        }
        Free(buf);
      }
      retryPending := true;
    }

    // --- uart_rx_retry_handler -----------------------------------------------------

    method RetryFire()
      requires M.CanRetry(Value(), M.Fire)
      modifies this
      ensures Value() == M.NextRetry(old(Value()), false, M.Fire)
    {
      retryPending := false;
      handler := M.Entered;
    }

    method RetryCheck(reconfiguring: bool)
      requires M.CanRetry(Value(), M.Check)
      modifies this
      ensures Value() == M.NextRetry(old(Value()), reconfiguring, M.Check)
    {
      handler := if reconfiguring then M.Resting else M.Checked;
    }

    method RetryAlloc(buf: nat)
      requires M.CanRetry(Value(), M.Alloc(buf))
      modifies this
      ensures Value() == M.NextRetry(old(Value()), false, M.Alloc(buf))
    {
      var ok := Alloc(buf);
      if !ok {
        WarnOnce();
        retryPending := true;
        handler := M.Resting;
        return;
      }
      handler := M.Allocated(buf);
    }

    method RetryEnable(err: int)
      requires M.CanRetry(Value(), M.Enable(err))
      modifies this
      ensures Value() == M.NextRetry(old(Value()), false, M.Enable(err))
    {
      if !EnableSucceeded(err) {
        handler := M.Refused(handler.buf);
      } else if err == -EBUSY {
        handler := M.Redundant(handler.buf);
      } else {
        Enabled(handler.buf);
        ClearLatch();
        handler := M.Resting;
      }
    }

    method RetryGiveBack()
      requires M.CanRetry(Value(), M.GiveBack)
      modifies this
      ensures Value() == M.NextRetry(old(Value()), false, M.GiveBack)
    {
      Free(handler.buf);
      if handler.Redundant? {
        ClearLatch();
      } else {
        WarnOnce();
        retryPending := true;
      }
      handler := M.Resting;
    }
  }

  /** The module: both directions, uart_reconfiguring and the calling thread. */
  class Bridge {
    const tx: TxPath
    const rx: RxPath
    var deviceSet: bool
    var reconfiguring: bool
    var pc: M.Pc
    var target: nat
    var result: int
    ghost var rate: nat
    ghost var before: nat
    ghost var applied: seq<nat>
    ghost var acked: seq<nat>

    constructor (bootRate: nat)
      ensures Valid() && !deviceSet && Snapshot() == Booted() && rate == bootRate
      ensures fresh(tx) && fresh(rx) && fresh(tx.ring) && fresh(tx.ring.data) && fresh(tx.buf)
    {
      tx := new TxPath();
      rx := new RxPath();
      deviceSet, reconfiguring, pc, target, result := false, false, M.Idle, bootRate, 0;
      rate, before, applied, acked := bootRate, bootRate, [], [];
    }

    ghost predicate Valid()
      reads this, tx.ring, tx.ring.data
    {
      tx.Valid()
    }

    ghost function Snapshot(): M.State
      reads this, tx, tx.ring, tx.buf, rx
    {
      M.State(tx.Value(), rx.Value(), reconfiguring, rate, pc, target, result, before, applied, acked)
    }

    /** Before uart_bridge_init. */
    ghost function Booted(): M.State
      reads this, tx.buf
    {
      M.State(
        M.Tx([], tx.buf[..], false, 0, 0, 0, M.TxIdle, [], [], false, false),
        M.Rx(M.SLAB, {}, M.RxOff, false, false, M.Resting, false, 0, false),
        false, rate, M.Idle, rate, 0, rate, [], [])
    }

    /** uart_bridge_init: success leaves reception running, failure leaks no block. */
    method Init(ready: bool, callbackErr: int, buf: nat, enableErr: int) returns (err: int)
      requires Valid() && !deviceSet && Snapshot() == Booted() && buf in M.SLAB
      modifies this`deviceSet, rx
      ensures Valid() && deviceSet
      ensures err == 0 <==> ready && callbackErr == 0 && enableErr == 0
      ensures err == 0 ==> Snapshot() == M.AfterInit(buf, tx.buf[..], rate)
      ensures err != 0 ==> rx.free == M.SLAB && rx.held == {} && rx.driver == M.RxOff
    {
      deviceSet := true;
      if !ready {
        return -ENODEV;
      }
      if callbackErr != 0 {
        return callbackErr;
      }
      var ok := rx.Alloc(buf);
      if enableErr != 0 {
        rx.Free(buf);
        return enableErr;
      }
      rx.Enabled(buf);
      return 0;
    }

    /** Leave the function that kicked; a 0 from set_baud is acknowledged. */
    method Return(k: M.Kont)
      modifies this`pc, this`result, this`acked
      ensures Snapshot() == M.Return(old(Snapshot()), k)
    {
      pc := M.Idle;
      if k.ToBaud? {
        result := k.err;
        if k.err == 0 {
          acked := acked + [target];
        }
      }
    }

    // --- uart_bridge_send and uart_tx_kick in thread context ---------------------------

    method Send(data: seq<byte>)
      requires Valid() && M.CanSend(Snapshot(), M.Put(data))
      modifies this`pc, tx, tx.ring, tx.ring.data
      ensures Valid() && Snapshot() == M.NextSend(old(Snapshot()), M.Put(data))
    {
      tx.Put(data);
      pc := M.Kick(M.ToSender);
    }

    /** uart_tx_kick up to irq_unlock. */
    method KickStage()
      requires Valid() && M.CanSend(Snapshot(), M.KickStage)
      modifies this`pc, this`result, this`acked, tx, tx.ring, tx.ring.data, tx.buf
      ensures Valid() && Snapshot() == M.NextSend(old(Snapshot()), M.KickStage)
    {
      if tx.inProgress || reconfiguring {
        Return(pc.k);
        return;
      }
      var staged := tx.Stage();
      if staged == 0 {
        Return(pc.k);
        return;
      }
      pc := M.Staged(pc.k);
    }

    /** Its driver call. */
    method KickStart(err: int)
      requires Valid() && M.CanSend(Snapshot(), M.KickStart(err))
      modifies this`pc, this`result, this`acked, tx
      ensures Valid() && Snapshot() == M.NextSend(old(Snapshot()), M.KickStart(err))
    {
      tx.Start(reconfiguring, err);
      if err != 0 {
        pc := M.StartFailed(pc.k, err);
      } else {
        Return(pc.k);
      }
    }

    /** Its error path. */
    method KickCleanUp()
      requires Valid() && M.CanSend(Snapshot(), M.KickCleanUp)
      modifies this`pc, this`result, this`acked, tx
      ensures Valid() && Snapshot() == M.NextSend(old(Snapshot()), M.KickCleanUp)
    {
      tx.CleanUp(pc.txErr);
      Return(pc.k);
    }

    /** uart_cb on UART_TX_DONE and UART_TX_ABORTED. */
    method TxEnded(e: M.TxIsrEvent)
      requires Valid() && M.CanTxIsr(tx.Value(), e) && (e.TxDone? ==> tx.len <= |tx.driver.chunk|)
      modifies tx, tx.ring, tx.ring.data, tx.buf
      ensures Valid() && tx.Value() == M.NextTxIsr(old(tx.Value()), reconfiguring, e)
    {
      match e {
        case TxDone(err) =>
          tx.Done();
          tx.KickInIsr(reconfiguring, err);
        case TxAborted(sent, err) =>
          tx.Aborted(sent);
          tx.KickInIsr(reconfiguring, err);
      }
    }

    // --- uart_bridge_set_baud ---------------------------------------------------------

    /** Entry, up to the cancelled retry work; refused before init. */
    method SetBaud(baud: nat) returns (err: int)
      requires M.CanBaud(Snapshot(), M.Call(baud))
      modifies this`pc, this`target, this`before, rx
      ensures Snapshot() == if deviceSet then M.NextBaud(old(Snapshot()), M.Call(baud)) else old(Snapshot())
      ensures err == if deviceSet then 0 else -ENODEV
    {
      if !deviceSet {
        return -ENODEV;
      }
      rx.retryPending := false;
      pc, target, before := M.BaudCancelled, baud, rate;
      return 0;
    }

    method BaudClaim()
      requires M.CanBaud(Snapshot(), M.Claim)
      modifies this`reconfiguring, this`pc
      ensures Snapshot() == M.NextBaud(old(Snapshot()), M.Claim)
    {
      reconfiguring := true;
      pc := M.BaudOwned;
    }

    /** uart_tx_abort only asks; TX_ABORTED or TX_DONE comes when the driver likes. */
    method BaudAbort()
      requires M.CanBaud(Snapshot(), M.Abort)
      modifies this`pc
      ensures Snapshot() == M.NextBaud(old(Snapshot()), M.Abort)
    {
      pc := M.BaudAborted;
    }

    method BaudReset()
      requires M.CanBaud(Snapshot(), M.Reset)
      modifies this`pc, rx
      ensures Snapshot() == M.NextBaud(old(Snapshot()), M.Reset)
    {
      rx.quiesced := false;
      pc := M.BaudArmed;
    }

    /** uart_rx_disable. */
    method BaudDisable(err: int)
      requires M.CanBaud(Snapshot(), M.Disable(err))
      modifies this`pc, rx
      ensures Snapshot() == M.NextBaud(old(Snapshot()), M.Disable(err))
    {
      if err == 0 {
        rx.driver := M.RxStopping;
        pc := M.BaudWaiting;
      } else if err != -EFAULT {
        pc := M.BaudRestart(err);
      } else {
        pc := M.BaudQuiet;
      }
    }

    /** k_sem_take on rx_quiesced, 200 ms. */
    method BaudWait(stopped: bool)
      requires M.CanBaud(Snapshot(), M.Wait(stopped))
      modifies this`pc, rx
      ensures Snapshot() == M.NextBaud(old(Snapshot()), M.Wait(stopped))
    {
      if stopped {
        rx.quiesced := false;
        pc := M.BaudQuiet;
      } else {
        pc := M.BaudRestart(-ETIMEDOUT);
      }
    }

    method BaudGetConfig(err: int)
      requires M.CanBaud(Snapshot(), M.GetConfig(err))
      modifies this`pc
      ensures Snapshot() == M.NextBaud(old(Snapshot()), M.GetConfig(err))
    {
      pc := if err != 0 then M.BaudRestart(err) else M.BaudConfig;
    }

    /** uart_configure; the restart label is next either way. */
    method BaudConfigure(err: int)
      requires M.CanBaud(Snapshot(), M.Configure(err))
      modifies this`pc, this`rate, this`applied
      ensures Snapshot() == M.NextBaud(old(Snapshot()), M.Configure(err))
    {
      if err == 0 {
        rate, applied := target, applied + [target];
      }
      pc := M.BaudRestart(err);
    }

    /** The restart label. */
    method BaudRelease()
      requires M.CanBaud(Snapshot(), M.Release)
      modifies this`reconfiguring, this`pc
      ensures Snapshot() == M.NextBaud(old(Snapshot()), M.Release)
    {
      reconfiguring := false;
      pc := M.BaudReleased(pc.err);
    }

    /** uart_bridge_start_rx: allocation, driver call, clean-up. */
    method BaudAllocRx(buf: nat)
      requires M.CanBaud(Snapshot(), M.AllocRx(buf))
      modifies this`pc, rx
      ensures Snapshot() == M.NextBaud(old(Snapshot()), M.AllocRx(buf))
    {
      var ok := rx.Alloc(buf);
      pc := if ok then M.BaudAllocated(pc.err, buf) else M.BaudNoRx(pc.err);
    }

    method BaudEnableRx(err: int)
      requires M.CanBaud(Snapshot(), M.EnableRx(err))
      modifies this`pc, rx
      ensures Snapshot() == M.NextBaud(old(Snapshot()), M.EnableRx(err))
    {
      if err != 0 {
        pc := M.BaudRefused(pc.err, pc.buf);
      } else {
        rx.Enabled(pc.buf);
        pc := M.Kick(M.ToBaud(pc.err));
      }
    }

    method BaudFreeRx()
      requires M.CanBaud(Snapshot(), M.FreeRx)
      modifies this`pc, rx
      ensures Snapshot() == M.NextBaud(old(Snapshot()), M.FreeRx)
    {
      rx.Free(pc.buf);
      pc := M.BaudNoRx(pc.err);
    }

    method BaudReschedule()
      requires M.CanBaud(Snapshot(), M.Reschedule)
      modifies this`pc, rx
      ensures Snapshot() == M.NextBaud(old(Snapshot()), M.Reschedule)
    {
      rx.retryPending := true;
      pc := M.Kick(M.ToBaud(pc.err));
    }
  }
}
