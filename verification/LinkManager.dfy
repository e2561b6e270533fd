/** The link half of src/main.c in its own shape: callbacks and work handlers updating
    shared fields. Each method is one section between cuts, proved against the step it
    takes in LinkModel. */
module LinkManager {
  import opened Words
  import opened ProxyCore
  import M = LinkModel

  /** The Bluetooth host, as far as its contract goes. */
  class BtHost {
    var obj: M.Obj
    var refs: nat
    var recycledDue: nat
    var nextId: M.LinkId
    var bonds: set<M.Addr>
    var acceptList: set<M.Addr>

    constructor (stored: set<M.Addr>)
      ensures Value() == M.Host(M.Free, 0, 0, 0, stored, {})
    {
      obj, refs, recycledDue, nextId, bonds, acceptList := M.Free, 0, 0, 0, stored, {};
    }

    ghost function Value(): M.Host
      reads this
    {
      M.Host(obj, refs, recycledDue, nextId, bonds, acceptList)
    }

    method Ref()
      modifies this`refs
      ensures Value() == M.Ref(old(Value()))
    {
      refs := refs + 1;
    }

    /** bt_conn_unref. */
    method Unref()
      modifies this`refs, this`obj, this`recycledDue
      ensures Value() == M.UnrefHost(old(Value()))
    {
      if refs <= 1 {
        obj, refs, recycledDue := M.Free, 0, recycledDue + 1;
      } else {
        refs := refs - 1;
      }
    }

    /** The last callback has returned; the stack goes on to drop its own reference. */
    method CallbacksOver()
      modifies this`obj
      ensures Value() == if old(obj).Conn? then old(Value()).(obj := M.Conn(old(obj).id, M.Closing)) else old(Value())
    {
      if obj.Conn? {
        obj := M.Conn(obj.id, M.Closing);
      }
    }

    /** bt_le_adv_start. */
    method AdvStart(filtered: bool, slow: bool, err: int)
      modifies this`obj
      ensures Value() == if err == 0 then old(Value()).(obj := M.Advertiser(filtered, slow)) else old(Value())
    {
      if err == 0 {
        obj := M.Advertiser(filtered, slow);
      }
    }

    /** bt_le_adv_stop, accepted. */
    method AdvStop() returns (freed: bool)
      modifies this`obj, this`recycledDue
      ensures freed == old(obj).Advertiser? && Value() == M.AdvStop(old(Value()))
    {
      freed := obj.Advertiser?;
      if freed {
        obj, recycledDue := M.Free, recycledDue + 1;
      }
    }
  }

  /** The clock and the four delayable work items. */
  class WorkQueue {
    var now: nat
    var slow: bool
    var retry: bool
    var watchdog: Option<nat>
    var grace: Option<nat>

    constructor ()
      ensures Value() == M.Timers(0, false, false, None, None)
    {
      now, slow, retry, watchdog, grace := 0, false, false, None, None;
    }

    ghost function Value(): M.Timers
      reads this
    {
      M.Timers(now, slow, retry, watchdog, grace)
    }
  }

  class Link {
    const host: BtHost
    const timers: WorkQueue

    // The statics conn_mutex guards, and locked_mode.
    var currentConn: Option<M.LinkId>
    var linkSecure: bool
    var advActive: bool
    var lockedMode: bool
    var relayEnabled: bool
    const hasRelay: bool

    // Where the contexts are.
    var bt: M.Bt
    var work: M.Work
    var writer: M.Writer
    var entering: nat
    var failing: nat
    var starting: nat

    ghost var hist: M.History

    ghost function App(): M.App
      reads this
    {
      M.App(currentConn, linkSecure, advActive, lockedMode, relayEnabled, hasRelay)
    }

    ghost function Threads(): M.Threads
      reads this
    {
      M.Threads(bt, work, writer, entering, failing, starting)
    }

    ghost function Snapshot(): M.State
      reads this, host, timers
    {
      M.State(host.Value(), App(), timers.Value(), Threads(), hist)
    }

    /** main(), up to its call of advertising_start. */
    constructor (bonds: set<M.Addr>, rejected: set<M.Addr>, relayFitted: bool)
      ensures fresh(host) && fresh(timers)
      ensures Snapshot() == M.Booted(bonds, rejected, relayFitted)
    {
      host := new BtHost(bonds);
      timers := new WorkQueue();
      currentConn, linkSecure, advActive, lockedMode, relayEnabled := None, false, false, false, false;
      hasRelay := relayFitted;
      bt, work, writer, entering, failing, starting := M.BtIdle, M.WorkIdle, M.NoRef, 1, 0, 0;
      hist := M.History({}, None, 0, 0, false, {}, [], false, false, false, false, false);
      new;
      // refresh_locked_mode
      var bonded := host.bonds != {};
      host.acceptList := {};
      if bonded {
        host.acceptList := host.acceptList + (host.bonds - rejected);
      }
      hist := hist.(missing := bonds * rejected);
      lockedMode := bonded;
    }

    /** A stack call on a connection the firmware believes it holds. */
    ghost method Use(id: M.LinkId)
      modifies this`hist
      ensures Snapshot() == M.Use(old(Snapshot()), id)
    {
      hist := hist.(danglingUse := hist.danglingUse || !M.Alive(host.Value(), id));
    }

    /** bt_conn_unref. */
    method Release(id: M.LinkId)
      modifies this`hist, host
      ensures Snapshot() == (var u := M.Use(old(Snapshot()), id); u.(host := M.UnrefHost(u.host)))
    {
      Use(id);
      host.Unref();
    }

    /** relay_apply. */
    method RelayApply(enable: bool)
      modifies this`relayEnabled
      ensures App() == M.ApplyRelay(old(App()), enable)
    {
      if !hasRelay {
        return;
      }
      relayEnabled := enable;
    }

    // --- advertising_start ---------------------------------------------------------------

    /** bt_le_adv_start with adv_params_fast() or adv_params_slow(). */
    method StartAdvertiser(slow: bool, err: int)
      modifies this`hist, host`obj
      ensures Snapshot() == M.AdvStart(old(Snapshot()), slow, err)
    {
      hist := hist.(rivalStart := hist.rivalStart || host.obj.Advertiser?);
      host.AdvStart(lockedMode, slow, err);
    }

    /** advertising_start under conn_mutex. */
    method AdvertisingStart(err: int)
      modifies this`hist, this`advActive, this`starting, this`failing, host`obj
      ensures Snapshot() == M.AdvertisingStart(old(Snapshot()), err)
    {
      if !ShouldStartAdv(currentConn.Some?, advActive) {
        return;
      }
      StartAdvertiser(false, err);
      advActive := err == 0;
      if err != 0 {
        failing := failing + 1;
      } else {
        starting := starting + 1;
      }
    }

    /** A pending call of advertising_start takes the mutex. */
    method EnterAdvertisingStart(err: int)
      requires M.CanAdv(Snapshot(), M.Section(err))
      modifies this`entering, this`hist, this`advActive, this`starting, this`failing, host`obj
      ensures Snapshot() == M.NextAdv(old(Snapshot()), M.Section(err))
    {
      entering := entering - 1;
      AdvertisingStart(err);
    }

    /** Its error path, after the mutex. */
    method ScheduleRetry()
      requires M.CanAdv(Snapshot(), M.ScheduleRetry)
      modifies this`failing, timers
      ensures Snapshot() == M.NextAdv(old(Snapshot()), M.ScheduleRetry)
    {
      failing := failing - 1;
      timers.retry := true;
    }

    /** Its success path, after the mutex. */
    method ScheduleSlow()
      requires M.CanAdv(Snapshot(), M.ScheduleSlow)
      modifies this`starting, timers
      ensures Snapshot() == M.NextAdv(old(Snapshot()), M.ScheduleSlow)
    {
      starting := starting - 1;
      timers.slow := true;
    }

    // --- adv_slow_handler and adv_retry_handler ---------------------------------------------

    method SlowFire()
      requires M.CanWork(Snapshot(), M.SlowFire)
      modifies this`work, timers
      ensures Snapshot() == M.NextWork(old(Snapshot()), M.SlowFire)
    {
      timers.slow := false;
      work := M.SlowEntered;
    }

    /** bt_le_adv_stop in the switch. on_recycled may run inside it, on this thread,
        which already holds the recursive conn_mutex. */
    method StopAdvertiser(inline: bool, inlineErr: int)
      modifies this`hist, this`advActive, this`starting, this`failing, host
      ensures Snapshot() == M.Stopped(old(Snapshot()), inline, inlineErr)
    {
      var freed := host.AdvStop();
      if inline && freed {
        host.recycledDue := host.recycledDue - 1;
        AdvertisingStart(inlineErr);
      }
    }

    method AdvSlowHandler(stopErr: int, inline: bool, inlineErr: int, startErr: int)
      requires M.CanWork(Snapshot(), M.SlowSwitch(stopErr, inline, inlineErr, startErr))
      modifies this`work, this`hist, this`advActive, this`starting, this`failing, host
      ensures Snapshot() == M.NextWork(old(Snapshot()), M.SlowSwitch(stopErr, inline, inlineErr, startErr))
    {
      if currentConn.Some? || !advActive {
        work := M.WorkIdle;
        return;
      }
      if stopErr != 0 {
        work := M.SlowStopFailed;
        return;
      }
      StopAdvertiser(inline, inlineErr);
      StartAdvertiser(true, startErr);
      if startErr != 0 {
        advActive := false;
        work := M.SlowFailed;
      } else {
        work := M.WorkIdle;
      }
    }

    method SlowAgain()
      requires M.CanWork(Snapshot(), M.SlowAgain)
      modifies this`work, timers
      ensures Snapshot() == M.NextWork(old(Snapshot()), M.SlowAgain)
    {
      timers.slow := true;
      work := M.WorkIdle;
    }

    /** The second look at current_conn, to tell the race from a failure. */
    method SlowRecheck()
      requires M.CanWork(Snapshot(), M.SlowRecheck)
      modifies this`work
      ensures Snapshot() == M.NextWork(old(Snapshot()), M.SlowRecheck)
    {
      work := if currentConn.Some? then M.WorkIdle else M.SlowNoConn;
    }

    method SlowRetry()
      requires M.CanWork(Snapshot(), M.SlowRetry)
      modifies this`work, timers
      ensures Snapshot() == M.NextWork(old(Snapshot()), M.SlowRetry)
    {
      timers.retry := true;
      work := M.WorkIdle;
    }

    /** adv_retry_handler calls advertising_start. */
    method RetryFire()
      requires M.CanWork(Snapshot(), M.RetryFire)
      modifies this`entering, timers
      ensures Snapshot() == M.NextWork(old(Snapshot()), M.RetryFire)
    {
      timers.retry := false;
      entering := entering + 1;
    }

    // --- security_timeout_handler -------------------------------------------------------------

    method WatchdogFire()
      requires M.CanWork(Snapshot(), M.WatchdogFire)
      modifies this`work, timers
      ensures Snapshot() == M.NextWork(old(Snapshot()), M.WatchdogFire)
    {
      timers.watchdog := None;
      work := M.WatchdogEntered;
    }

    /** ref_unsecured_conn. */
    method RefUnsecuredConn()
      requires M.CanWork(Snapshot(), M.WorkEvent.WatchdogRef)
      modifies this`work, this`hist, host
      ensures Snapshot() == M.NextWork(old(Snapshot()), M.WorkEvent.WatchdogRef)
    {
      if currentConn.Some? && !linkSecure {
        Use(currentConn.value);
        host.Ref();
        work := M.WatchdogHolding(currentConn.value);
      } else {
        work := M.WorkIdle;
      }
    }

    /** bt_conn_disconnect; its result is ignored. */
    method WatchdogDisconnect()
      requires M.CanWork(Snapshot(), M.WatchdogDisconnect)
      modifies this`work, this`hist
      ensures Snapshot() == M.NextWork(old(Snapshot()), M.WatchdogDisconnect)
    {
      Use(work.id);
      hist := hist.(disconnectRequested := true);
      work := M.WatchdogCalled(work.id);
    }

    method WatchdogUnref()
      requires M.CanWork(Snapshot(), M.WatchdogUnref)
      modifies this`work, this`hist, host
      ensures Snapshot() == M.NextWork(old(Snapshot()), M.WatchdogUnref)
    {
      Release(work.id);
      work := M.WorkIdle;
    }

    // --- relay_grace_handler ------------------------------------------------------------------

    method GraceFire()
      requires M.CanWork(Snapshot(), M.GraceFire)
      modifies this`work, timers
      ensures Snapshot() == M.NextWork(old(Snapshot()), M.GraceFire)
    {
      timers.grace := None;
      work := M.GraceEntered;
    }

    method RelayGraceHandler()
      requires M.CanWork(Snapshot(), M.GraceDecide)
      modifies this`work, this`relayEnabled
      ensures Snapshot() == M.NextWork(old(Snapshot()), M.GraceDecide)
    {
      var back := currentConn.Some? && linkSecure;
      if !back && relayEnabled {
        RelayApply(false);
      }
      work := M.WorkIdle;
    }

    // --- on_connected -------------------------------------------------------------------------

    method OnConnected()
      requires M.CanCallback(Snapshot(), M.OnConnected)
      modifies this`advActive, this`currentConn, this`linkSecure, this`bt, this`hist, host
      ensures Snapshot() == M.NextCallback(old(Snapshot()), M.OnConnected)
    {
      var id, ok := host.obj.id, host.obj.phase.ok;
      advActive := false;
      if ok {
        hist := hist.(overwrote := hist.overwrote || currentConn.Some?);
        host.obj := M.Conn(id, M.Up);
        host.Ref();
        currentConn := Some(id);
        linkSecure := false;
        bt := M.ConnCancel;
      } else {
        host.obj := M.Conn(id, M.Closing);
      }
    }

    method CancelSlow()
      requires M.CanCallback(Snapshot(), M.CancelSlow)
      modifies this`bt, timers
      ensures Snapshot() == M.NextCallback(old(Snapshot()), M.CancelSlow)
    {
      timers.slow := false;
      bt := M.ConnArm;
    }

    method ArmWatchdog()
      requires M.CanCallback(Snapshot(), M.ArmWatchdog)
      modifies this`bt, this`hist, timers
      ensures Snapshot() == M.NextCallback(old(Snapshot()), M.ArmWatchdog)
    {
      timers.watchdog := Some(timers.now + SecurityWindowMs(lockedMode));
      hist := hist.(armedAt := timers.now);
      bt := M.BtIdle;
    }

    // --- on_security_changed ------------------------------------------------------------------

    method OnSecurityChanged(level: nat, err: int)
      requires M.CanCallback(Snapshot(), M.OnSecurityChanged(level, err))
      modifies this`linkSecure, this`bt, this`hist
      ensures Snapshot() == M.NextCallback(old(Snapshot()), M.OnSecurityChanged(level, err))
    {
      if err != 0 {
        return;
      }
      if level >= M.SECURITY_L2 {
        linkSecure := true;
        hist := hist.(encrypted := hist.encrypted + {host.obj.id});
        bt := M.SecCancelWatchdog;
      }
    }

    method CancelWatchdog()
      requires M.CanCallback(Snapshot(), M.CancelWatchdog)
      modifies this`bt, timers
      ensures Snapshot() == M.NextCallback(old(Snapshot()), M.CancelWatchdog)
    {
      timers.watchdog := None;
      bt := M.SecCancelGrace;
    }

    method CancelGrace()
      requires M.CanCallback(Snapshot(), M.CancelGrace)
      modifies this`bt, timers
      ensures Snapshot() == M.NextCallback(old(Snapshot()), M.CancelGrace)
    {
      timers.grace := None;
      bt := M.BtIdle;
    }

    // --- nus_received and relay_set -------------------------------------------------------------

    /** The gate: link_secure is read once. */
    method NusReceived(relay: Option<bool>)
      requires M.CanCallback(Snapshot(), M.OnNus(relay))
      modifies this`bt
      ensures Snapshot() == M.NextCallback(old(Snapshot()), M.OnNus(relay))
    {
      bt := M.NusRead(linkSecure, relay);
    }

    /** Dispatch; relay_set first cancels the timer. */
    method RelaySet()
      requires M.CanCallback(Snapshot(), M.RelayCancel)
      modifies this`bt, timers
      ensures Snapshot() == M.NextCallback(old(Snapshot()), M.RelayCancel)
    {
      if !bt.secure || bt.relay.None? {
        bt := M.BtIdle;
        return;
      }
      timers.grace := None;
      bt := M.NusCancelled(bt.relay.value);
    }

    method RelaySetApply()
      requires M.CanCallback(Snapshot(), M.RelayApply)
      modifies this`bt, this`relayEnabled, this`hist
      ensures Snapshot() == M.NextCallback(old(Snapshot()), M.RelayApply)
    {
      RelayApply(bt.enable);
      hist := hist.(command :=
        Some(M.RelayCommand(bt.enable, currentConn.Some? && currentConn.value in hist.encrypted)));
      bt := M.BtIdle;
    }

    // --- pairing_complete: refresh_locked_mode ----------------------------------------------------

    method ClearList()
      requires M.CanCallback(Snapshot(), M.ClearList)
      modifies this`bt, this`hist, host
      ensures Snapshot() == M.NextCallback(old(Snapshot()), M.ClearList)
    {
      var bonded := host.bonds != {};
      hist := hist.(listInUse := hist.listInUse || host.obj.Advertiser?);
      host.acceptList := {};
      bt := M.PairAdd(bonded);
    }

    /** bt_foreach_bond with bt_le_filter_accept_list_add; a refused add is only logged. */
    method AddBonds(rejected: set<M.Addr>)
      requires M.CanCallback(Snapshot(), M.AddBonds(rejected))
      modifies this`bt, this`hist, host
      ensures Snapshot() == M.NextCallback(old(Snapshot()), M.AddBonds(rejected))
    {
      ghost var added := if bt.bonded then host.bonds - rejected else {};
      hist := hist.(missing := host.bonds - added, listInUse := hist.listInUse || host.obj.Advertiser?);
      if bt.bonded {
        host.acceptList := host.acceptList + (host.bonds - rejected);
      }
      bt := M.PairMode(bt.bonded);
    }

    method SetMode()
      requires M.CanCallback(Snapshot(), M.SetMode)
      modifies this`bt, this`lockedMode
      ensures Snapshot() == M.NextCallback(old(Snapshot()), M.SetMode)
    {
      lockedMode := bt.bonded;
      bt := M.BtIdle;
    }

    // --- on_disconnected ----------------------------------------------------------------------------

    /** relay_grace_start reads relay_enabled. */
    method OnDisconnected()
      requires M.CanCallback(Snapshot(), M.OnDisconnected)
      modifies this`bt
      ensures Snapshot() == M.NextCallback(old(Snapshot()), M.OnDisconnected)
    {
      bt := M.DiscRead(relayEnabled);
    }

    method RelayGraceStart()
      requires M.CanCallback(Snapshot(), M.GraceStart)
      modifies this`bt, this`hist, timers
      ensures Snapshot() == M.NextCallback(old(Snapshot()), M.GraceStart)
    {
      hist := hist.(lostAt := timers.now);
      if bt.held {
        timers.grace := Some(timers.now + M.RELAY_GRACE_MS);
      }
      bt := M.DiscArmed(bt.held);
    }

    method DisconnectCancel()
      requires M.CanCallback(Snapshot(), M.DisconnectCancel)
      modifies this`bt, timers
      ensures Snapshot() == M.NextCallback(old(Snapshot()), M.DisconnectCancel)
    {
      timers.watchdog := None;
      bt := M.DiscCancelled(bt.held);
    }

    method DropConn()
      requires M.CanCallback(Snapshot(), M.DropConn)
      modifies this`bt, this`currentConn, this`linkSecure, this`hist, host
      ensures Snapshot() == M.NextCallback(old(Snapshot()), M.DropConn)
    {
      if currentConn.Some? {
        Release(currentConn.value);
        currentConn := None;
      }
      linkSecure := false;
      host.CallbacksOver();
      hist := hist.(lostAt := timers.now);
      bt := M.BtIdle;
    }

    // --- ble_write_thread's reference ----------------------------------------------------------------

    method WriterTakeRef()
      requires M.CanWriter(Snapshot(), M.TakeRef)
      modifies this`writer, this`hist, host
      ensures Snapshot() == M.NextWriter(old(Snapshot()), M.TakeRef)
    {
      if MayForward(currentConn.Some?, linkSecure) {
        Use(currentConn.value);
        host.Ref();
        writer := M.Holding(currentConn.value);
      }
    }

    /** bt_gatt_get_mtu and the claim. */
    method WriterClaim()
      requires M.CanWriter(Snapshot(), M.Claim)
      modifies this`writer, this`hist
      ensures Snapshot() == M.NextWriter(old(Snapshot()), M.Claim)
    {
      Use(writer.id);
      writer := M.Claimed(writer.id);
    }

    /** bt_nus_send. */
    method WriterSend()
      requires M.CanWriter(Snapshot(), M.Send)
      modifies this`hist
      ensures Snapshot() == M.NextWriter(old(Snapshot()), M.Send)
    {
      Use(writer.id);
      hist := hist.(sent := hist.sent + [M.Sent(writer.id, M.Occupant(host.Value()))]);
    }

    method WriterUnref()
      requires M.CanWriter(Snapshot(), M.Unref)
      modifies this`writer, this`hist, host
      ensures Snapshot() == M.NextWriter(old(Snapshot()), M.Unref)
    {
      Release(writer.id);
      writer := M.NoRef;
    }
  }
}
