/** The link lifecycle of src/main.c as a state machine. Code is cut at conn_mutex
    boundaries and at every work-queue call; sections under the mutex are atomic. The
    Bluetooth stack is nondeterministic: its answers are part of the events. Handlers
    that have started are not stopped by a cancel, so they carry a location. */
module LinkModel {
  import opened Words
  import opened ProxyCore

  const RELAY_GRACE_MS := 60000
  const SECURITY_L2 := 2

  type Addr = nat
  type LinkId = nat

  // --- The host stack ---------------------------------------------------------------

  /** Attempt: the controller took the advertiser, on_connected is due. Lost: the link
      is gone, on_disconnected is due or running. Closing: callbacks over, the stack
      still holds its reference. Ended: only the firmware's references are left. */
  datatype Phase = Attempt(ok: bool) | Up | Lost | Closing | Ended

  /** The single connection object (CONFIG_BT_MAX_CONN=1). Legacy connectable
      advertising pre-allocates it, so a live advertiser occupies it too. */
  datatype Obj = Free | Advertiser(filtered: bool, slow: bool) | Conn(id: LinkId, phase: Phase)

  datatype Host = Host(
    obj: Obj,
    refs: nat,
    recycledDue: nat,
    nextId: LinkId,
    bonds: set<Addr>,
    acceptList: set<Addr>)

  // --- The firmware -------------------------------------------------------------------

  datatype App = App(
    cur: Option<LinkId>,   // current_conn
    secure: bool,          // link_secure
    advActive: bool,
    locked: bool,          // locked_mode
    relay: bool,           // relay_enabled
    hasRelay: bool)        // the board has a relay GPIO

  /** Delayable work: slow and retry matter only as pending, the other two by deadline. */
  datatype Timers = Timers(
    now: nat,
    slow: bool,
    retry: bool,
    watchdog: Option<nat>,
    grace: Option<nat>)

  /** The callback of the connection that is running, and where. */
  datatype Bt =
    | BtIdle
    | ConnCancel | ConnArm                        // on_connected
    | SecCancelWatchdog | SecCancelGrace          // on_security_changed
    | NusRead(secure: bool, relay: Option<bool>)  // nus_received, gate read
    | NusCancelled(enable: bool)                  // relay_set, timer cancelled
    | PairClear | PairAdd(bonded: bool) | PairMode(bonded: bool)   // refresh_locked_mode
    | DiscRead(held: bool)                        // on_disconnected: relay_grace_start
    | DiscArmed(held: bool)
    | DiscCancelled(held: bool)

  /** The handler running on the system workqueue. */
  datatype Work =
    | WorkIdle
    | SlowEntered          // adv_slow_handler
    | SlowStopFailed       // to be rescheduled
    | SlowFailed           // to look at current_conn again
    | SlowNoConn           // to schedule the retry
    | WatchdogEntered      // security_timeout_handler
    | WatchdogHolding(id: LinkId)
    | WatchdogCalled(id: LinkId)
    | GraceEntered         // relay_grace_handler

  /** ble_write_thread's use of the connection. */
  datatype Writer = NoRef | Holding(id: LinkId) | Claimed(id: LinkId)

  /** Calls of advertising_start are counted by stage: about to take the mutex, about
      to schedule the retry, about to schedule the slow switch. */
  datatype Threads = Threads(
    bt: Bt,
    work: Work,
    writer: Writer,
    entering: nat,
    failing: nat,
    starting: nat)

  /** A notification: the link its bytes were claimed under, the link it went out on. */
  datatype Sent = Sent(claimed: LinkId, used: LinkId)

  /** A relay command that reached relay_set. */
  datatype RelayCommand = RelayCommand(enable: bool, encrypted: bool)

  datatype History = History(
    encrypted: set<LinkId>,             // links that reached security level 2
    command: Option<RelayCommand>,      // the last one accepted since boot
    lostAt: nat,                        // the latest disconnect
    armedAt: nat,                       // the latest on_connected
    disconnectRequested: bool,          // on the present link
    missing: set<Addr>,                 // bonds the accept list would not take
    sent: seq<Sent>,
    rivalStart: bool,                   // bt_le_adv_start while an advertiser was live
    overwrote: bool,                    // on_connected over a live current_conn
    danglingUse: bool,                  // a stack call on a recycled object
    listInUse: bool,                    // accept list edited while advertising
    strangerIn: bool)                   // an unbonded peer connected to a bonded device

  datatype State = State(host: Host, app: App, timers: Timers, threads: Threads, hist: History)

  // --- Events -------------------------------------------------------------------------

  datatype StackEvent =
    | Connect(ok: bool, peer: Addr)
    | LoseLink
    | StoreBond(peer: Addr)      // pairing finished and bonded; pairing_complete follows
    | ReleaseRef
    | DeliverRecycled

  datatype BtEvent =
    | OnConnected
    | CancelSlow
    | ArmWatchdog
    | OnSecurityChanged(level: nat, err: int)
    | CancelWatchdog
    | CancelGrace
    | OnNus(relay: Option<bool>)
    | RelayCancel
    | RelayApply
    | ClearList
    | AddBonds(rejected: set<Addr>)
    | SetMode
    | OnDisconnected
    | GraceStart
    | DisconnectCancel
    | DropConn

  datatype AdvEvent =
    | Section(err: int)
    | ScheduleRetry
    | ScheduleSlow

  datatype WorkEvent =
    | SlowFire
    | SlowSwitch(stopErr: int, inline: bool, inlineErr: int, startErr: int)
    | SlowAgain
    | SlowRecheck
    | SlowRetry
    | RetryFire
    | WatchdogFire
    | WatchdogRef
    | WatchdogDisconnect
    | WatchdogUnref
    | GraceFire
    | GraceDecide

  datatype WriterEvent = TakeRef | Claim | Send | Unref

  datatype Event =
    | Stack(stack: StackEvent)
    | Callback(bt: BtEvent)
    | Adv(adv: AdvEvent)
    | OnWork(work: WorkEvent)
    | OnWriter(writer: WriterEvent)
    | Tick(ms: nat)

  // --- Stack contracts ------------------------------------------------------------------

  predicate Alive(h: Host, id: LinkId) {
    h.obj.Conn? && h.obj.id == id
  }

  /** bt_le_adv_start needs the connection object. */
  predicate StartAnswer(h: Host, err: int) {
    err == 0 ==> h.obj == Free
  }

  /** The link a call on the connection object acts on. */
  function Occupant(h: Host): LinkId {
    if h.obj.Conn? then h.obj.id else h.nextId
  }

  function Ref(h: Host): Host {
    h.(refs := h.refs + 1)
  }

  /** bt_conn_unref: the last one returns the object to the pool. */
  function UnrefHost(h: Host): Host {
    if h.refs <= 1 then h.(obj := Free, refs := 0, recycledDue := h.recycledDue + 1)
    else h.(refs := h.refs - 1)
  }

  function Use(s: State, id: LinkId): State {
    s.(hist := s.hist.(danglingUse := s.hist.danglingUse || !Alive(s.host, id)))
  }

  /** bt_le_adv_start at either interval, with the filter locked_mode picks. */
  function AdvStart(s: State, slow: bool, err: int): State {
    var t := s.(hist := s.hist.(rivalStart := s.hist.rivalStart || s.host.obj.Advertiser?));
    if err == 0 then t.(host := s.host.(obj := Advertiser(s.app.locked, slow))) else t
  }

  /** bt_le_adv_stop: gives the pre-allocated object back. */
  function AdvStop(h: Host): Host {
    if h.obj.Advertiser? then h.(obj := Free, recycledDue := h.recycledDue + 1) else h
  }

  // --- advertising_start and adv_slow_handler ------------------------------------------------

  /** The section under conn_mutex. */
  function AdvertisingStart(s: State, err: int): State {
    if !ShouldStartAdv(s.app.cur.Some?, s.app.advActive) then s
    else
      var t := AdvStart(s, false, err);
      if err == 0 then t.(app := t.app.(advActive := true), threads := t.threads.(starting := t.threads.starting + 1))
      else t.(app := t.app.(advActive := false), threads := t.threads.(failing := t.threads.failing + 1))
  }

  /** The slow switch after its stop succeeded. `recycled` for the object just freed
      may be delivered inline, inside the stop: conn_mutex is recursive. */
  function Stopped(s: State, inline: bool, err: int): State {
    var t := s.(host := AdvStop(s.host));
    if inline && s.host.obj.Advertiser?
    then AdvertisingStart(t.(host := t.host.(recycledDue := s.host.recycledDue)), err)
    else t
  }

  function SlowSection(s: State, stopErr: int, inline: bool, inlineErr: int, startErr: int): State {
    if s.app.cur.Some? || !s.app.advActive then s.(threads := s.threads.(work := WorkIdle))
    else if stopErr != 0 then s.(threads := s.threads.(work := SlowStopFailed))
    else
      var t := AdvStart(Stopped(s, inline, inlineErr), true, startErr);
      if startErr == 0 then t.(threads := t.threads.(work := WorkIdle))
      else t.(app := t.app.(advActive := false), threads := t.threads.(work := SlowFailed))
  }

  // --- Steps ----------------------------------------------------------------------------------

  predicate LinkRunning(h: Host) {
    h.obj.Conn? && (h.obj.phase == Up || h.obj.phase == Lost)
  }

  predicate CanStack(s: State, e: StackEvent) {
    match e
    case Connect(_, peer) => s.host.obj.Advertiser? && (s.host.obj.filtered ==> peer in s.host.acceptList)
    case LoseLink => s.host.obj.Conn? && s.host.obj.phase == Up
    case StoreBond(peer) => s.threads.bt == BtIdle && LinkRunning(s.host) && s.host.bonds <= {peer}
    case ReleaseRef => s.host.obj.Conn? && s.host.obj.phase == Closing
    case DeliverRecycled => s.host.recycledDue > 0
  }

  function NextStack(s: State, e: StackEvent): State
    requires CanStack(s, e)
  {
    var h := s.host;
    match e
    case Connect(ok, peer) =>
      s.(host := h.(obj := Conn(h.nextId, Attempt(ok)), refs := 1, nextId := h.nextId + 1),
         hist := s.hist.(disconnectRequested := false,
                         strangerIn := s.hist.strangerIn || (h.bonds != {} && peer !in h.bonds)))
    case LoseLink => s.(host := h.(obj := Conn(h.obj.id, Lost)))
    case StoreBond(peer) => s.(host := h.(bonds := {peer}), threads := s.threads.(bt := PairClear))
    case ReleaseRef => s.(host := UnrefHost(h.(obj := Conn(h.obj.id, Ended))))
    case DeliverRecycled =>
      s.(host := h.(recycledDue := h.recycledDue - 1), threads := s.threads.(entering := s.threads.entering + 1))
  }

  predicate CanCallback(s: State, e: BtEvent) {
    var bt, h := s.threads.bt, s.host;
    match e
    case OnConnected => bt == BtIdle && h.obj.Conn? && h.obj.phase.Attempt?
    case CancelSlow => bt == ConnCancel
    case ArmWatchdog => bt == ConnArm
    case OnSecurityChanged(_, _) => bt == BtIdle && LinkRunning(h)
    case CancelWatchdog => bt == SecCancelWatchdog
    case CancelGrace => bt == SecCancelGrace
    case OnNus(_) => bt == BtIdle && LinkRunning(h)
    case RelayCancel => bt.NusRead?
    case RelayApply => bt.NusCancelled?
    case ClearList => bt == PairClear
    case AddBonds(_) => bt.PairAdd?
    case SetMode => bt.PairMode?
    case OnDisconnected => bt == BtIdle && h.obj.Conn? && h.obj.phase == Lost
    case GraceStart => bt.DiscRead?
    case DisconnectCancel => bt.DiscArmed?
    case DropConn => bt.DiscCancelled? && h.obj.Conn?
  }

  function At(s: State, bt: Bt): State {
    s.(threads := s.threads.(bt := bt))
  }

  /** relay_apply: nothing to drive on a board without the GPIO. */
  function ApplyRelay(a: App, enable: bool): App {
    if a.hasRelay then a.(relay := enable) else a
  }

  function NextCallback(s: State, e: BtEvent): State
    requires CanCallback(s, e)
  {
    var h, a, t := s.host, s.app, s.timers;
    match e
    case OnConnected =>
      if h.obj.phase.ok then
        At(s.(host := Ref(h.(obj := Conn(h.obj.id, Up))),
              app := a.(advActive := false, cur := Some(h.obj.id), secure := false),
              hist := s.hist.(overwrote := s.hist.overwrote || a.cur.Some?)), ConnCancel)
      else
        s.(host := h.(obj := Conn(h.obj.id, Closing)), app := a.(advActive := false))
    case CancelSlow => At(s.(timers := t.(slow := false)), ConnArm)
    case ArmWatchdog =>
      At(s.(timers := t.(watchdog := Some(t.now + SecurityWindowMs(a.locked))),
            hist := s.hist.(armedAt := t.now)), BtIdle)
    case OnSecurityChanged(level, err) =>
      if err != 0 || level < SECURITY_L2 then s
      else At(s.(app := a.(secure := true),
                 hist := s.hist.(encrypted := s.hist.encrypted + {h.obj.id})), SecCancelWatchdog)
    case CancelWatchdog => At(s.(timers := t.(watchdog := None)), SecCancelGrace)
    case CancelGrace => At(s.(timers := t.(grace := None)), BtIdle)
    case OnNus(relay) => At(s, NusRead(a.secure, relay))
    case RelayCancel =>
      if s.threads.bt.secure && s.threads.bt.relay.Some?
      then At(s.(timers := t.(grace := None)), NusCancelled(s.threads.bt.relay.value))
      else At(s, BtIdle)
    case RelayApply =>
      var enable := s.threads.bt.enable;
      At(s.(app := ApplyRelay(a, enable),
            hist := s.hist.(command :=
              Some(RelayCommand(enable, a.cur.Some? && a.cur.value in s.hist.encrypted)))), BtIdle)
    case ClearList =>
      At(s.(host := h.(acceptList := {}), hist := s.hist.(listInUse := s.hist.listInUse || h.obj.Advertiser?)),
         PairAdd(h.bonds != {}))
    case AddBonds(rejected) =>
      var add := if s.threads.bt.bonded then h.bonds - rejected else {};
      At(s.(host := h.(acceptList := h.acceptList + add),
            hist := s.hist.(missing := h.bonds - add, listInUse := s.hist.listInUse || h.obj.Advertiser?)),
         PairMode(s.threads.bt.bonded))
    case SetMode => At(s.(app := a.(locked := s.threads.bt.bonded)), BtIdle)
    case OnDisconnected => At(s, DiscRead(a.relay))
    case GraceStart =>
      At(s.(timers := if s.threads.bt.held then t.(grace := Some(t.now + RELAY_GRACE_MS)) else t,
            hist := s.hist.(lostAt := t.now)), DiscArmed(s.threads.bt.held))
    case DisconnectCancel => At(s.(timers := t.(watchdog := None)), DiscCancelled(s.threads.bt.held))
    case DropConn =>
      var u := if a.cur.Some? then Use(s, a.cur.value).(host := UnrefHost(h)) else s;
      var o := if u.host.obj.Conn? then u.host.(obj := Conn(u.host.obj.id, Closing)) else u.host;
      At(u.(host := o, app := a.(cur := None, secure := false), hist := u.hist.(lostAt := t.now)), BtIdle)
  }

  predicate CanAdv(s: State, e: AdvEvent) {
    match e
    case Section(err) => s.threads.entering > 0 && StartAnswer(s.host, err)
    case ScheduleRetry => s.threads.failing > 0
    case ScheduleSlow => s.threads.starting > 0
  }

  function NextAdv(s: State, e: AdvEvent): State
    requires CanAdv(s, e)
  {
    var th := s.threads;
    match e
    case Section(err) => AdvertisingStart(s.(threads := th.(entering := th.entering - 1)), err)
    case ScheduleRetry => s.(threads := th.(failing := th.failing - 1), timers := s.timers.(retry := true))
    case ScheduleSlow => s.(threads := th.(starting := th.starting - 1), timers := s.timers.(slow := true))
  }

  predicate CanWork(s: State, e: WorkEvent) {
    var w, t := s.threads.work, s.timers;
    match e
    case SlowFire => w == WorkIdle && t.slow
    case SlowSwitch(stopErr, inline, inlineErr, startErr) =>
      w == SlowEntered
      && StartAnswer(AdvStop(s.host), inlineErr)
      && StartAnswer(Stopped(s, inline, inlineErr).host, startErr)
    case SlowAgain => w == SlowStopFailed
    case SlowRecheck => w == SlowFailed
    case SlowRetry => w == SlowNoConn
    case RetryFire => w == WorkIdle && t.retry
    case WatchdogFire => w == WorkIdle && t.watchdog.Some? && t.watchdog.value <= t.now
    case WatchdogRef => w == WatchdogEntered
    case WatchdogDisconnect => w.WatchdogHolding?
    case WatchdogUnref => w.WatchdogCalled?
    case GraceFire => w == WorkIdle && t.grace.Some? && t.grace.value <= t.now
    case GraceDecide => w == GraceEntered
  }

  function Doing(s: State, w: Work): State {
    s.(threads := s.threads.(work := w))
  }

  function NextWork(s: State, e: WorkEvent): State
    requires CanWork(s, e)
  {
    var h, a, t := s.host, s.app, s.timers;
    match e
    case SlowFire => Doing(s.(timers := t.(slow := false)), SlowEntered)
    case SlowSwitch(stopErr, inline, inlineErr, startErr) => SlowSection(s, stopErr, inline, inlineErr, startErr)
    case SlowAgain => Doing(s.(timers := t.(slow := true)), WorkIdle)
    case SlowRecheck => Doing(s, if a.cur.Some? then WorkIdle else SlowNoConn)
    case SlowRetry => Doing(s.(timers := t.(retry := true)), WorkIdle)
    case RetryFire =>
      s.(timers := t.(retry := false), threads := s.threads.(entering := s.threads.entering + 1))
    case WatchdogFire => Doing(s.(timers := t.(watchdog := None)), WatchdogEntered)
    case WatchdogRef =>
      if a.cur.Some? && !a.secure then Doing(Use(s, a.cur.value).(host := Ref(h)), WatchdogHolding(a.cur.value))
      else Doing(s, WorkIdle)
    case WatchdogDisconnect =>
      var u := Use(s, s.threads.work.id);
      Doing(u.(hist := u.hist.(disconnectRequested := true)), WatchdogCalled(s.threads.work.id))
    case WatchdogUnref =>
      Doing(Use(s, s.threads.work.id).(host := UnrefHost(h)), WorkIdle)
    case GraceFire => Doing(s.(timers := t.(grace := None)), GraceEntered)
    case GraceDecide =>
      var back := a.cur.Some? && a.secure;
      Doing(s.(app := if !back && a.relay then ApplyRelay(a, false) else a), WorkIdle)
  }

  predicate CanWriter(s: State, e: WriterEvent) {
    match e
    case TakeRef => s.threads.writer == NoRef
    case Claim => s.threads.writer.Holding?
    case Send => s.threads.writer.Claimed?
    case Unref => s.threads.writer != NoRef
  }

  function NextWriter(s: State, e: WriterEvent): State
    requires CanWriter(s, e)
  {
    var th, h, a := s.threads, s.host, s.app;
    match e
    case TakeRef =>
      if MayForward(a.cur.Some?, a.secure)
      then Use(s, a.cur.value).(host := Ref(h), threads := th.(writer := Holding(a.cur.value)))
      else s
    case Claim => Use(s, th.writer.id).(threads := th.(writer := Claimed(th.writer.id)))
    case Send =>
      var u := Use(s, th.writer.id);
      u.(hist := u.hist.(sent := u.hist.sent + [Sent(th.writer.id, Occupant(h))]))
    case Unref => Use(s, th.writer.id).(host := UnrefHost(h), threads := th.(writer := NoRef))
  }

  /** Time passes freely, but on_disconnected finishes before the grace timer it has
      just armed runs out. */
  predicate CanTick(s: State, ms: nat) {
    (s.threads.bt == DiscArmed(true) || s.threads.bt == DiscCancelled(true)) && s.timers.grace.Some? ==>
      s.timers.now + ms < s.timers.grace.value
  }

  predicate CanStep(s: State, e: Event) {
    match e
    case Stack(x) => CanStack(s, x)
    case Callback(x) => CanCallback(s, x)
    case Adv(x) => CanAdv(s, x)
    case OnWork(x) => CanWork(s, x)
    case OnWriter(x) => CanWriter(s, x)
    case Tick(ms) => CanTick(s, ms)
  }

  function Next(s: State, e: Event): State
    requires CanStep(s, e)
  {
    match e
    case Stack(x) => NextStack(s, x)
    case Callback(x) => NextCallback(s, x)
    case Adv(x) => NextAdv(s, x)
    case OnWork(x) => NextWork(s, x)
    case OnWriter(x) => NextWriter(s, x)
    case Tick(ms) => s.(timers := s.timers.(now := s.timers.now + ms))
  }

  /** main() at its advertising_start call: bonds loaded, accept list built from them. */
  function Booted(bonds: set<Addr>, rejected: set<Addr>, hasRelay: bool): State {
    State(
      Host(Free, 0, 0, 0, bonds, bonds - rejected),
      App(None, false, false, bonds != {}, false, hasRelay),
      Timers(0, false, false, None, None),
      Threads(BtIdle, WorkIdle, NoRef, 1, 0, 0),
      History({}, None, 0, 0, false, bonds * rejected, [], false, false, false, false, false))
  }
}
