/** What every step of the link lifecycle keeps. */
module LinkLaws {
  import opened Words
  import opened ProxyCore
  import opened LinkModel

  // --- Who runs ---------------------------------------------------------------------

  predicate Pairing(bt: Bt) {
    bt == PairClear || bt.PairAdd? || bt.PairMode?
  }

  predicate Connecting(bt: Bt) {
    bt == ConnCancel || bt == ConnArm
  }

  predicate Securing(bt: Bt) {
    bt == SecCancelWatchdog || bt == SecCancelGrace
  }

  predicate Disconnecting(bt: Bt) {
    bt.DiscRead? || bt.DiscArmed? || bt.DiscCancelled?
  }

  /** An encrypted link, as the firmware sees it. */
  predicate SecureLink(a: App) {
    a.cur.Some? && a.secure
  }

  // --- Advertising --------------------------------------------------------------------

  /** One advertiser, never beside a connection; the flag outlives the advertiser only
      until on_connected has run. */
  predicate OneAdvertiser(h: Host, a: App) {
    && (h.obj.Advertiser? ==> a.advActive)
    && (a.advActive ==> a.cur == None)
    && (a.advActive ==> h.obj.Advertiser? || (h.obj.Conn? && h.obj.phase.Attempt?))
  }

  /** Something occupies the connection object, or something will try to advertise. */
  predicate Recovers(h: Host, t: Timers, th: Threads) {
    || h.obj != Free
    || h.recycledDue > 0 || t.retry
    || th.entering > 0 || th.failing > 0
    || th.work == SlowFailed || th.work == SlowNoConn
  }

  /** The switch to the slow interval is on its way. */
  predicate FastIsTemporary(h: Host, t: Timers, th: Threads) {
    h.obj.Advertiser? && !h.obj.slow ==>
      t.slow || th.starting > 0 || th.work == SlowEntered || th.work == SlowStopFailed
  }

  // --- References -----------------------------------------------------------------------

  function One(b: bool): nat {
    if b then 1 else 0
  }

  function WatchdogRef(w: Work): Option<LinkId> {
    match w
    case WatchdogHolding(id) => Some(id)
    case WatchdogCalled(id) => Some(id)
    case _ => None
  }

  function WriterRef(w: Writer): Option<LinkId> {
    match w
    case NoRef => None
    case Holding(id) => Some(id)
    case Claimed(id) => Some(id)
  }

  predicate HeldAlive(h: Host, r: Option<LinkId>) {
    r.Some? ==> Alive(h, r.value)
  }

  /** The reference count is the number of holders, and every holder's object is the
      one it took the reference on. */
  predicate Counted(h: Host, a: App, th: Threads) {
    && HeldAlive(h, a.cur) && HeldAlive(h, WatchdogRef(th.work)) && HeldAlive(h, WriterRef(th.writer))
    && h.refs == One(h.obj.Conn? && h.obj.phase != Ended) + One(a.cur.Some?)
                 + One(WatchdogRef(th.work).Some?) + One(WriterRef(th.writer).Some?)
    && (h.obj.Conn? ==> h.refs > 0)
    && (a.cur.Some? <==> LinkRunning(h))
  }

  // --- Callbacks ------------------------------------------------------------------------

  /** Callbacks belong to a running link, and what they have read still holds. */
  predicate CallbackSound(h: Host, a: App, bt: Bt) {
    && (bt != BtIdle ==> LinkRunning(h))
    && (Disconnecting(bt) ==> h.obj == Conn(h.obj.id, Lost))
    && (Securing(bt) || bt.NusCancelled? ==> SecureLink(a))
    && (bt.NusRead? ==> bt.secure == SecureLink(a))
    && (Connecting(bt) ==> !a.secure)
  }

  /** The gate is open exactly on a link that has encrypted; a new link never has. */
  predicate Gate(h: Host, a: App, x: History) {
    && (a.secure <==> a.cur.Some? && a.cur.value in x.encrypted)
    && (forall id :: id in x.encrypted ==> id < h.nextId)
    && (h.obj.Conn? ==> h.obj.id < h.nextId)
    && (h.obj.Conn? && h.obj.phase.Attempt? ==> h.obj.id !in x.encrypted)
  }

  // --- Relay ----------------------------------------------------------------------------

  predicate GraceRuns(t: Timers, x: History) {
    t.grace.Some? && t.grace.value <= x.lostAt + RELAY_GRACE_MS
  }

  predicate RelaySafe(a: App, t: Timers, th: Threads, x: History) {
    && x.lostAt <= t.now
    && (a.relay ==> a.hasRelay && x.command == Some(RelayCommand(true, true)))
    && (a.relay ==> SecureLink(a) || GraceRuns(t, x) || th.work == GraceEntered)
    && (th.bt.DiscRead? && a.relay ==> th.bt.held)
    && (th.bt.DiscArmed? && a.relay ==> th.bt.held && GraceRuns(t, x) && t.now < t.grace.value)
    && (th.bt.DiscCancelled? && a.relay ==> th.bt.held && GraceRuns(t, x) && t.now < t.grace.value)
  }

  // --- Watchdog -------------------------------------------------------------------------

  predicate Watched(h: Host, t: Timers, th: Threads, x: History) {
    || (t.watchdog.Some? && t.watchdog.value <= x.armedAt + SECURITY_WINDOW_MS)
    || th.work == WatchdogEntered
    || (th.work.WatchdogHolding? && Alive(h, th.work.id))
    || x.disconnectRequested
  }

  /** Every link that is up, past on_connected and unencrypted is on its way out. */
  predicate NoSquatter(h: Host, a: App, t: Timers, th: Threads, x: History) {
    h.obj.Conn? && h.obj.phase == Up && !Connecting(th.bt) && !a.secure ==> Watched(h, t, th, x)
  }

  // --- Pairing lock ---------------------------------------------------------------------

  predicate PairingLock(h: Host, a: App, bt: Bt, x: History) {
    && (h.obj.Advertiser? ==> h.obj.filtered == a.locked)
    && (Pairing(bt) ==> h.bonds != {})
    && (bt.PairAdd? ==> bt.bonded && h.acceptList == {})
    && (bt.PairMode? ==> bt.bonded)
    && (!Pairing(bt) ==> a.locked == (h.bonds != {}))
    && (!Pairing(bt) || bt.PairMode? ==> h.acceptList == h.bonds - x.missing)
  }

  predicate SentUnderOneLink(x: History) {
    forall i :: 0 <= i < |x.sent| ==> x.sent[i].claimed == x.sent[i].used && x.sent[i].used in x.encrypted
  }

  predicate WriterGated(w: Writer, x: History) {
    WriterRef(w).Some? ==> WriterRef(w).value in x.encrypted
  }

  // --- The invariant, in groups -----------------------------------------------------

  predicate Advertises(s: State) {
    && OneAdvertiser(s.host, s.app) && Recovers(s.host, s.timers, s.threads) && !s.hist.rivalStart
    && FastIsTemporary(s.host, s.timers, s.threads)
  }

  predicate Counts(s: State) {
    Counted(s.host, s.app, s.threads)
  }

  predicate UsesRefs(s: State) {
    !s.hist.overwrote && !s.hist.danglingUse
  }

  predicate CallsBack(s: State) {
    CallbackSound(s.host, s.app, s.threads.bt)
  }

  predicate Gates(s: State) {
    Gate(s.host, s.app, s.hist)
  }

  predicate HoldsRelay(s: State) {
    RelaySafe(s.app, s.timers, s.threads, s.hist)
  }

  predicate Watches(s: State) {
    NoSquatter(s.host, s.app, s.timers, s.threads, s.hist)
  }

  predicate Locks(s: State) {
    PairingLock(s.host, s.app, s.threads.bt, s.hist) && !s.hist.listInUse && !s.hist.strangerIn
  }

  predicate Sends(s: State) {
    SentUnderOneLink(s.hist) && WriterGated(s.threads.writer, s.hist)
  }

  predicate Inv(s: State) {
    && Advertises(s) && Counts(s) && UsesRefs(s) && CallsBack(s) && Gates(s)
    && HoldsRelay(s) && Watches(s) && Locks(s) && Sends(s)
  }

  // --- Callbacks of the connection ----------------------------------------------------

  lemma AdvertisesCallback(s: State, e: BtEvent)
    requires Advertises(s) && Counts(s) && CallsBack(s) && CanCallback(s, e)
    ensures Advertises(NextCallback(s, e))
  {
  }

  lemma CountsStart(s: State, e: BtEvent)
    requires Counts(s) && CallsBack(s) && CanCallback(s, e) && s.threads.bt == BtIdle
    ensures Counts(NextCallback(s, e))
  {
  }

  lemma CountsCallback(s: State, e: BtEvent)
    requires Counts(s) && CallsBack(s) && CanCallback(s, e) && s.threads.bt != BtIdle
    ensures Counts(NextCallback(s, e))
  {
  }

  lemma UsesRefsCallback(s: State, e: BtEvent)
    requires Counts(s) && UsesRefs(s) && CanCallback(s, e)
    ensures UsesRefs(NextCallback(s, e))
  {
  }

  lemma CallsBackStart(s: State, e: BtEvent)
    requires Counts(s) && CallsBack(s) && Gates(s) && CanCallback(s, e) && s.threads.bt == BtIdle
    ensures CallsBack(NextCallback(s, e))
  {
  }

  lemma CallsBackCallback(s: State, e: BtEvent)
    requires Counts(s) && CallsBack(s) && Gates(s) && CanCallback(s, e) && s.threads.bt != BtIdle
    ensures CallsBack(NextCallback(s, e))
  {
  }

  lemma GatesCallback(s: State, e: BtEvent)
    requires Counts(s) && CallsBack(s) && Gates(s) && CanCallback(s, e)
    ensures Gates(NextCallback(s, e))
  {
  }

  lemma HoldsRelayCallback(s: State, e: BtEvent)
    requires Counts(s) && CallsBack(s) && Gates(s) && HoldsRelay(s) && CanCallback(s, e)
    ensures HoldsRelay(NextCallback(s, e))
  {
  }

  lemma WatchesCallback(s: State, e: BtEvent)
    requires Counts(s) && CallsBack(s) && Watches(s) && CanCallback(s, e)
    ensures Watches(NextCallback(s, e))
  {
  }

  lemma LocksCallback(s: State, e: BtEvent)
    requires Advertises(s) && Counts(s) && CallsBack(s) && Locks(s) && CanCallback(s, e)
    ensures Locks(NextCallback(s, e))
  {
  }

  lemma SendsCallback(s: State, e: BtEvent)
    requires Counts(s) && Gates(s) && Sends(s) && CanCallback(s, e)
    ensures Sends(NextCallback(s, e))
  {
  }

  // --- Work handlers -------------------------------------------------------------------

  lemma AdvertisesWork(s: State, e: WorkEvent)
    requires Advertises(s) && Counts(s) && CallsBack(s) && CanWork(s, e)
    ensures Advertises(NextWork(s, e))
  {
  }

  lemma CountsSlow(s: State, e: WorkEvent)
    requires Counts(s) && CallsBack(s) && CanWork(s, e) && e.SlowSwitch?
    ensures Counts(NextWork(s, e))
  {
  }

  lemma CountsWork(s: State, e: WorkEvent)
    requires Counts(s) && CallsBack(s) && CanWork(s, e) && !e.SlowSwitch?
    ensures Counts(NextWork(s, e))
  {
  }

  lemma UsesRefsWork(s: State, e: WorkEvent)
    requires Counts(s) && UsesRefs(s) && CanWork(s, e)
    ensures UsesRefs(NextWork(s, e))
  {
  }

  lemma CallsBackWork(s: State, e: WorkEvent)
    requires Counts(s) && CallsBack(s) && Gates(s) && CanWork(s, e)
    ensures CallsBack(NextWork(s, e))
  {
  }

  lemma GatesWork(s: State, e: WorkEvent)
    requires Counts(s) && CallsBack(s) && Gates(s) && CanWork(s, e)
    ensures Gates(NextWork(s, e))
  {
  }

  /** What the relay rests on, and the slow switch leaves alone. */
  predicate SameRelay(s: State, n: State) {
    && n.timers == s.timers && n.threads.bt == s.threads.bt && n.hist.command == s.hist.command
    && n.hist.lostAt == s.hist.lostAt && n.app.relay == s.app.relay && n.app.hasRelay == s.app.hasRelay
    && n.app.cur == s.app.cur && n.app.secure == s.app.secure
  }

  lemma AdvStartScope(s: State, slow: bool, err: int)
    ensures SameRelay(s, AdvStart(s, slow, err))
  {
  }

  lemma StoppedScope(s: State, inline: bool, err: int)
    ensures SameRelay(s, Stopped(s, inline, err))
  {
  }

  lemma SlowScope(s: State, stopErr: int, inline: bool, inlineErr: int, startErr: int)
    requires s.threads.work == SlowEntered
    ensures var n := SlowSection(s, stopErr, inline, inlineErr, startErr);
            SameRelay(s, n) && n.threads.work != GraceEntered
  {
    StoppedScope(s, inline, inlineErr);
    AdvStartScope(Stopped(s, inline, inlineErr), true, startErr);
  }

  lemma HoldsRelaySlow(s: State, e: WorkEvent)
    requires Counts(s) && CallsBack(s) && Gates(s) && HoldsRelay(s) && CanWork(s, e) && e.SlowSwitch?
    ensures HoldsRelay(NextWork(s, e))
  {
    SlowScope(s, e.stopErr, e.inline, e.inlineErr, e.startErr);
  }

  lemma HoldsRelayWork(s: State, e: WorkEvent)
    requires Counts(s) && CallsBack(s) && Gates(s) && HoldsRelay(s) && CanWork(s, e) && !e.SlowSwitch?
    ensures HoldsRelay(NextWork(s, e))
  {
  }

  lemma WatchesWork(s: State, e: WorkEvent)
    requires Counts(s) && CallsBack(s) && Watches(s) && CanWork(s, e)
    ensures Watches(NextWork(s, e))
  {
  }

  lemma LocksWork(s: State, e: WorkEvent)
    requires Advertises(s) && Counts(s) && CallsBack(s) && Locks(s) && CanWork(s, e)
    ensures Locks(NextWork(s, e))
  {
  }

  lemma SendsWork(s: State, e: WorkEvent)
    requires Counts(s) && Gates(s) && Sends(s) && CanWork(s, e)
    ensures Sends(NextWork(s, e))
  {
  }

  // --- Everything else ------------------------------------------------------------------

  lemma StackStep(s: State, e: StackEvent)
    requires Inv(s) && CanStack(s, e)
    ensures Inv(NextStack(s, e))
  {
  }

  lemma AdvStep(s: State, e: AdvEvent)
    requires Inv(s) && CanAdv(s, e)
    ensures Inv(NextAdv(s, e))
  {
  }

  lemma WriterStep(s: State, e: WriterEvent)
    requires Inv(s) && CanWriter(s, e)
    ensures Inv(NextWriter(s, e))
  {
  }

  /** Every step of every context keeps all of it. */
  lemma InvStep(s: State, e: Event)
    requires Inv(s) && CanStep(s, e)
    ensures Inv(Next(s, e))
  {
    match e {
      case Stack(x) => StackStep(s, x);
      case Callback(x) =>
        AdvertisesCallback(s, x);
        UsesRefsCallback(s, x);
        if s.threads.bt == BtIdle {
          CountsStart(s, x);
          CallsBackStart(s, x);
        } else {
          CountsCallback(s, x);
          CallsBackCallback(s, x);
        }
        GatesCallback(s, x);
        HoldsRelayCallback(s, x);
        WatchesCallback(s, x);
        LocksCallback(s, x);
        SendsCallback(s, x);
      case Adv(x) => AdvStep(s, x);
      case OnWork(x) =>
        if x.SlowSwitch? {
          CountsSlow(s, x);
          HoldsRelaySlow(s, x);
        } else {
          CountsWork(s, x);
          HoldsRelayWork(s, x);
        }
        AdvertisesWork(s, x);
        UsesRefsWork(s, x);
        CallsBackWork(s, x);
        GatesWork(s, x);
        WatchesWork(s, x);
        LocksWork(s, x);
        SendsWork(s, x);
      case OnWriter(x) => WriterStep(s, x);
      case Tick(_) =>
    }
  }
}
