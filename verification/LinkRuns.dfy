/** The promises of the link lifecycle, over every run from boot. */
module LinkRuns {
  import opened Words
  import opened ProxyCore
  import opened LinkModel
  import opened LinkLaws

  predicate Legal(s: State, es: seq<Event>)
    decreases |es|
  {
    es == [] || (CanStep(s, es[0]) && Legal(Next(s, es[0]), es[1..]))
  }

  function Run(s: State, es: seq<Event>): State
    requires Legal(s, es)
    decreases |es|
  {
    if es == [] then s else Run(Next(s, es[0]), es[1..])
  }

  lemma BootInv(bonds: set<Addr>, rejected: set<Addr>, hasRelay: bool)
    ensures Inv(Booted(bonds, rejected, hasRelay))
  {
  }

  lemma {:induction false} RunInv(s: State, es: seq<Event>)
    requires Inv(s) && Legal(s, es)
    ensures Inv(Run(s, es))
    decreases |es|
  {
    if es != [] {
      InvStep(s, es[0]);
      RunInv(Next(s, es[0]), es[1..]);
    }
  }

  /** A state some run from boot reaches. */
  ghost predicate Reachable(s: State) {
    exists bonds: set<Addr>, rejected: set<Addr>, hasRelay: bool, es: seq<Event> ::
      Legal(Booted(bonds, rejected, hasRelay), es) && s == Run(Booted(bonds, rejected, hasRelay), es)
  }

  lemma ReachableInv(s: State)
    requires Reachable(s)
    ensures Inv(s)
  {
    var bonds: set<Addr>, rejected: set<Addr>, hasRelay: bool, es: seq<Event> :|
      Legal(Booted(bonds, rejected, hasRelay), es) && s == Run(Booted(bonds, rejected, hasRelay), es);
    BootInv(bonds, rejected, hasRelay);
    RunInv(Booted(bonds, rejected, hasRelay), es);
  }

  // --- Advertising --------------------------------------------------------------------

  /** Never unreachable: an advertiser is live, or a link uses the connection object, or
      it is gone and its references are on their way back, or a recycled callback is
      due, or the retry timer is set, or a running handler will try again. */
  lemma NeverUnreachable(s: State)
    requires Reachable(s)
    ensures || s.host.obj.Advertiser? || s.host.obj.Conn?
            || s.host.recycledDue > 0 || s.timers.retry
            || s.threads.entering > 0 || s.threads.failing > 0
            || s.threads.work == SlowFailed || s.threads.work == SlowNoConn
    ensures s.host.obj.Conn? && s.host.obj.phase == Ended ==>
              LinkLaws.WatchdogRef(s.threads.work).Some? || WriterRef(s.threads.writer).Some?
  {
    ReachableInv(s);
  }

  /** Connected, or a connection being set up. */
  predicate InUse(h: Host) {
    h.obj.Conn? && (h.obj.phase == Attempt(true) || h.obj.phase == Up)
  }

  /** Steps left in the callback that is running, and in on_disconnected after it. */
  function CallbackSteps(bt: Bt): nat {
    match bt
    case DiscCancelled(_) => 1
    case DiscArmed(_) => 2
    case DiscRead(_) => 3
    case BtIdle => 4
    case ConnArm => 5
    case SecCancelGrace => 5
    case NusCancelled(_) => 5
    case PairMode(_) => 5
    case ConnCancel => 6
    case SecCancelWatchdog => 6
    case NusRead(_, _) => 6
    case PairAdd(_) => 6
    case PairClear => 7
  }

  /** Steps left until writer and watchdog have given their references back. */
  function HolderSteps(th: Threads): nat {
    One(th.writer != NoRef) + if th.work.WatchdogHolding? then 2 else One(th.work.WatchdogCalled?)
  }

  /** Steps still to be taken, at most, until an advertiser is live, were the link alone:
      the writer's whole loop counts as one, and the Bluetooth thread is never held up.
      FirmwareRecovery adds what they take. */
  function Distance(s: State): nat {
    match s.host.obj
    case Advertiser(_, _) => 0
    case Conn(_, phase) =>
      2 + HolderSteps(s.threads) + (match phase
        case Lost => 1 + CallbackSteps(s.threads.bt)
        case Attempt(_) => 2
        case Closing => 1
        case _ => 0)
    case Free =>
      if s.threads.entering > 0 then 1
      else if s.host.recycledDue > 0 then 2
      else if s.timers.retry && s.threads.work == WorkIdle then 2
      else if s.threads.work == SlowNoConn || (s.timers.retry && s.threads.work != SlowFailed) then 3
      else if s.threads.work == SlowFailed then 4
      else 5
  }

  predicate Closer(s: State, n: State) {
    n.host.obj.Advertiser? || (!InUse(n.host) && Distance(n) < Distance(s))
  }

  /** Steps the firmware's own threads take, or callbacks the stack owes. */
  predicate Owed(e: Event) {
    !e.Tick? && (e.Stack? ==> e.stack == DeliverRecycled || e.stack == ReleaseRef)
  }

  lemma StepFromFree(s: State) returns (e: Event)
    requires Inv(s) && s.host.obj == Free
    ensures CanStep(s, e) && Owed(e) && Closer(s, Next(s, e))
    ensures !e.Callback? && !e.OnWriter? && !Next(s, e).host.obj.Conn?
  {
    if s.threads.entering > 0 {
      e := Adv(Section(0));
    } else if s.host.recycledDue > 0 {
      e := Stack(DeliverRecycled);
    } else if s.threads.work == SlowFailed {
      e := OnWork(SlowRecheck);
    } else if s.threads.work == SlowNoConn {
      e := OnWork(SlowRetry);
    } else if s.timers.retry {
      match s.threads.work {
        case WorkIdle => e := OnWork(RetryFire);
        case SlowEntered => e := OnWork(SlowSwitch(-ENOMEM, false, -ENOMEM, -ENOMEM));
        case SlowStopFailed => e := OnWork(SlowAgain);
        case WatchdogEntered => e := OnWork(WorkEvent.WatchdogRef);
        case GraceEntered => e := OnWork(GraceDecide);
      }
    } else {
      e := Adv(ScheduleRetry);
    }
  }

  lemma StepFromGone(s: State) returns (e: Event)
    requires Inv(s) && s.host.obj.Conn? && !InUse(s.host) && s.host.obj.phase != Lost
    ensures CanStep(s, e) && Owed(e) && Closer(s, Next(s, e))
    ensures e.Callback? <==> s.host.obj.phase.Attempt?
    ensures e.Callback? ==> !e.bt.OnNus? && !e.bt.RelayCancel?
    ensures e.OnWriter? ==> e == OnWriter(Unref) && s.threads.writer != NoRef && s.host.obj.phase == Ended
    ensures e.Stack? ==> e.stack == ReleaseRef
    ensures s.threads.writer != NoRef && s.host.obj.phase == Ended ==> e.OnWriter?
    ensures Next(s, e).host.obj.Conn? ==> Next(s, e).host.obj.phase == Closing || Next(s, e).host.obj.phase == Ended
    ensures !e.OnWriter? ==> Next(s, e).threads.writer == s.threads.writer
  {
    match s.host.obj.phase {
      case Attempt(_) => e := Callback(OnConnected);
      case Closing => e := Stack(ReleaseRef);
      case Ended =>
        if s.threads.writer != NoRef {
          e := OnWriter(Unref);
        } else if s.threads.work.WatchdogHolding? {
          e := OnWork(WatchdogDisconnect);
        } else {
          e := OnWork(WatchdogUnref);
        }
    }
  }

  lemma StepFromLost(s: State) returns (x: BtEvent)
    requires Inv(s) && s.host.obj.Conn? && s.host.obj.phase == Lost
    ensures CanCallback(s, x) && Closer(s, NextCallback(s, x))
    ensures (x.RelayCancel? <==> s.threads.bt.NusRead?) && (x.RelayApply? <==> s.threads.bt.NusCancelled?) && !x.OnNus?
    ensures var n := NextCallback(s, x);
            && n.threads.writer == s.threads.writer && !n.threads.bt.NusRead?
            && (n.host.obj.Conn? ==> n.host.obj.phase == Lost || n.host.obj.phase == Closing)
  {
    match s.threads.bt {
      case DiscCancelled(_) => x := DropConn;
      case DiscArmed(_) => x := DisconnectCancel;
      case DiscRead(_) => x := GraceStart;
      case BtIdle => x := OnDisconnected;
      case ConnArm => x := ArmWatchdog;
      case SecCancelGrace => x := CancelGrace;
      case NusCancelled(_) => x := RelayApply;
      case PairMode(_) => x := SetMode;
      case ConnCancel => x := CancelSlow;
      case SecCancelWatchdog => x := CancelWatchdog;
      case NusRead(_, _) => x := RelayCancel;
      case PairAdd(_) => x := AddBonds({});
      case PairClear => x := ClearList;
    }
  }

  /** One advertiser, exclusive with a connection; bt_le_adv_start is never issued over
      a live one, even when the slow switch's own stop delivers recycled in the gap. */
  lemma SingleAdvertiser(s: State)
    requires Reachable(s)
    ensures !s.hist.rivalStart
    ensures s.host.obj.Advertiser? ==> s.app.advActive
    ensures s.app.advActive ==> s.app.cur == None
  {
    ReachableInv(s);
  }

  // --- References and links -------------------------------------------------------------

  /** The reference count equals the holders; no stack call uses a recycled object and
      on_connected never overwrites a live current_conn. */
  lemma NoUseAfterFree(s: State)
    requires Reachable(s)
    ensures s.host.refs == One(s.host.obj.Conn? && s.host.obj.phase != Ended) + One(s.app.cur.Some?)
                           + One(LinkLaws.WatchdogRef(s.threads.work).Some?) + One(WriterRef(s.threads.writer).Some?)
    ensures !s.hist.danglingUse && !s.hist.overwrote
    ensures s.app.cur.Some? ==> Alive(s.host, s.app.cur.value)
  {
    ReachableInv(s);
  }

  /** Bytes claimed under one link are only ever sent on that link, and that link had
      been encrypted. */
  lemma BytesStayOnTheirLink(s: State)
    requires Reachable(s)
    ensures forall i :: 0 <= i < |s.hist.sent| ==>
              s.hist.sent[i].claimed == s.hist.sent[i].used && s.hist.sent[i].used in s.hist.encrypted
  {
    ReachableInv(s);
  }

  // --- Relay ----------------------------------------------------------------------------

  /** Relay on: the last accepted command was ENABLE on an encrypted link, and either
      the link is up and encrypted, or the grace timer runs out within 60 s of the last
      disconnect, or its handler is about to decide. */
  lemma RelaySafety(s: State)
    requires Reachable(s) && s.app.relay
    ensures s.hist.command == Some(RelayCommand(true, true))
    ensures || SecureLink(s.app)
            || (s.timers.grace.Some? && s.timers.grace.value <= s.hist.lostAt + 60_000)
            || s.threads.work == GraceEntered
  {
    ReachableInv(s);
  }

  /** The relay only changes by command or by the grace handler; the handler only ever
      turns it off, and never while the link is up and encrypted. */
  lemma RelayChanges(s: State, e: Event)
    requires Reachable(s) && CanStep(s, e) && Next(s, e).app.relay != s.app.relay
    ensures || (e == Callback(RelayApply) && SecureLink(s.app))
            || (e == OnWork(GraceDecide) && s.app.relay && !SecureLink(s.app))
  {
    ReachableInv(s);
    RelayMoves(s, e);
  }

  lemma RelayMoves(s: State, e: Event)
    requires CanStep(s, e) && Next(s, e).app.relay != s.app.relay
    ensures e == Callback(RelayApply) || (e == OnWork(GraceDecide) && s.app.relay && !SecureLink(s.app))
  {
  }

  /** on_security_changed publishes the link as encrypted. */
  predicate Secures(e: Event) {
    e.Callback? && e.bt.OnSecurityChanged? && e.bt.err == 0 && e.bt.level >= SECURITY_L2
  }

  lemma UnsecuredStep(s: State, e: Event)
    requires Inv(s) && CanStep(s, e) && !SecureLink(s.app) && !Secures(e)
    ensures !SecureLink(Next(s, e).app) && (Next(s, e).app.relay ==> s.app.relay && e != OnWork(GraceDecide))
  {
    if Next(s, e).app.relay != s.app.relay {
      RelayMoves(s, e);
    }
    StaysUnsecured(s, e);
  }

  lemma StaysUnsecured(s: State, e: Event)
    requires Inv(s) && CanStep(s, e) && !SecureLink(s.app) && !Secures(e)
    ensures !SecureLink(Next(s, e).app)
    ensures e == OnWork(GraceDecide) ==> !Next(s, e).app.relay
  {
  }

  /** Nobody comes back: over every stretch of a run that starts without an encrypted
      link and in which none encrypts, whatever connects, disconnects or is written, the
      relay is off for good as soon as the grace handler has decided once. */
  lemma GraceExpires(s: State, es: seq<Event>)
    requires Reachable(s) && Legal(s, es) && !SecureLink(s.app)
    requires forall e :: e in es ==> !Secures(e)
    requires OnWork(GraceDecide) in es
    ensures !Run(s, es).app.relay
  {
    ReachableInv(s);
    Unreturned(s, es);
  }

  lemma {:induction false} Unreturned(s: State, es: seq<Event>)
    requires Inv(s) && Legal(s, es) && !SecureLink(s.app)
    requires forall e :: e in es ==> !Secures(e)
    ensures !s.app.relay || OnWork(GraceDecide) in es ==> !Run(s, es).app.relay
    decreases |es|
  {
    if es != [] {
      UnsecuredStep(s, es[0]);
      InvStep(s, es[0]);
      Unreturned(Next(s, es[0]), es[1..]);
    }
  }

  /** The bound on on_disconnected that CanTick states is needed: were the callback to
      outlast the timer it armed, the handler would find the link still published as
      encrypted, keep the relay, and leave nothing to turn it off. */
  lemma LateDisconnectStrandsRelay(s: State) returns (es: seq<Event>)
    requires s.app.relay && SecureLink(s.app) && s.threads.bt == DiscArmed(true) && s.host.obj.Conn?
    requires s.threads.work == WorkIdle && s.timers.grace.Some?
    ensures var late := s.(timers := s.timers.(now := s.timers.grace.value));
            && Legal(late, es)
            && Run(late, es).app.relay && !SecureLink(Run(late, es).app)
            && Run(late, es).timers.grace == None && Run(late, es).threads.work == WorkIdle
  {
    var late := s.(timers := s.timers.(now := s.timers.grace.value));
    var s1 := NextWork(late, GraceFire);
    var s2 := NextWork(s1, GraceDecide);
    assert s2 == late.(timers := late.timers.(grace := None));
    var s3 := NextCallback(s2, DisconnectCancel);
    es := RunFour(late, OnWork(GraceFire), OnWork(GraceDecide), Callback(DisconnectCancel), Callback(DropConn),
                  s1, s2, s3);
  }

  lemma Extend(s: State, es: seq<Event>, e: Event)
    requires Legal(s, es) && CanStep(Run(s, es), e)
    ensures Legal(s, es + [e]) && Run(s, es + [e]) == Next(Run(s, es), e)
    decreases |es|
  {
    if es == [] {
      assert [e][1..] == [];
    } else {
      Extend(Next(s, es[0]), es[1..], e);
      assert (es + [e])[1..] == es[1..] + [e];
    }
  }

  lemma ReachNext(s: State, e: Event)
    requires Reachable(s) && CanStep(s, e)
    ensures Reachable(Next(s, e))
  {
    var bonds: set<Addr>, rejected: set<Addr>, hasRelay: bool, es: seq<Event> :|
      Legal(Booted(bonds, rejected, hasRelay), es) && s == Run(Booted(bonds, rejected, hasRelay), es);
    Extend(Booted(bonds, rejected, hasRelay), es, e);
  }

  /** A board with a relay and no bond, its link up and encrypted. */
  lemma EncryptedLink() returns (s: State)
    ensures Reachable(s) && s.host.obj == Conn(0, Up) && s.app == App(Some(0), true, false, false, false, true)
    ensures s.threads.bt == BtIdle && s.threads.work == WorkIdle
  {
    s := Booted({}, {}, true);
    assert Legal(s, []) && Run(s, []) == s;
    s := Then(s, Adv(Section(0)));
    s := Then(s, Stack(Connect(true, 0)));
    s := Then(s, Callback(OnConnected));
    s := Then(s, Callback(CancelSlow));
    s := Then(s, Callback(ArmWatchdog));
    s := Then(s, Callback(OnSecurityChanged(SECURITY_L2, 0)));
    s := Then(s, Callback(CancelWatchdog));
    s := Then(s, Callback(CancelGrace));
  }

  lemma GrantedLink() returns (s: State)
    ensures Reachable(s) && s.host.obj == Conn(0, Up) && s.app == App(Some(0), true, false, false, true, true)
    ensures s.threads.bt == BtIdle && s.threads.work == WorkIdle
  {
    s := EncryptedLink();
    s := Then(s, Callback(OnNus(Some(true))));
    s := Then(s, Callback(RelayCancel));
    s := Then(s, Callback(RelayApply));
  }

  /** The premises of LateDisconnectStrandsRelay arise in a run from boot. */
  lemma StrandingIsReachable() returns (s: State)
    ensures Reachable(s) && s.app.relay && SecureLink(s.app) && s.threads.bt == DiscArmed(true) && s.host.obj.Conn?
    ensures s.threads.work == WorkIdle && s.timers.grace.Some?
  {
    s := GrantedLink();
    s := Then(s, Stack(LoseLink));
    s := Then(s, Callback(OnDisconnected));
    s := Then(s, Callback(GraceStart));
  }

  lemma Then(s: State, e: Event) returns (n: State)
    requires Reachable(s) && CanStep(s, e)
    ensures Reachable(n) && n == Next(s, e)
  {
    ReachNext(s, e);
    n := Next(s, e);
  }

  lemma RunFour(s: State, a: Event, b: Event, c: Event, d: Event, s1: State, s2: State, s3: State)
    returns (es: seq<Event>)
    requires CanStep(s, a) && s1 == Next(s, a) && CanStep(s1, b) && s2 == Next(s1, b)
    requires CanStep(s2, c) && s3 == Next(s2, c) && CanStep(s3, d)
    ensures Legal(s, es) && Run(s, es) == Next(s3, d)
  {
    es := [a, b, c, d];
    assert [d][1..] == [] && Legal(s3, [d]) && Run(s3, [d]) == Next(s3, d);
    assert [c, d][1..] == [d] && Legal(s2, [c, d]) && Run(s2, [c, d]) == Next(s3, d);
    assert [b, c, d][1..] == [c, d] && Legal(s1, [b, c, d]) && Run(s1, [b, c, d]) == Next(s3, d);
    assert es[1..] == [b, c, d];
  }

  // --- Watchdog and pairing lock ----------------------------------------------------------

  /** Squatter bound: a link that is up, past on_connected and not encrypted has the
      watchdog due within 60 s of on_connected, or its handler running, or a disconnect
      already requested. */
  lemma SquatterBound(s: State)
    requires Reachable(s) && s.host.obj.Conn? && s.host.obj.phase == Up && !Connecting(s.threads.bt)
    requires s.host.obj.id !in s.hist.encrypted
    ensures || (s.timers.watchdog.Some? && s.timers.watchdog.value <= s.hist.armedAt + 60_000)
            || s.threads.work == WatchdogEntered
            || s.threads.work == WatchdogHolding(s.host.obj.id)
            || s.hist.disconnectRequested
  {
    ReachableInv(s);
  }

  /** What the stack would not add when the accept list was last built: at boot, or
      since then by refresh_locked_mode. */
  function LastRefused(refused: set<Addr>, es: seq<Event>): set<Addr>
    decreases |es|
  {
    if es == [] then refused
    else LastRefused(if es[0].Callback? && es[0].bt.AddBonds? then es[0].bt.rejected else refused, es[1..])
  }

  /** Between rebuilds, the missing bonds are the refused ones. */
  predicate Missing(s: State, refused: set<Addr>) {
    s.threads.bt != PairClear && !s.threads.bt.PairAdd? ==> s.host.bonds - s.hist.missing == s.host.bonds - refused
  }

  lemma CallbackMissing(s: State, e: BtEvent, refused: set<Addr>)
    requires Locks(s) && CanCallback(s, e) && Missing(s, refused)
    ensures Missing(NextCallback(s, e), if e.AddBonds? then e.rejected else refused)
  {
  }

  predicate SameBonds(s: State, n: State) {
    && n.host.bonds == s.host.bonds && n.hist.missing == s.hist.missing && n.threads.bt == s.threads.bt
    && n.hist.encrypted == s.hist.encrypted
  }

  lemma AdvScope(s: State, e: AdvEvent)
    requires CanAdv(s, e)
    ensures SameBonds(s, NextAdv(s, e))
  {
  }

  lemma WorkScope(s: State, e: WorkEvent)
    requires CanWork(s, e)
    ensures SameBonds(s, NextWork(s, e))
  {
  }

  lemma WriterScope(s: State, e: WriterEvent)
    requires CanWriter(s, e)
    ensures SameBonds(s, NextWriter(s, e))
  {
  }

  lemma StackMissing(s: State, e: StackEvent, refused: set<Addr>)
    requires CanStack(s, e) && Missing(s, refused)
    ensures Missing(NextStack(s, e), refused)
  {
  }

  lemma OtherMissing(s: State, e: Event, refused: set<Addr>)
    requires CanStep(s, e) && !e.Callback? && Missing(s, refused)
    ensures Missing(Next(s, e), refused)
  {
    match e {
      case Stack(x) => StackMissing(s, x, refused);
      case Adv(x) => AdvScope(s, x);
      case OnWork(x) => WorkScope(s, x);
      case OnWriter(x) => WriterScope(s, x);
      case Tick(_) =>
    }
  }

  lemma {:induction false} RunMissing(s: State, es: seq<Event>, refused: set<Addr>)
    requires Inv(s) && Legal(s, es) && Missing(s, refused)
    ensures Missing(Run(s, es), LastRefused(refused, es))
    decreases |es|
  {
    if es != [] {
      if es[0].Callback? {
        CallbackMissing(s, es[0].bt, refused);
      } else {
        OtherMissing(s, es[0], refused);
      }
      InvStep(s, es[0]);
      RunMissing(Next(s, es[0]), es[1..],
                 if es[0].Callback? && es[0].bt.AddBonds? then es[0].bt.rejected else refused);
    }
  }

  /** Pairing lock, over every run from boot: a live advertiser is filtered exactly when a
      bond is stored, and its accept list is the stored bonds less those the stack refused
      when it was last built: all of them, if it refused none. The list is never edited
      under an advertiser, and no stranger connects to a bonded device. */
  lemma BondedOnly(bonds: set<Addr>, rejected: set<Addr>, hasRelay: bool, es: seq<Event>)
    requires Legal(Booted(bonds, rejected, hasRelay), es)
    ensures var s := Run(Booted(bonds, rejected, hasRelay), es);
            && (s.host.obj.Advertiser? ==>
                  && (s.host.obj.filtered <==> s.host.bonds != {})
                  && s.host.acceptList == s.host.bonds - LastRefused(rejected, es)
                  && (LastRefused(rejected, es) == {} ==> s.host.acceptList == s.host.bonds))
            && !s.hist.listInUse && !s.hist.strangerIn
  {
    BootInv(bonds, rejected, hasRelay);
    RunInv(Booted(bonds, rejected, hasRelay), es);
    RunMissing(Booted(bonds, rejected, hasRelay), es, rejected);
  }

  /** Data moves exactly on a link that has encrypted: the writer's decision and the gate
      nus_received reads are open if and only if the link has, and whatever reference the
      writer holds is on one that has. */
  lemma EncryptionGate(s: State)
    requires Reachable(s)
    ensures MayForward(s.app.cur.Some?, s.app.secure) <==> s.app.cur.Some? && s.app.cur.value in s.hist.encrypted
    ensures s.threads.bt.NusRead? ==>
              (s.threads.bt.secure <==> s.app.cur.Some? && s.app.cur.value in s.hist.encrypted)
    ensures WriterRef(s.threads.writer).Some? ==> WriterRef(s.threads.writer).value in s.hist.encrypted
  {
    ReachableInv(s);
  }

  /** The links on which on_security_changed reported level 2 or more without an error. */
  function SecuredIn(s: State, es: seq<Event>): set<LinkId>
    requires Legal(s, es)
    decreases |es|
  {
    if es == [] then {}
    else (if es[0].Callback? && es[0].bt.OnSecurityChanged? && es[0].bt.err == 0 && es[0].bt.level >= 2
          then {Occupant(s.host)} else {})
         + SecuredIn(Next(s, es[0]), es[1..])
  }

  lemma EncryptsNow(s: State, e: Event)
    requires CanStep(s, e)
    ensures Next(s, e).hist.encrypted == s.hist.encrypted + SecuredIn(s, [e])
  {
    assert [e][1..] == [];
    match e {
      case Callback(x) => CallbackEncrypts(s, x);
      case Stack(_) =>
      case Adv(x) => AdvScope(s, x);
      case OnWork(x) => WorkScope(s, x);
      case OnWriter(x) => WriterScope(s, x);
      case Tick(_) =>
    }
  }

  lemma OthersEncryptNone(s: State, e: BtEvent)
    requires CanCallback(s, e) && !e.OnSecurityChanged?
    ensures NextCallback(s, e).hist.encrypted == s.hist.encrypted
  {
  }

  lemma CallbackEncrypts(s: State, e: BtEvent)
    requires CanCallback(s, e)
    ensures NextCallback(s, e).hist.encrypted ==
              s.hist.encrypted + if e.OnSecurityChanged? && e.err == 0 && e.level >= 2 then {Occupant(s.host)} else {}
  {
    if !e.OnSecurityChanged? {
      OthersEncryptNone(s, e);
    } else if e.err == 0 && e.level >= 2 {
      assert NextCallback(s, e).hist.encrypted == s.hist.encrypted + {s.host.obj.id};
    }
  }

  /** What "has encrypted" means, in the stack's own events. */
  lemma {:induction false} EncryptedByEvents(s: State, es: seq<Event>)
    requires Legal(s, es)
    ensures Run(s, es).hist.encrypted == s.hist.encrypted + SecuredIn(s, es)
    decreases |es|
  {
    if es != [] {
      EncryptsNow(s, es[0]);
      assert SecuredIn(s, [es[0]]) + SecuredIn(Next(s, es[0]), es[1..]) == SecuredIn(s, es) by {
        assert [es[0]][1..] == [];
      }
      EncryptedByEvents(Next(s, es[0]), es[1..]);
    }
  }
}
