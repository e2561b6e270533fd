/** Any schedule of the link's contexts and of the stack, executed on the real objects. */
module LinkScheduler {
  import opened LinkModel
  import opened LinkLaws
  import opened LinkRuns
  import opened LinkManager

  /** The stack's own moves. */
  method RunStack(l: Link, e: StackEvent)
    requires CanStack(l.Snapshot(), e)
    modifies l, l.host
    ensures l.Snapshot() == NextStack(old(l.Snapshot()), e)
  {
    var h := l.host;
    match e {
      case Connect(ok, peer) =>
        l.hist := l.hist.(disconnectRequested := false,
                          strangerIn := l.hist.strangerIn || (h.bonds != {} && peer !in h.bonds));
        h.obj, h.refs, h.nextId := Conn(h.nextId, Attempt(ok)), 1, h.nextId + 1;
      case LoseLink => h.obj := Conn(h.obj.id, Lost);
      case StoreBond(peer) =>
        h.bonds := {peer};
        l.bt := PairClear;
      case ReleaseRef =>
        h.obj := Conn(h.obj.id, Ended);
        h.Unref();
      case DeliverRecycled =>
        h.recycledDue := h.recycledDue - 1;
        l.entering := l.entering + 1;
    }
  }

  predicate ConnectionEvent(e: BtEvent) {
    e.OnConnected? || e.CancelSlow? || e.ArmWatchdog? || e.OnSecurityChanged? || e.CancelWatchdog? || e.CancelGrace?
    || e.OnDisconnected? || e.GraceStart? || e.DisconnectCancel? || e.DropConn?
  }

  method RunConnection(l: Link, e: BtEvent)
    requires CanCallback(l.Snapshot(), e) && ConnectionEvent(e)
    modifies l, l.host, l.timers
    ensures l.Snapshot() == NextCallback(old(l.Snapshot()), e)
  {
    match e {
      case OnConnected => l.OnConnected();
      case CancelSlow => l.CancelSlow();
      case ArmWatchdog => l.ArmWatchdog();
      case OnSecurityChanged(level, err) => l.OnSecurityChanged(level, err);
      case CancelWatchdog => l.CancelWatchdog();
      case CancelGrace => l.CancelGrace();
      case OnDisconnected => l.OnDisconnected();
      case GraceStart => l.RelayGraceStart();
      case DisconnectCancel => l.DisconnectCancel();
      case DropConn => l.DropConn();
    }
  }

  method RunNusAndPairing(l: Link, e: BtEvent)
    requires CanCallback(l.Snapshot(), e) && !ConnectionEvent(e)
    modifies l, l.host, l.timers
    ensures l.Snapshot() == NextCallback(old(l.Snapshot()), e)
  {
    match e {
      case OnNus(relay) => l.NusReceived(relay);
      case RelayCancel => l.RelaySet();
      case RelayApply => l.RelaySetApply();
      case ClearList => l.ClearList();
      case AddBonds(rejected) => l.AddBonds(rejected);
      case SetMode => l.SetMode();
    }
  }

  method RunAdv(l: Link, e: AdvEvent)
    requires CanAdv(l.Snapshot(), e)
    modifies l, l.host, l.timers
    ensures l.Snapshot() == NextAdv(old(l.Snapshot()), e)
  {
    match e {
      case Section(err) => l.EnterAdvertisingStart(err);
      case ScheduleRetry => l.ScheduleRetry();
      case ScheduleSlow => l.ScheduleSlow();
    }
  }

  method RunWork(l: Link, e: WorkEvent)
    requires CanWork(l.Snapshot(), e)
    modifies l, l.host, l.timers
    ensures l.Snapshot() == NextWork(old(l.Snapshot()), e)
  {
    match e {
      case SlowFire => l.SlowFire();
      case SlowSwitch(stopErr, inline, inlineErr, startErr) => l.AdvSlowHandler(stopErr, inline, inlineErr, startErr);
      case SlowAgain => l.SlowAgain();
      case SlowRecheck => l.SlowRecheck();
      case SlowRetry => l.SlowRetry();
      case RetryFire => l.RetryFire();
      case WatchdogFire => l.WatchdogFire();
      case WatchdogRef => l.RefUnsecuredConn();
      case WatchdogDisconnect => l.WatchdogDisconnect();
      case WatchdogUnref => l.WatchdogUnref();
      case GraceFire => l.GraceFire();
      case GraceDecide => l.RelayGraceHandler();
    }
  }

  method RunWriter(l: Link, e: WriterEvent)
    requires CanWriter(l.Snapshot(), e)
    modifies l, l.host
    ensures l.Snapshot() == NextWriter(old(l.Snapshot()), e)
  {
    match e {
      case TakeRef => l.WriterTakeRef();
      case Claim => l.WriterClaim();
      case Send => l.WriterSend();
      case Unref => l.WriterUnref();
    }
  }

  /** One step of whichever context runs next. */
  method Step(l: Link, e: Event)
    requires CanStep(l.Snapshot(), e)
    modifies l, l.host, l.timers
    ensures l.Snapshot() == Next(old(l.Snapshot()), e)
  {
    match e {
      case Stack(x) => RunStack(l, x);
      case Callback(x) =>
        if ConnectionEvent(x) {
          RunConnection(l, x);
        } else {
          RunNusAndPairing(l, x);
        }
      case Adv(x) => RunAdv(l, x);
      case OnWork(x) => RunWork(l, x);
      case OnWriter(x) => RunWriter(l, x);
      case Tick(ms) => l.timers.now := l.timers.now + ms;
    }
  }

  /** The same, for a caller who wants the promises kept: the invariant behind all the
      theorems about the link holds again after any one section. */
  method StepSafely(l: Link, e: Event)
    requires Inv(l.Snapshot()) && CanStep(l.Snapshot(), e)
    modifies l, l.host, l.timers
    ensures Inv(l.Snapshot()) && l.Snapshot() == Next(old(l.Snapshot()), e)
  {
    InvStep(l.Snapshot(), e);
    Step(l, e);
  }

  /** The objects follow the machine along every legal schedule, so every promise of
      LinkRuns is a promise of the objects. */
  method Execute(l: Link, es: seq<Event>)
    requires Inv(l.Snapshot()) && Legal(l.Snapshot(), es)
    modifies l, l.host, l.timers
    ensures Inv(l.Snapshot()) && l.Snapshot() == Run(old(l.Snapshot()), es)
  {
    var i := 0;
    while i < |es|
      invariant i <= |es| && Inv(l.Snapshot()) && Legal(l.Snapshot(), es[i..])
      invariant Run(l.Snapshot(), es[i..]) == Run(old(l.Snapshot()), es)
    {
      assert es[i..][1..] == es[i + 1..];
      StepSafely(l, es[i]);
      i := i + 1;
    }
  }
}
