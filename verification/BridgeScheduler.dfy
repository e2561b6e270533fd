/** Any schedule of the bridge's contexts, executed on the real objects. */
module BridgeScheduler {
  import opened BridgeModel
  import opened BridgeLaws
  import opened BridgeRuns
  import opened UartBridge

  method RunSender(b: Bridge, e: SendEvent)
    requires b.Valid() && CanSend(b.Snapshot(), e)
    modifies b, b.tx, b.tx.ring, b.tx.ring.data, b.tx.buf
    ensures b.Valid() && b.Snapshot() == NextSend(old(b.Snapshot()), e) && b.deviceSet == old(b.deviceSet)
  {
    match e {
      case Put(data) => b.Send(data);
      case KickStage => b.KickStage();
      case KickStart(err) => b.KickStart(err);
      case KickCleanUp => b.KickCleanUp();
    }
  }

  method RunRxIsr(r: RxPath, reconfiguring: bool, e: RxIsrEvent)
    requires CanRxIsr(r.Value(), e)
    modifies r
    ensures r.Value() == NextRxIsr(old(r.Value()), reconfiguring, e)
  {
    match e {
      case BufRequest(buf) => r.BufRequest(buf);
      case BufReleased(buf) => r.BufReleased(buf);
      case RxStops => r.driver := RxStopping;
      case RxDisabled(buf, err, live) => r.Disabled(reconfiguring, buf, err, live);
    }
  }

  method RunRetry(r: RxPath, reconfiguring: bool, e: RetryEvent)
    requires CanRetry(r.Value(), e)
    modifies r
    ensures r.Value() == NextRetry(old(r.Value()), reconfiguring, e)
  {
    match e {
      case Fire => r.RetryFire();
      case Check => r.RetryCheck(reconfiguring);
      case Alloc(buf) => r.RetryAlloc(buf);
      case Enable(err) => r.RetryEnable(err);
      case GiveBack => r.RetryGiveBack();
    }
  }

  method RunBaud(b: Bridge, e: BaudEvent)
    requires b.Valid() && b.deviceSet && CanBaud(b.Snapshot(), e)
    modifies b, b.rx
    ensures b.Valid() && b.Snapshot() == NextBaud(old(b.Snapshot()), e) && b.deviceSet
  {
    match e {
      case Call(baud) => var err := b.SetBaud(baud);
      case Claim => b.BaudClaim();
      case Abort => b.BaudAbort();
      case Reset => b.BaudReset();
      case Disable(err) => b.BaudDisable(err);
      case Wait(stopped) => b.BaudWait(stopped);
      case GetConfig(err) => b.BaudGetConfig(err);
      case Configure(err) => b.BaudConfigure(err);
      case Release => b.BaudRelease();
      case AllocRx(buf) => b.BaudAllocRx(buf);
      case EnableRx(err) => b.BaudEnableRx(err);
      case FreeRx => b.BaudFreeRx();
      case Reschedule => b.BaudReschedule();
    }
  }

  lemma ChunkIsStaged(s: State)
    requires Inv(s) && s.tx.driver.TxBusy?
    ensures s.tx.len == |s.tx.driver.chunk|
  {
  }

  /** One step of whichever context runs next. */
  method Step(b: Bridge, e: Event)
    requires b.Valid() && b.deviceSet && CanStep(b.Snapshot(), e) && Inv(b.Snapshot())
    modifies b, b.tx, b.tx.ring, b.tx.ring.data, b.tx.buf, b.rx
    ensures b.Valid() && b.deviceSet && b.Snapshot() == Next(old(b.Snapshot()), e)
  {
    match e {
      case Sender(x) => RunSender(b, x);
      case TxIsr(x) =>
        ChunkIsStaged(b.Snapshot());
        b.TxEnded(x);
      case RxIsr(x) => RunRxIsr(b.rx, b.reconfiguring, x);
      case Retry(x) => RunRetry(b.rx, b.reconfiguring, x);
      case Baud(x) => RunBaud(b, x);
    }
  }

  /** The objects follow the machine along every legal schedule, so every promise of
      BridgeRuns is a promise of the objects. */
  method Execute(b: Bridge, es: seq<Event>)
    requires b.Valid() && b.deviceSet && Inv(b.Snapshot()) && Legal(b.Snapshot(), es)
    modifies b, b.tx, b.tx.ring, b.tx.ring.data, b.tx.buf, b.rx
    ensures b.Valid() && b.deviceSet && Inv(b.Snapshot())
    ensures b.Snapshot() == Run(old(b.Snapshot()), es)
  {
    var i := 0;
    while i < |es|
      invariant i <= |es| && b.Valid() && b.deviceSet && Inv(b.Snapshot())
      invariant Legal(b.Snapshot(), es[i..])
      invariant Run(b.Snapshot(), es[i..]) == Run(old(b.Snapshot()), es)
    {
      assert es[i..][1..] == es[i + 1..];
      InvStep(b.Snapshot(), es[i]);
      Step(b, es[i]);
      i := i + 1;
    }
  }
}
