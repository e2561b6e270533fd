/** Ways back: from every reachable state of the firmware in which it cannot be connected
    to, or does not receive, its own steps lead out. */
module FirmwareRecovery {
  import opened Words
  import opened ProxyCore
  import opened Downlink
  import opened SendLoops
  import opened FirmwareModel
  import opened FirmwareLaws
  import opened FirmwareRuns
  import L = LinkModel
  import U = UplinkModel
  import B = BridgeModel
  import LinkLaws
  import LinkRuns
  import UplinkRuns
  import UplinkLaws
  import BridgeLaws
  import BridgeRuns

  // --- The Bluetooth thread out of nus_received --------------------------------------------

  /** Steps left, at most, in uart_bridge_send or uart_bridge_set_baud. */
  function BridgeSteps(pc: B.Pc): nat {
    match pc
    case Idle => 0
    case StartFailed(_, _) => 1
    case Staged(_) => 2
    case Kick(_) => 3
    case BaudNoRx(_) => 4
    case BaudRefused(_, _) => 5
    case BaudAllocated(_, _) => 6
    case BaudReleased(_) => 7
    case BaudRestart(_) => 8
    case BaudConfig => 9
    case BaudQuiet => 10
    case BaudWaiting => 11
    case BaudArmed => 12
    case BaudAborted => 13
    case BaudOwned => 14
    case BaudCancelled => 15
  }

  function AckSteps(a: Ack): nat {
    if a.Owed? && a.tries < ACK_TRIES then ACK_TRIES - a.tries else 0
  }

  /** The calling thread's own step in the bridge. */
  predicate OfCaller(e: B.Event) {
    (e.Sender? && !e.send.Put?) || (e.Baud? && !e.baud.Call?)
  }

  lemma SendWinds(b: B.State, e: B.SendEvent)
    requires |b.tx.buf| == B.STAGE_SIZE && B.CanSend(b, e) && !e.Put?
    ensures BridgeSteps(B.NextSend(b, e).pc) < BridgeSteps(b.pc)
  {
  }

  lemma BaudWinds(b: B.State, e: B.BaudEvent)
    requires B.CanBaud(b, e) && !e.Call?
    ensures BridgeSteps(B.NextBaud(b, e).pc) < BridgeSteps(b.pc)
  {
  }

  /** Whatever is answered, each of its steps leads out. */
  lemma CallerWinds(b: B.State, e: B.Event)
    requires B.CanStep(b, e) && OfCaller(e)
    ensures BridgeSteps(B.Next(b, e).pc) < BridgeSteps(b.pc)
  {
    match e {
      case Sender(x) => SendWinds(b, x);
      case Baud(x) => BaudWinds(b, x);
    }
  }

  /** And it always has one. */
  lemma CallerSteps(b: B.State) returns (e: B.Event)
    requires BridgeLaws.SingleFlight(b.tx, b.pc, b.reconfiguring) && b.pc != B.Idle
    ensures B.CanStep(b, e) && OfCaller(e)
  {
    var buf: nat := if b.rx.free == {} then 0 else FreeBlock(b.rx.free);
    match b.pc {
      case StartFailed(_, _) => e := B.Sender(B.KickCleanUp);
      case Staged(_) => e := B.Sender(B.KickStart(-EBUSY));
      case Kick(_) => e := B.Sender(B.KickStage);
      case BaudNoRx(_) => e := B.Baud(B.Reschedule);
      case BaudRefused(_, _) => e := B.Baud(B.FreeRx);
      case BaudAllocated(_, _) => e := B.Baud(B.EnableRx(-EAGAIN));
      case BaudReleased(_) => e := B.Baud(B.AllocRx(buf));
      case BaudRestart(_) => e := B.Baud(B.Release);
      case BaudConfig => e := B.Baud(B.Configure(0));
      case BaudQuiet => e := B.Baud(B.GetConfig(0));
      case BaudWaiting => e := B.Baud(B.Wait(b.rx.quiesced));
      case BaudArmed => e := B.Baud(B.Disable(if b.rx.driver == B.RxOff then -EFAULT else 0));
      case BaudAborted => e := B.Baud(B.Reset);
      case BaudOwned => e := B.Baud(B.Abort);
      case BaudCancelled => e := B.Baud(B.Claim);
    }
  }

  ghost function FreeBlock(free: set<nat>): (b: nat)
    requires free != {}
    ensures b in free
  {
    var b :| b in free; b
  }

  // --- The writer out of its loop ------------------------------------------------------------

  /** Steps left, at most, until bt_conn_unref, if the sends are refused for good. */
  function WriterSteps(s: State): nat {
    if s.link.threads.writer == L.NoRef then 0
    else match s.up.pc
      case Referenced => 5
      case Claimed(_, _) => 4
      case Hooked(_, _) => 3
      case Sending(_, _, _) => 2
      case _ => 1
  }

  // --- How far an advertiser is ----------------------------------------------------------------

  /** What the link's own measure leaves out: the writer's way to its bt_conn_unref and
      the Bluetooth thread's way out of nus_received. */
  function Extra(s: State): nat {
    if !s.link.host.obj.Conn? then 0
    else
      (if WriterSteps(s) > 0 then WriterSteps(s) - 1 else 0)
      + match s.link.host.obj.phase
        case Lost => if s.link.threads.bt.NusRead? then 19 else BridgeSteps(s.down.pc) + AckSteps(s.ack)
        case Attempt(_) => BridgeSteps(s.down.pc)
        case _ => 0
  }

  function Distance(s: State): nat {
    LinkRuns.Distance(s.link) + Extra(s)
  }

  predicate InUse(s: State) {
    LinkRuns.InUse(s.link.host)
  }

  predicate Advertising(s: State) {
    s.link.host.obj.Advertiser?
  }

  predicate Closer(s: State, n: State) {
    Advertising(n) || (!InUse(n) && Distance(n) < Distance(s))
  }

  /** Steps of the firmware's own threads and callbacks the stack owes; a send is
      answered, and not by a shortage. */
  predicate Due(e: Event) {
    match e
    case OfLink(x) => LinkRuns.Owed(x)
    case OfBridge(x) => OfCaller(x)
    case OfUplink(x) => x.Hook? || x.Finish?
    case NusArrives(_) => false
    case WriterDecides => false
    case WriterSends(err) => !Shortage(err)
    case _ => true
  }

  lemma BusyStep(s: State) returns (e: Event)
    requires Inv(s) && Busy(s) && !InUse(s) && s.link.threads.bt == L.BtIdle
    requires s.link.host.obj.Conn? && (s.link.host.obj.phase == L.Lost || s.link.host.obj.phase.Attempt?)
    ensures CanStep(s, e) && Due(e) && Closer(s, Next(s, e))
  {
    if s.down.pc != B.Idle {
      BridgeRuns.ReachableInv(s.down);
      var x := CallerSteps(s.down);
      CallerWinds(s.down, x);
      e := OfBridge(x);
    } else {
      e := EchoStep(s);
    }
  }

  lemma EchoStep(s: State) returns (e: Event)
    requires ActionOver(s) && s.ack.tries < ACK_TRIES && !InUse(s)
    requires s.link.host.obj.Conn? && s.link.host.obj.phase == L.Lost
    ensures CanStep(s, e) && Due(e) && Closer(s, Next(s, e))
  {
    if TookEffect(s) {
      e := AckSends(-EFAULT);
    } else {
      e := AckFails;
    }
  }

  lemma DispatchCloser(s: State)
    requires CanStep(s, NusDispatches) && s.link.host.obj.Conn? && s.link.host.obj.phase == L.Lost
    requires ActionOf(s).Relay? <==> s.link.threads.bt.secure && s.link.threads.bt.relay.Some?
    ensures Closer(s, Next(s, NusDispatches))
  {
    var n := Next(s, NusDispatches);
    assert n.link.host == s.link.host;
    assert n.link.threads == s.link.threads.(bt := n.link.threads.bt);
    if ActionOf(s).Relay? {
      assert n.down == s.down && n.link.threads.bt.NusCancelled?;
    } else {
      assert n.link.threads.bt == L.BtIdle && BridgeSteps(n.down.pc) <= 15;
    }
  }

  lemma DispatchStep(s: State)
    requires Inv(s) && s.link.host.obj.Conn? && s.link.host.obj.phase == L.Lost && s.link.threads.bt.NusRead?
    ensures CanStep(s, NusDispatches) && Closer(s, Next(s, NusDispatches))
  {
    BridgeRuns.ReachableInv(s.down);
    assert BridgeLaws.SingleFlight(s.down.tx, s.down.pc, s.down.reconfiguring);
    DispatchCloser(s);
  }

  /** The link's callback takes its next step. */
  lemma CallbackStep(s: State) returns (x: L.BtEvent)
    requires LinkLaws.Inv(s.link) && s.link.host.obj.Conn? && s.link.host.obj.phase == L.Lost
    requires s.down.pc == B.Idle && !s.link.threads.bt.NusRead? && (s.ack.Owed? ==> s.link.threads.bt.NusCancelled?)
    ensures CanStep(s, OfLink(L.Callback(x))) && Closer(s, Next(s, OfLink(L.Callback(x))))
  {
    x := LinkRuns.StepFromLost(s.link);
    assert L.Next(s.link, L.Callback(x)) == L.NextCallback(s.link, x);
  }

  lemma LostStep(s: State) returns (e: Event)
    requires Inv(s) && s.link.host.obj.Conn? && s.link.host.obj.phase == L.Lost
    ensures CanStep(s, e) && Due(e) && Closer(s, Next(s, e))
  {
    if s.link.threads.bt.NusRead? {
      DispatchStep(s);
      e := NusDispatches;
    } else if Busy(s) && s.link.threads.bt == L.BtIdle {
      e := BusyStep(s);
    } else {
      LinkRuns.ReachableInv(s.link);
      var x := CallbackStep(s);
      e := OfLink(L.Callback(x));
    }
  }

  predicate GoneUnderWriter(s: State) {
    s.link.host.obj.Conn? && s.link.host.obj.phase == L.Ended && s.link.threads.writer != L.NoRef
  }

  lemma ClaimCloser(s: State, mtu: u16)
    requires GoneUnderWriter(s) && CanStep(s, WriterClaims(mtu)) && s.up.pc == U.Referenced
    ensures Closer(s, Next(s, WriterClaims(mtu)))
  {
  }

  lemma UplinkCloser(s: State, e: U.Event)
    requires GoneUnderWriter(s) && CanStep(s, OfUplink(e)) && (e.Hook? || e.Finish?)
    ensures Closer(s, Next(s, OfUplink(e)))
  {
  }

  lemma SendCloser(s: State, err: int)
    requires GoneUnderWriter(s) && CanStep(s, WriterSends(err)) && err != 0 && !Shortage(err)
    ensures Closer(s, Next(s, WriterSends(err)))
  {
    assert Next(s, WriterSends(err)).up.pc == U.Checking;
  }

  lemma UnrefCloser(s: State)
    requires GoneUnderWriter(s) && CanStep(s, OfLink(L.OnWriter(L.Unref)))
    requires LinkLaws.Inv(s.link)
    ensures Closer(s, Next(s, OfLink(L.OnWriter(L.Unref))))
  {
    var x := LinkRuns.StepFromGone(s.link);
  }

  /** The writer, on a link that is gone: claim, hook, finish, a send. */
  lemma LoopStep(s: State) returns (e: Event)
    requires UplinkLaws.PcSound(s.up) && WriterOnLink(s) && GoneUnderWriter(s) && OnLink(s.up.pc)
    ensures CanStep(s, e) && Due(e) && Closer(s, Next(s, e))
  {
    match s.up.pc {
      case Referenced =>
        ClaimCloser(s, 23);
        e := WriterClaims(23);
      case Claimed(_, _) =>
        UplinkCloser(s, U.Hook);
        e := OfUplink(U.Hook);
      case Hooked(_, _) =>
        UplinkCloser(s, U.Finish);
        e := OfUplink(U.Finish);
      case Sending(_, _, _) =>
        SendCloser(s, -EFAULT);
        e := WriterSends(-EFAULT);
    }
  }

  /** A step of the link alone that leaves the writer where it is. */
  lemma LinkCloser(s: State, x: L.Event)
    requires CanStep(s, OfLink(x)) && LinkRuns.Closer(s.link, L.Next(s.link, x))
    requires s.link.host.obj.Conn? && s.link.host.obj.phase != L.Lost
    requires L.Next(s.link, x).host.obj.Conn? ==>
               L.Next(s.link, x).host.obj.phase == L.Closing || L.Next(s.link, x).host.obj.phase == L.Ended
    requires L.Next(s.link, x).threads.writer == s.link.threads.writer
    ensures Closer(s, Next(s, OfLink(x)))
  {
  }

  lemma NobodyHolds(s: State) returns (x: L.Event)
    requires LinkLaws.Inv(s.link) && s.link.host.obj.Conn? && !InUse(s) && s.link.host.obj.phase != L.Lost
    requires !GoneUnderWriter(s) && !(s.link.host.obj.phase.Attempt? && Busy(s))
    ensures CanStep(s, OfLink(x)) && LinkRuns.Owed(x) && Closer(s, Next(s, OfLink(x)))
  {
    x := LinkRuns.StepFromGone(s.link);
    LinkCloser(s, x);
  }

  lemma GoneStep(s: State) returns (e: Event)
    requires Inv(s) && s.link.host.obj.Conn? && !InUse(s) && s.link.host.obj.phase != L.Lost
    ensures CanStep(s, e) && Due(e) && Closer(s, Next(s, e))
  {
    LinkRuns.ReachableInv(s.link);
    if GoneUnderWriter(s) {
      UplinkRuns.ReachableInv(s.up);
      if OnLink(s.up.pc) {
        e := LoopStep(s);
      } else {
        UnrefCloser(s);
        e := OfLink(L.OnWriter(L.Unref));
      }
    } else if s.link.host.obj.phase.Attempt? && Busy(s) {
      e := BusyStep(s);
    } else {
      var x := NobodyHolds(s);
      e := OfLink(x);
    }
  }

  lemma FreeStep(s: State) returns (e: Event)
    requires Inv(s) && s.link.host.obj == L.Free
    ensures CanStep(s, e) && Due(e) && Closer(s, Next(s, e))
  {
    LinkRuns.ReachableInv(s.link);
    var x := LinkRuns.StepFromFree(s.link);
    e := OfLink(x);
  }

  lemma StepTowardsAdv(s: State) returns (e: Event)
    requires Inv(s) && !InUse(s) && !Advertising(s)
    ensures CanStep(s, e) && Due(e) && Closer(s, Next(s, e))
  {
    if s.link.host.obj == L.Free {
      e := FreeStep(s);
    } else if s.link.host.obj.phase == L.Lost {
      e := LostStep(s);
    } else {
      e := GoneStep(s);
    }
  }

  lemma TakeStep(s: State) returns (e: Event, n: State)
    requires Inv(s) && !InUse(s) && !Advertising(s)
    ensures CanStep(s, e) && Due(e) && n == Next(s, e) && Inv(n) && Closer(s, n)
  {
    e := StepTowardsAdv(s);
    n := Next(s, e);
    InvStep(s, e);
  }

  lemma {:induction false} PathToAdv(s: State) returns (es: seq<Event>)
    requires Inv(s) && !InUse(s)
    ensures Legal(s, es) && Advertising(Run(s, es)) && |es| <= Distance(s)
    ensures forall e :: e in es ==> Due(e)
    decreases Distance(s)
  {
    es := [];
    if !Advertising(s) {
      var e, n := TakeStep(s);
      if !Advertising(n) {
        es := PathToAdv(n);
      }
      Prepend(s, e, es);
      es := [e] + es;
    }
  }

  lemma Prepend(s: State, e: Event, rest: seq<Event>)
    requires CanStep(s, e) && Legal(Next(s, e), rest)
    ensures Legal(s, [e] + rest) && Run(s, [e] + rest) == Run(Next(s, e), rest)
  {
    assert ([e] + rest)[1..] == rest;
  }

  lemma DistanceBound(s: State)
    requires NusOnLink(s) && AckSound(s) && !InUse(s)
    ensures Distance(s) <= 35
  {
    assert BridgeSteps(s.down.pc) <= 15 && AckSteps(s.ack) <= 5 && WriterSteps(s) <= 5;
  }

  /** Recovery is always at hand: from every state a run from boot reaches in which no
      link is up or being set up, at most 35 steps of the firmware's own threads and of
      callbacks the stack owes make the device connectable, as soon as the stack accepts
      one bt_le_adv_start and answers a writer's pending send with anything but a
      shortage. */
  lemma BecomesReachable(u: Setup, past: seq<Event>) returns (es: seq<Event>)
    requires BootRun(u, past) && !InUse(Run(BootOf(u), past))
    ensures Legal(Run(BootOf(u), past), es) && Advertising(Run(Run(BootOf(u), past), es)) && |es| <= 35
    ensures forall e :: e in es ==> Due(e)
  {
    BootInv(u);
    RunInv(BootOf(u), past);
    DistanceBound(Run(BootOf(u), past));
    es := PathToAdv(Run(BootOf(u), past));
  }

  // --- And only then: a shortage holds the link's object ---------------------------------------

  /** The writer is in send_processed with a slice left. */
  predicate MidSend(s: State) {
    s.up.pc.Sending? && Slice(s.up.pc) > 0
  }

  /** bt_nus_send answered something other than a shortage. */
  predicate Answers(e: Event) {
    e.WriterSends? && !Shortage(e.err)
  }

  lemma UplinkWaits(u: U.State, e: U.Event)
    requires U.CanStep(u, e) && u.pc.Sending? && (e.RxReady? || e.Wake?)
    ensures U.Next(u, e).pc == u.pc
  {
  }

  lemma StaysMidSend(s: State, e: Event)
    requires MidSend(s) && CanStep(s, e) && !Answers(e)
    ensures Next(s, e).up.pc == s.up.pc
  {
    if e.OfUplink? {
      UplinkWaits(s.up, e.up);
    }
  }

  lemma {:induction false} HeldMidSend(s: State, es: seq<Event>)
    requires MidSend(s) && Legal(s, es) && (forall e :: e in es ==> !Answers(e))
    ensures Run(s, es).up.pc == s.up.pc
    decreases |es|
  {
    if es != [] {
      StaysMidSend(s, es[0]);
      HeldMidSend(Next(s, es[0]), es[1..]);
    }
  }

  lemma SenderHoldsLink(s: State)
    requires Inv(s) && MidSend(s)
    ensures L.Alive(s.link.host, s.origin)
  {
    LinkRuns.ReachableInv(s.link);
  }

  /** While every send is answered with a shortage, the writer keeps its reference, so the
      one connection object stays taken and no advertiser comes up, whatever else runs
      and however long: the condition of BecomesReachable cannot be left out. */
  lemma ShortageHoldsLink(u: Setup, past: seq<Event>, es: seq<Event>)
    requires BootRun(u, past) && MidSend(Run(BootOf(u), past)) && Legal(Run(BootOf(u), past), es)
    requires forall e :: e in es ==> !Answers(e)
    ensures var s := Run(Run(BootOf(u), past), es); s.link.host.obj.Conn? && !Advertising(s)
  {
    BootInv(u);
    RunInv(BootOf(u), past);
    var s := Run(BootOf(u), past);
    HeldMidSend(s, es);
    RunInv(s, es);
    SenderHoldsLink(Run(s, es));
  }

  // --- Such a state is reached ------------------------------------------------------------------

  /** The end of some run from boot. */
  ghost predicate Reachable(s: State) {
    exists u: Setup, es: seq<Event> :: BootRun(u, es) && s == Run(BootOf(u), es)
  }

  lemma {:induction false} Extend(s: State, es: seq<Event>, e: Event)
    requires Legal(s, es) && CanStep(Run(s, es), e)
    ensures Legal(s, es + [e]) && Run(s, es + [e]) == Next(Run(s, es), e)
    decreases |es|
  {
    if es == [] {
      assert [e][1..] == [];
    } else {
      Extend(Next(s, es[0]), es[1..], e);
      assert (es + [e])[1..] == es[1..] + [e];
    }
  }

  lemma Then(s: State, e: Event) returns (n: State)
    requires Reachable(s) && CanStep(s, e)
    ensures Reachable(n) && n == Next(s, e)
  {
    var u: Setup, es: seq<Event> :| BootRun(u, es) && s == Run(BootOf(u), es);
    Extend(BootOf(u), es, e);
    n := Next(s, e);
  }

  lemma ThenLink(s: State, e: L.Event) returns (n: State)
    requires Reachable(s) && CanLink(s, e)
    ensures Reachable(n) && n == s.(link := L.Next(s.link, e))
  {
    n := Then(s, OfLink(e));
  }

  lemma ThenUplink(s: State, e: U.Event) returns (n: State)
    requires Reachable(s) && CanUplink(s, e)
    ensures Reachable(n) && n == s.(up := U.Next(s.up, e))
  {
    n := Then(s, OfUplink(e));
  }

  /** nus_received and the link's callbacks are at rest, with the one link up. */
  predicate Rests(s: State, refs: nat, app: L.App) {
    && s.down.pc == B.Idle && s.ack == NoAck && s.link.threads.bt == L.BtIdle
    && s.link.host.obj == L.Conn(0, L.Up) && s.link.host.refs == refs && s.link.app == app
  }

  const OPEN := L.App(Some(0), false, false, false, false, false)
  const SECURED := OPEN.(secure := true)

  lemma Booting() returns (s: State)
    ensures Reachable(s) && s.down.pc == B.Idle && s.ack == NoAck && s.up == U.Start()
    ensures s.link == L.Booted({}, {}, false)
  {
    var u := Setup({}, {}, false, 0, seq(B.STAGE_SIZE, _ => 0), 9600);
    s := BootOf(u);
    assert BootRun(u, []) && Run(BootOf(u), []) == s;
  }

  lemma Connecting() returns (s: State)
    ensures Reachable(s) && s.down.pc == B.Idle && s.ack == NoAck && s.up == U.Start()
    ensures s.link.threads.bt == L.ConnCancel && s.link.threads.writer == L.NoRef
    ensures s.link.host.obj == L.Conn(0, L.Up) && s.link.host.refs == 2 && s.link.app == OPEN
  {
    s := Booting();
    s := ThenLink(s, L.Adv(L.Section(0)));
    s := ThenLink(s, L.Stack(L.Connect(true, 0)));
    s := ThenLink(s, L.Callback(L.OnConnected));
  }

  lemma Connected() returns (s: State)
    ensures Reachable(s) && Rests(s, 2, OPEN) && s.up == U.Start() && s.link.threads.writer == L.NoRef
  {
    s := Connecting();
    s := ThenLink(s, L.Callback(L.CancelSlow));
    s := ThenLink(s, L.Callback(L.ArmWatchdog));
  }

  lemma Securing() returns (s: State)
    ensures Reachable(s) && s.down.pc == B.Idle && s.ack == NoAck && s.up == U.Start()
    ensures s.link.threads.bt == L.SecCancelWatchdog && s.link.threads.writer == L.NoRef
    ensures s.link.host.obj == L.Conn(0, L.Up) && s.link.host.refs == 2 && s.link.app == SECURED
  {
    s := Connected();
    s := ThenLink(s, L.Callback(L.OnSecurityChanged(L.SECURITY_L2, 0)));
  }

  lemma Encrypted() returns (s: State)
    ensures Reachable(s) && Rests(s, 2, SECURED) && s.up == U.Start() && s.link.threads.writer == L.NoRef
  {
    s := Securing();
    s := ThenLink(s, L.Callback(L.CancelWatchdog));
    s := ThenLink(s, L.Callback(L.CancelGrace));
  }

  lemma Arrived() returns (s: State)
    ensures Reachable(s) && Rests(s, 2, SECURED) && s.link.threads.writer == L.NoRef
    ensures UplinkLaws.PcSound(s.up) && s.up.pc == U.Waiting && s.up.sem && s.up.ring == [0]
  {
    s := Encrypted();
    s := ThenUplink(s, U.RxReady([0]));
    assert s.up.ring == U.Range(0, 1);
  }

  /** A byte has come and the writer is about to decide. */
  lemma Deciding() returns (s: State)
    ensures Reachable(s) && Rests(s, 2, SECURED) && s.link.threads.writer == L.NoRef
    ensures UplinkLaws.PcSound(s.up) && s.up.pc == U.Deciding && s.up.ring == [0]
  {
    s := Arrived();
    s := ThenUplink(s, U.Take);
    s := ThenUplink(s, U.CheckEmpty);
  }

  lemma Referenced() returns (s: State)
    ensures Reachable(s) && Rests(s, 3, SECURED) && s.link.threads.writer == L.Holding(0)
    ensures UplinkLaws.PcSound(s.up) && s.up.pc == U.Referenced && s.up.ring == [0]
  {
    s := Deciding();
    s := Then(s, WriterDecides);
  }

  lemma Claimed() returns (s: State)
    ensures Reachable(s) && Rests(s, 3, SECURED) && s.link.threads.writer == L.Claimed(0)
    ensures UplinkLaws.PcSound(s.up) && s.up.pc == U.Claimed(20, 1)
  {
    s := Referenced();
    s := Then(s, WriterClaims(23));
  }

  lemma Hooked() returns (s: State)
    ensures Reachable(s) && Rests(s, 3, SECURED) && s.link.threads.writer == L.Claimed(0)
    ensures UplinkLaws.PcSound(s.up) && s.up.pc == U.Hooked(20, 1)
  {
    s := Claimed();
    s := ThenUplink(s, U.Hook);
  }

  lemma Sending() returns (s: State)
    ensures Reachable(s) && Rests(s, 3, SECURED) && s.link.threads.writer == L.Claimed(0) && MidSend(s)
  {
    s := Hooked();
    s := ThenUplink(s, U.Finish);
  }

  /** The writer is in its send loop; its link is going or gone. */
  predicate Leaving(s: State, phase: L.Phase, refs: nat, app: L.App, bt: L.Bt) {
    && MidSend(s) && s.down.pc == B.Idle && s.ack == NoAck && s.link.threads.writer == L.Claimed(0)
    && s.link.host.obj == L.Conn(0, phase) && s.link.host.refs == refs && s.link.app == app && s.link.threads.bt == bt
  }

  lemma LinkLost() returns (s: State)
    ensures Reachable(s) && Leaving(s, L.Lost, 3, SECURED, L.BtIdle)
  {
    s := Sending();
    s := ThenLink(s, L.Stack(L.LoseLink));
  }

  lemma Disconnecting() returns (s: State)
    ensures Reachable(s) && Leaving(s, L.Lost, 3, SECURED, L.DiscRead(false))
  {
    s := LinkLost();
    s := ThenLink(s, L.Callback(L.OnDisconnected));
  }

  lemma GraceSkipped() returns (s: State)
    ensures Reachable(s) && Leaving(s, L.Lost, 3, SECURED, L.DiscArmed(false))
  {
    s := Disconnecting();
    s := ThenLink(s, L.Callback(L.GraceStart));
  }

  lemma TimersCancelled() returns (s: State)
    ensures Reachable(s) && Leaving(s, L.Lost, 3, SECURED, L.DiscCancelled(false))
  {
    s := GraceSkipped();
    s := ThenLink(s, L.Callback(L.DisconnectCancel));
  }

  lemma ConnDropped() returns (s: State)
    ensures Reachable(s) && Leaving(s, L.Closing, 2, OPEN.(cur := None), L.BtIdle)
  {
    s := TimersCancelled();
    s := ThenLink(s, L.Callback(L.DropConn));
  }

  /** From boot, the link goes while the writer is in its send loop: no link is up or
      being set up, and the next step of the link alone, the writer's bt_conn_unref, is
      one the firmware cannot take before a send has been answered. */
  lemma GoneMidSend() returns (s: State)
    ensures Reachable(s) && MidSend(s) && !InUse(s) && GoneUnderWriter(s)
    ensures L.CanStep(s.link, L.OnWriter(L.Unref)) && !CanStep(s, OfLink(L.OnWriter(L.Unref)))
  {
    s := ConnDropped();
    s := ThenLink(s, L.Stack(L.ReleaseRef));
  }

  // --- The UART's way back, and the writer's ------------------------------------------------------

  function Lifted(bs: seq<B.Event>): seq<Event> {
    if bs == [] then [] else [OfBridge(bs[0])] + Lifted(bs[1..])
  }

  lemma {:induction false} LiftBridge(s: State, bs: seq<B.Event>)
    requires BridgeRuns.Legal(s.down, bs)
    requires forall x :: x in bs ==> (x.Baud? || x.Retry?) && !BridgeRuns.StartsChange(x)
    ensures Legal(s, Lifted(bs)) && Run(s, Lifted(bs)) == s.(down := BridgeRuns.Run(s.down, bs))
    ensures |Lifted(bs)| == |bs|
    decreases |bs|
  {
    if bs != [] {
      assert bs[0] in bs && CanBridge(s, bs[0]);
      assert Lifted(bs)[0] == OfBridge(bs[0]) && Next(s, OfBridge(bs[0])) == s.(down := B.Next(s.down, bs[0]));
      LiftBridge(s.(down := B.Next(s.down, bs[0])), bs[1..]);
      assert Lifted(bs)[1..] == Lifted(bs[1..]);
    }
  }

  /** Reception comes back in the firmware as it does in the bridge alone: at most nine
      steps of its own threads, once the driver accepts one uart_rx_enable. */
  lemma RxRecovers(u: Setup, past: seq<Event>) returns (es: seq<Event>)
    requires BootRun(u, past) && Run(BootOf(u), past).down.rx.driver == B.RxOff
    ensures Legal(Run(BootOf(u), past), es) && |es| <= 9
    ensures Run(Run(BootOf(u), past), es).down.rx.driver == B.RxLive
  {
    var s := Run(BootOf(u), past);
    PartsAreReachable(u, past);
    var bs := BridgeRuns.RxRecovers(s.down);
    LiftBridge(s, bs);
    es := Lifted(bs);
  }

  /** The writer's own steps. */
  predicate OfWriter(e: Event) {
    match e
    case OfLink(x) => x == L.OnWriter(L.Unref)
    case OfUplink(x) => !x.RxReady? && !x.Wake?
    case WriterDecides => true
    case WriterClaims(_) => true
    case WriterSends(_) => true
    case _ => false
  }

  /** The writer only ever blocks with nothing queued and no reference held: otherwise it
      has a step, whatever the link's MTU and the answer to a send are. */
  lemma WriterNeverStuck(u: Setup, past: seq<Event>, mtu: u16, err: int) returns (e: Event)
    requires BootRun(u, past)
    ensures var s := Run(BootOf(u), past);
            || (s.up.pc == U.Waiting && !s.up.sem && s.up.ring == [] && s.link.threads.writer == L.NoRef)
            || (CanStep(s, e) && OfWriter(e) && (e.WriterClaims? ==> e.mtu == mtu) && (e.WriterSends? ==> e.err == err))
  {
    BootInv(u);
    RunInv(BootOf(u), past);
    UplinkRuns.ReachableInv(Run(BootOf(u), past).up);
    e := WriterHasStep(Run(BootOf(u), past), mtu, err);
  }

  lemma WriterHasStep(s: State, mtu: u16, err: int) returns (e: Event)
    requires UplinkLaws.PcSound(s.up) && UplinkLaws.NoLostWakeup(s.up) && WriterOnLink(s)
    ensures || (s.up.pc == U.Waiting && !s.up.sem && s.up.ring == [] && s.link.threads.writer == L.NoRef)
            || (CanStep(s, e) && OfWriter(e) && (e.WriterClaims? ==> e.mtu == mtu) && (e.WriterSends? ==> e.err == err))
  {
    if s.link.threads.writer != L.NoRef && !OnLink(s.up.pc) {
      e := OfLink(L.OnWriter(L.Unref));
    } else {
      e := match s.up.pc
        case Waiting => OfUplink(U.Take)
        case Checking => OfUplink(U.CheckEmpty)
        case Deciding => WriterDecides
        case Draining => OfUplink(U.DrainStep)
        case Referenced => WriterClaims(mtu)
        case Claimed(_, _) => OfUplink(U.Hook)
        case Hooked(_, _) => OfUplink(U.Finish)
        case Sending(_, _, _) => WriterSends(err)
        case Reporting => OfUplink(U.Report);
    }
  }
}
