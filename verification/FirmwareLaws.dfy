/** What every step of the whole firmware keeps beside the laws of its three parts. */
module FirmwareLaws {
  import opened Words
  import opened Downlink
  import opened SendLoops
  import opened FirmwareModel
  import L = LinkModel
  import U = UplinkModel
  import B = BridgeModel
  import LinkLaws
  import LinkRuns
  import UplinkRuns
  import BridgeRuns
  import BridgeLaws

  /** Each part is in a state that one of its own runs reaches. */
  ghost predicate Parts(s: State) {
    LinkRuns.Reachable(s.link) && UplinkRuns.Reachable(s.up) && BridgeRuns.Reachable(s.down)
  }

  /** The writer's reference follows its bytes. */
  predicate WriterOnLink(s: State) {
    && (s.up.pc == U.Referenced ==> s.link.threads.writer.Holding?)
    && (s.up.pc.Claimed? || s.up.pc.Hooked? || s.up.pc.Sending? ==> s.link.threads.writer == L.Claimed(s.origin))
  }

  /** Every notified byte was claimed and sent on one and the same encrypted link. */
  predicate DeliveredOnOneLink(s: State) {
    && |s.deliveries| == |s.up.notified|
    && forall i :: 0 <= i < |s.deliveries| ==>
         && s.deliveries[i].position == s.up.notified[i]
         && s.deliveries[i].claimed == s.deliveries[i].sent
         && s.deliveries[i].sent in s.link.hist.encrypted
  }

  /** The relay command on its way is the one the write holds. */
  predicate WriteRead(s: State) {
    && (s.link.threads.bt.NusRead? ==> s.link.threads.bt.relay == RelayOf(s.write))
    && (s.link.threads.bt.NusCancelled? ==> RelayOf(s.write) == Some(s.link.threads.bt.enable))
  }

  predicate RunningOn(l: L.State, id: L.LinkId) {
    L.LinkRunning(l.host) && l.host.obj.id == id
  }

  /** While nus_received is on its way, the link it was called on is there; while it is in
      the UART bridge, no callback of the link is. */
  predicate NusOnLink(s: State) {
    && (s.link.threads.bt.NusRead? || s.ack.Owed? ==> RunningOn(s.link, s.conn))
    && (s.link.threads.bt.NusRead? ==> s.ack == NoAck)
    && (s.down.pc != B.Idle ==> s.link.threads.bt == L.BtIdle)
  }

  predicate InChange(pc: B.Pc) {
    BridgeLaws.WillRestartRx(pc) || ((pc.Kick? || pc.Staged? || pc.StartFailed?) && pc.k.ToBaud?)
  }

  /** A change to this rate is under way, or over, and then a 0 means it went live. */
  predicate ChangeTo(b: B.State, rate: nat) {
    if b.pc == B.Idle then b.result == 0 ==> b.rate == rate else InChange(b.pc) && b.target == rate
  }

  /** The relay command is about to be applied, or has been. */
  predicate RelaySetTo(l: L.State, enable: bool) {
    if l.threads.bt == L.BtIdle then l.app.hasRelay ==> l.app.relay == enable
    else l.threads.bt == L.NusCancelled(enable)
  }

  /** What is owed is the echo of the write, on its link, whose gate is open. */
  predicate AckSound(s: State) {
    s.ack.Owed? ==>
      && s.ack.packet == s.write && s.ack.link == s.conn && s.ack.tries < ACK_TRIES
      && LinkLaws.SecureLink(s.link.app)
      && match Dispatch(true, s.write)
         case Relay(enable) => s.down.pc == B.Idle && RelaySetTo(s.link, enable)
         case Baud(rate) => s.link.threads.bt == L.BtIdle && ChangeTo(s.down, rate)
         case _ => false
  }

  /** An echo went out on the link of its command, and only when the command had taken
      effect: the rate was live, the relay, where there is one, was as asked. */
  predicate Sound(e: Echo, encrypted: set<L.LinkId>, hasRelay: bool) {
    && e.of == e.sent && e.sent in encrypted
    && match Dispatch(true, e.packet)
       case Relay(enable) => hasRelay ==> e.relay == enable
       case Baud(rate) => e.rate == rate
       case _ => false
  }

  predicate Echoed(s: State) {
    forall i :: 0 <= i < |s.echoes| ==> Sound(s.echoes[i], s.link.hist.encrypted, s.link.app.hasRelay)
  }

  predicate WriterSide(s: State) {
    WriterOnLink(s) && DeliveredOnOneLink(s)
  }

  predicate NusSide(s: State) {
    WriteRead(s) && NusOnLink(s) && AckSound(s) && Echoed(s)
  }

  ghost predicate Inv(s: State) {
    Parts(s) && WriterSide(s) && NusSide(s)
  }

  // --- The link's steps seen from outside -----------------------------------------------

  predicate KeepsWriter(l: L.State, n: L.State) {
    && n.threads.writer == l.threads.writer && l.hist.encrypted <= n.hist.encrypted
    && n.app.hasRelay == l.app.hasRelay
  }

  predicate ReadsNoWrite(l: L.State, n: L.State) {
    || n.threads.bt == l.threads.bt
    || (!n.threads.bt.NusRead? && !n.threads.bt.NusCancelled?)
  }

  lemma StackScope(l: L.State, e: L.StackEvent)
    requires L.CanStack(l, e)
    ensures KeepsWriter(l, L.NextStack(l, e)) && ReadsNoWrite(l, L.NextStack(l, e))
  {
  }

  lemma CallbackScope(l: L.State, e: L.BtEvent)
    requires L.CanCallback(l, e)
    ensures KeepsWriter(l, L.NextCallback(l, e))
    ensures !e.OnNus? && !e.RelayCancel? ==> ReadsNoWrite(l, L.NextCallback(l, e))
  {
  }

  lemma AdvScope(l: L.State, e: L.AdvEvent)
    requires L.CanAdv(l, e)
    ensures KeepsWriter(l, L.NextAdv(l, e)) && ReadsNoWrite(l, L.NextAdv(l, e))
  {
  }

  lemma WorkScope(l: L.State, e: L.WorkEvent)
    requires L.CanWork(l, e)
    ensures KeepsWriter(l, L.NextWork(l, e)) && ReadsNoWrite(l, L.NextWork(l, e))
  {
  }

  lemma WriterScope(l: L.State, e: L.WriterEvent)
    requires L.CanWriter(l, e)
    ensures var n := L.NextWriter(l, e);
            && n.hist.encrypted == l.hist.encrypted && n.threads.bt == l.threads.bt && n.app == l.app
            && (e == L.Send ==> n.threads.writer == l.threads.writer)
  {
  }

  lemma LinkScope(l: L.State, e: L.Event)
    requires L.CanStep(l, e)
    requires e.Callback? ==> !e.bt.OnNus? && !e.bt.RelayCancel?
    ensures var n := L.Next(l, e);
            && l.hist.encrypted <= n.hist.encrypted && ReadsNoWrite(l, n) && n.app.hasRelay == l.app.hasRelay
            && (!e.OnWriter? ==> n.threads.writer == l.threads.writer)
  {
    match e {
      case Stack(x) => StackScope(l, x);
      case Callback(x) => CallbackScope(l, x);
      case Adv(x) => AdvScope(l, x);
      case OnWork(x) => WorkScope(l, x);
      case OnWriter(x) => WriterScope(l, x);
      case Tick(_) =>
    }
  }

  // --- A link that is held: its callback has not returned ---------------------------------

  predicate KeepsLink(l: L.State, n: L.State)
    requires L.LinkRunning(l.host)
  {
    && L.LinkRunning(n.host) && n.host.obj.id == l.host.obj.id && n.threads.bt == l.threads.bt
    && n.app.cur == l.app.cur && n.app.secure == l.app.secure && n.app.hasRelay == l.app.hasRelay
    && (LinkLaws.SecureLink(l.app) ==> n.app.relay == l.app.relay)
  }

  lemma StackHolds(l: L.State, e: L.StackEvent)
    requires L.LinkRunning(l.host) && L.CanStack(l, e) && !e.StoreBond?
    ensures KeepsLink(l, L.NextStack(l, e))
  {
  }

  lemma AdvHolds(l: L.State, e: L.AdvEvent)
    requires LinkLaws.Counts(l) && L.LinkRunning(l.host) && L.CanAdv(l, e)
    ensures KeepsLink(l, L.NextAdv(l, e))
  {
  }

  lemma WorkHolds(l: L.State, e: L.WorkEvent)
    requires LinkLaws.Counts(l) && L.LinkRunning(l.host) && L.CanWork(l, e)
    ensures KeepsLink(l, L.NextWork(l, e))
  {
  }

  lemma WriterHoldsLink(l: L.State, e: L.WriterEvent)
    requires LinkLaws.Counts(l) && L.LinkRunning(l.host) && L.CanWriter(l, e)
    ensures KeepsLink(l, L.NextWriter(l, e))
  {
  }

  lemma HeldScope(l: L.State, e: L.Event)
    requires LinkLaws.Counts(l) && L.LinkRunning(l.host) && L.CanStep(l, e) && !OnBtThread(e)
    ensures KeepsLink(l, L.Next(l, e))
  {
    match e {
      case Stack(x) => StackHolds(l, x);
      case Adv(x) => AdvHolds(l, x);
      case OnWork(x) => WorkHolds(l, x);
      case OnWriter(x) => WriterHoldsLink(l, x);
      case Tick(_) =>
    }
  }

  // --- A baud change seen from outside ------------------------------------------------------

  lemma SendInChange(b: B.State, e: B.SendEvent, rate: nat)
    requires |b.tx.buf| == B.STAGE_SIZE && B.CanSend(b, e) && !e.Put?
    requires BridgeLaws.BaudHonest(b) && ChangeTo(b, rate)
    ensures ChangeTo(B.NextSend(b, e), rate)
  {
  }

  lemma BaudInChange(b: B.State, e: B.BaudEvent, rate: nat)
    requires B.CanBaud(b, e) && !e.Call? && ChangeTo(b, rate)
    ensures ChangeTo(B.NextBaud(b, e), rate)
  {
  }

  lemma BridgeInChange(b: B.State, e: B.Event, rate: nat)
    requires BridgeLaws.Inv(b) && B.CanStep(b, e) && ChangeTo(b, rate)
    requires (e.Sender? ==> !e.send.Put?) && (e.Baud? ==> !e.baud.Call?)
    ensures ChangeTo(B.Next(b, e), rate)
  {
    match e {
      case Sender(x) => SendInChange(b, x, rate);
      case TxIsr(_) =>
      case RxIsr(_) =>
      case Retry(_) =>
      case Baud(x) => BaudInChange(b, x, rate);
    }
  }

  lemma BridgeStaysIdle(b: B.State, e: B.Event)
    requires B.CanStep(b, e) && b.pc == B.Idle
    requires (e.Sender? ==> !e.send.Put?) && (e.Baud? ==> !e.baud.Call?)
    ensures B.Next(b, e).pc == B.Idle
  {
  }

  /** Whoever holds a reference holds it on the object that is there. */
  lemma WriterHolds(l: L.State)
    requires LinkLaws.Inv(l) && l.threads.writer != L.NoRef
    ensures L.Occupant(l.host) == l.threads.writer.id && l.threads.writer.id in l.hist.encrypted
  {
  }

  // --- The writer's steps seen from outside ------------------------------------------------

  lemma UplinkScope(u: U.State, e: U.Event)
    requires U.CanStep(u, e) && !e.Decide? && !e.ClaimStep? && !e.SendStep?
    ensures var n := U.Next(u, e);
            && n.notified == u.notified
            && (OnLink(n.pc) ==> OnLink(u.pc) && (n.pc == U.Referenced <==> u.pc == U.Referenced))
  {
  }

  lemma SendScope(u: U.State, err: int)
    requires U.CanStep(u, U.SendStep(err))
    ensures var n := U.Next(u, U.SendStep(err));
            && u.notified <= n.notified && (n.pc.Sending? || n.pc == U.Checking)
            && (Slice(u.pc) == 0 ==> n.notified == u.notified)
  {
  }

  // --- Steps -----------------------------------------------------------------------------

  /** What a step of the firmware is for each part: one of its events, or none. */
  function LinkPart(s: State, e: Event): seq<L.Event>
    requires CanStep(s, e)
  {
    match e
    case OfLink(x) => [x]
    case NusArrives(data) => [L.Callback(L.OnNus(RelayOf(data)))]
    case NusDispatches => [L.Callback(L.RelayCancel)]
    case WriterDecides => [L.OnWriter(L.TakeRef)]
    case WriterClaims(_) => [L.OnWriter(L.Claim)]
    case WriterSends(_) => if Slice(s.up.pc) > 0 then [L.OnWriter(L.Send)] else []
    case _ => []
  }

  function UplinkPart(s: State, e: Event): seq<U.Event>
    requires CanStep(s, e)
  {
    match e
    case OfUplink(x) => [x]
    case WriterDecides => [U.Decide(Forwards(s))]
    case WriterClaims(mtu) => [U.ClaimStep(mtu)]
    case WriterSends(err) => [U.SendStep(err)]
    case _ => []
  }

  function BridgePart(s: State, e: Event): seq<B.Event>
    requires CanStep(s, e)
  {
    match e
    case OfBridge(x) => [x]
    case NusDispatches => if CallFor(ActionOf(s)).Some? then [CallFor(ActionOf(s)).value] else []
    case _ => []
  }

  lemma LinkFollows(s: State, e: Event)
    requires CanStep(s, e)
    ensures LinkPart(s, e) == [] ==> Next(s, e).link == s.link
    ensures LinkPart(s, e) != [] ==>
              L.CanStep(s.link, LinkPart(s, e)[0]) && Next(s, e).link == L.Next(s.link, LinkPart(s, e)[0])
  {
  }

  lemma UplinkFollows(s: State, e: Event)
    requires CanStep(s, e)
    ensures UplinkPart(s, e) == [] ==> Next(s, e).up == s.up
    ensures UplinkPart(s, e) != [] ==>
              U.CanStep(s.up, UplinkPart(s, e)[0]) && Next(s, e).up == U.Next(s.up, UplinkPart(s, e)[0])
  {
  }

  lemma BridgeFollows(s: State, e: Event)
    requires CanStep(s, e)
    ensures BridgePart(s, e) == [] ==> Next(s, e).down == s.down
    ensures BridgePart(s, e) != [] ==>
              B.CanStep(s.down, BridgePart(s, e)[0]) && Next(s, e).down == B.Next(s.down, BridgePart(s, e)[0])
  {
  }

  lemma PartsStep(s: State, e: Event)
    requires Parts(s) && CanStep(s, e)
    ensures Parts(Next(s, e))
  {
    LinkFollows(s, e);
    if LinkPart(s, e) != [] {
      LinkRuns.ReachNext(s.link, LinkPart(s, e)[0]);
    }
    UplinkFollows(s, e);
    if UplinkPart(s, e) != [] {
      UplinkRuns.ReachNext(s.up, UplinkPart(s, e)[0]);
    }
    BridgeFollows(s, e);
    if BridgePart(s, e) != [] {
      BridgeRuns.ReachNext(s.down, BridgePart(s, e)[0]);
    }
  }

  /** The writer's side. */
  lemma WriterSideStep(s: State, e: Event)
    requires LinkLaws.Inv(s.link) && WriterSide(s) && CanStep(s, e)
    ensures WriterSide(Next(s, e))
  {
    match e {
      case OfLink(x) => LinkScope(s.link, x);
      case OfUplink(x) => UplinkScope(s.up, x);
      case OfBridge(_) =>
      case NusArrives(data) => CallbackScope(s.link, L.OnNus(RelayOf(data)));
      case NusDispatches => CallbackScope(s.link, L.RelayCancel);
      case WriterDecides => WriterScope(s.link, L.TakeRef);
      case WriterClaims(mtu) => ClaimStep(s, mtu);
      case WriterSends(err) =>
        SendStep(s, err);
        SendDelivers(s, err);
      case _ =>
    }
  }

  lemma ClaimStep(s: State, mtu: u16)
    requires LinkLaws.Inv(s.link) && WriterSide(s) && CanStep(s, WriterClaims(mtu))
    ensures WriterSide(Next(s, WriterClaims(mtu)))
  {
    WriterScope(s.link, L.Claim);
    WriterHolds(s.link);
  }

  lemma SendStep(s: State, err: int)
    requires WriterOnLink(s) && CanStep(s, WriterSends(err))
    ensures WriterOnLink(Next(s, WriterSends(err)))
  {
    SendScope(s.up, err);
    if Slice(s.up.pc) > 0 {
      WriterScope(s.link, L.Send);
    }
  }

  /** The slice goes out on the link its bytes were claimed under. */
  lemma SendDelivers(s: State, err: int)
    requires LinkLaws.Inv(s.link) && WriterSide(s) && CanStep(s, WriterSends(err))
    ensures DeliveredOnOneLink(Next(s, WriterSends(err)))
  {
    SendScope(s.up, err);
    WriterHolds(s.link);
    if Slice(s.up.pc) > 0 {
      WriterScope(s.link, L.Send);
    }
  }

  /** nus_received's side. */
  lemma NusSideStep(s: State, e: Event)
    requires LinkLaws.Inv(s.link) && BridgeLaws.Inv(s.down) && NusSide(s) && CanStep(s, e)
    ensures NusSide(Next(s, e))
  {
    match e {
      case OfLink(x) => NusLink(s, x);
      case OfUplink(_) =>
      case OfBridge(x) => NusBridge(s, x);
      case NusArrives(data) => CallbackScope(s.link, L.OnNus(RelayOf(data)));
      case NusDispatches => Dispatched(s);
      case AckSends(err) => AckStep(s, err);
      case AckFails =>
      case _ => NusBystander(s, e);
    }
  }

  lemma NusBystander(s: State, e: Event)
    requires LinkLaws.Inv(s.link) && NusSide(s) && CanStep(s, e)
    requires e.WriterDecides? || e.WriterClaims? || e.WriterSends?
    ensures NusSide(Next(s, e))
  {
    match e {
      case WriterDecides => NusWriter(s, L.TakeRef);
      case WriterClaims(_) => NusWriter(s, L.Claim);
      case WriterSends(_) =>
        if Slice(s.up.pc) > 0 {
          NusWriter(s, L.Send);
        }
    }
  }

  lemma NusLink(s: State, e: L.Event)
    requires LinkLaws.Inv(s.link) && NusSide(s) && CanStep(s, OfLink(e))
    ensures NusSide(Next(s, OfLink(e)))
  {
    LinkScope(s.link, e);
    if !OnBtThread(e) && L.LinkRunning(s.link.host) {
      HeldScope(s.link, e);
    }
  }

  lemma NusBridge(s: State, e: B.Event)
    requires BridgeLaws.Inv(s.down) && NusSide(s) && CanStep(s, OfBridge(e))
    ensures NusSide(Next(s, OfBridge(e)))
  {
    if s.down.pc == B.Idle {
      BridgeStaysIdle(s.down, e);
    }
    if s.ack.Owed? && Dispatch(true, s.write).Baud? {
      BridgeInChange(s.down, e, Dispatch(true, s.write).rate);
    }
  }

  lemma NusWriter(s: State, e: L.WriterEvent)
    requires LinkLaws.Inv(s.link) && NusSide(s) && L.CanWriter(s.link, e)
    ensures NusSide(s.(link := L.NextWriter(s.link, e)))
  {
    WriterScope(s.link, e);
    if L.LinkRunning(s.link.host) {
      WriterHoldsLink(s.link, e);
    }
  }

  lemma Dispatched(s: State)
    requires LinkLaws.Inv(s.link) && NusSide(s) && CanStep(s, NusDispatches)
    ensures NusSide(Next(s, NusDispatches))
  {
    CallbackScope(s.link, L.RelayCancel);
  }

  lemma AckStep(s: State, err: int)
    requires LinkLaws.Inv(s.link) && NusSide(s) && CanStep(s, AckSends(err))
    ensures NusSide(Next(s, AckSends(err)))
  {
    assert Sound(EchoOf(s), s.link.hist.encrypted, s.link.app.hasRelay);
  }

  lemma InvStep(s: State, e: Event)
    requires Inv(s) && CanStep(s, e)
    ensures Inv(Next(s, e))
  {
    PartsStep(s, e);
    LinkRuns.ReachableInv(s.link);
    BridgeRuns.ReachableInv(s.down);
    WriterSideStep(s, e);
    NusSideStep(s, e);
  }
}
