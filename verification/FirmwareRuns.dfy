/** The promises of the firmware end to end: phone to wire and wire to phone, over every
    run of all its contexts. */
module FirmwareRuns {
  import opened Words
  import opened ProxyCore
  import opened RingBuffer
  import opened CommandLaws
  import opened Downlink
  import opened Sequences
  import opened SendLoops
  import opened FirmwareModel
  import opened FirmwareLaws
  import L = LinkModel
  import U = UplinkModel
  import B = BridgeModel
  import LinkRuns
  import UplinkRuns
  import BridgeRuns
  import UplinkLaws
  import BridgeLaws

  predicate Legal(s: State, es: seq<Event>)
    decreases |es|
  {
    es == [] || (CanStep(s, es[0]) && Legal(Next(s, es[0]), es[1..]))
  }

  function Run(s: State, es: seq<Event>): State
    requires Legal(s, es)
    decreases |es|
  {
    if es == [] then s else Run(Next(s, es[0]), es[1..])
  }

  /** main()'s parameters: what the settings hold, what the stack refuses, the board, and
      what the driver and the memory happened to be. */
  datatype Setup = Setup(
    bonds: set<L.Addr>, rejected: set<L.Addr>, hasRelay: bool, buf: nat, staging: seq<byte>, rate: nat)

  function BootOf(u: Setup): State
    requires u.buf in B.SLAB && |u.staging| == B.STAGE_SIZE
  {
    Boot(u.bonds, u.rejected, u.hasRelay, u.buf, u.staging, u.rate)
  }

  predicate BootRun(u: Setup, es: seq<Event>) {
    u.buf in B.SLAB && |u.staging| == B.STAGE_SIZE && Legal(BootOf(u), es)
  }

  lemma BootInv(u: Setup)
    requires u.buf in B.SLAB && |u.staging| == B.STAGE_SIZE
    ensures Inv(BootOf(u))
  {
    assert LinkRuns.Legal(L.Booted(u.bonds, u.rejected, u.hasRelay), []);
    assert UplinkRuns.Legal(U.Start(), []);
    assert BridgeRuns.Legal(B.AfterInit(u.buf, u.staging, u.rate), []);
    assert Parts(BootOf(u));
  }

  lemma {:induction false} RunInv(s: State, es: seq<Event>)
    requires Inv(s) && Legal(s, es)
    ensures Inv(Run(s, es))
    decreases |es|
  {
    if es != [] {
      InvStep(s, es[0]);
      RunInv(Next(s, es[0]), es[1..]);
    }
  }

  // --- The parts' own runs ------------------------------------------------------------------

  function LinkEvents(s: State, es: seq<Event>): seq<L.Event>
    requires Legal(s, es)
    decreases |es|
  {
    if es == [] then [] else LinkPart(s, es[0]) + LinkEvents(Next(s, es[0]), es[1..])
  }

  function UplinkEvents(s: State, es: seq<Event>): seq<U.Event>
    requires Legal(s, es)
    decreases |es|
  {
    if es == [] then [] else UplinkPart(s, es[0]) + UplinkEvents(Next(s, es[0]), es[1..])
  }

  function BridgeEvents(s: State, es: seq<Event>): seq<B.Event>
    requires Legal(s, es)
    decreases |es|
  {
    if es == [] then [] else BridgePart(s, es[0]) + BridgeEvents(Next(s, es[0]), es[1..])
  }

  /** Every stretch of a run of the firmware is, for each part, a stretch of a run of its
      own machine, so that whatever holds of all states and all stretches of a part's runs
      holds of the firmware. That a part has a way to some state does not carry over: a
      step that is free in the part may have to wait for another part. */
  lemma {:induction false} ProjectsLink(s: State, es: seq<Event>)
    requires Legal(s, es)
    ensures LinkRuns.Legal(s.link, LinkEvents(s, es)) && LinkRuns.Run(s.link, LinkEvents(s, es)) == Run(s, es).link
    decreases |es|
  {
    if es != [] {
      var n := Next(s, es[0]);
      ProjectsLink(n, es[1..]);
      LinkFollows(s, es[0]);
      LinkLed(s.link, n.link, LinkPart(s, es[0]), LinkEvents(n, es[1..]));
    }
  }

  lemma {:induction false} ProjectsUplink(s: State, es: seq<Event>)
    requires Legal(s, es)
    ensures UplinkRuns.Legal(s.up, UplinkEvents(s, es)) && UplinkRuns.Run(s.up, UplinkEvents(s, es)) == Run(s, es).up
    decreases |es|
  {
    if es != [] {
      var n := Next(s, es[0]);
      ProjectsUplink(n, es[1..]);
      UplinkFollows(s, es[0]);
      UplinkLed(s.up, n.up, UplinkPart(s, es[0]), UplinkEvents(n, es[1..]));
    }
  }

  lemma {:induction false} ProjectsBridge(s: State, es: seq<Event>)
    requires Legal(s, es)
    ensures BridgeRuns.Legal(s.down, BridgeEvents(s, es))
    ensures BridgeRuns.Run(s.down, BridgeEvents(s, es)) == Run(s, es).down
    decreases |es|
  {
    if es != [] {
      var n := Next(s, es[0]);
      ProjectsBridge(n, es[1..]);
      BridgeFollows(s, es[0]);
      BridgeLed(s.down, n.down, BridgePart(s, es[0]), BridgeEvents(n, es[1..]));
    }
  }

  lemma LinkLed(l: L.State, n: L.State, x: seq<L.Event>, rest: seq<L.Event>)
    requires |x| <= 1 && (x == [] ==> n == l) && (x != [] ==> L.CanStep(l, x[0]) && n == L.Next(l, x[0]))
    requires LinkRuns.Legal(n, rest)
    ensures LinkRuns.Legal(l, x + rest) && LinkRuns.Run(l, x + rest) == LinkRuns.Run(n, rest)
  {
    assert x != [] ==> (x + rest)[1..] == rest;
    assert x == [] ==> x + rest == rest;
  }

  lemma UplinkLed(u: U.State, n: U.State, x: seq<U.Event>, rest: seq<U.Event>)
    requires |x| <= 1 && (x == [] ==> n == u) && (x != [] ==> U.CanStep(u, x[0]) && n == U.Next(u, x[0]))
    requires UplinkRuns.Legal(n, rest)
    ensures UplinkRuns.Legal(u, x + rest) && UplinkRuns.Run(u, x + rest) == UplinkRuns.Run(n, rest)
  {
    assert x != [] ==> (x + rest)[1..] == rest;
    assert x == [] ==> x + rest == rest;
  }

  lemma BridgeLed(b: B.State, n: B.State, x: seq<B.Event>, rest: seq<B.Event>)
    requires |x| <= 1 && (x == [] ==> n == b) && (x != [] ==> B.CanStep(b, x[0]) && n == B.Next(b, x[0]))
    requires BridgeRuns.Legal(n, rest)
    ensures BridgeRuns.Legal(b, x + rest) && BridgeRuns.Run(b, x + rest) == BridgeRuns.Run(n, rest)
  {
    assert x != [] ==> (x + rest)[1..] == rest;
    assert x == [] ==> x + rest == rest;
  }

  /** In particular the parts of the running firmware are in states their own runs reach. */
  lemma PartsAreReachable(u: Setup, es: seq<Event>)
    requires BootRun(u, es)
    ensures Parts(Run(BootOf(u), es))
  {
    BootInv(u);
    RunInv(BootOf(u), es);
  }

  // --- Serial to phone --------------------------------------------------------------------

  /** Bytes never cross links: every byte the phone has been sent is a received byte, was
      claimed and sent on one and the same link, and that link had been encrypted; the
      bytes went out in the order they were received. */
  lemma BytesNeverCrossLinks(u: Setup, es: seq<Event>)
    requires BootRun(u, es)
    ensures var s := Run(BootOf(u), es);
            && |s.deliveries| == |s.up.notified|
            && (forall i :: 0 <= i < |s.deliveries| ==>
                  && s.deliveries[i].position < |s.up.received|
                  && s.deliveries[i].claimed == s.deliveries[i].sent
                  && s.deliveries[i].sent in s.link.hist.encrypted)
            && (forall i, j :: 0 <= i < j < |s.deliveries| ==> s.deliveries[i].position < s.deliveries[j].position)
  {
    BootInv(u);
    RunInv(BootOf(u), es);
    InOrder(Run(BootOf(u), es));
  }

  lemma InOrder(s: State)
    requires Inv(s)
    ensures |s.deliveries| == |s.up.notified|
    ensures forall i :: 0 <= i < |s.deliveries| ==> s.deliveries[i].position < |s.up.received|
    ensures forall i, j :: 0 <= i < j < |s.deliveries| ==> s.deliveries[i].position < s.deliveries[j].position
  {
    UplinkRuns.ReachableInv(s.up);
    assert UplinkLaws.Increasing(s.up.notified) && UplinkLaws.Below(s.up.notified, |s.up.received|);
  }

  /** The bytes this step puts on the air, with the link of their claim and the link
      bt_nus_send is called on. */
  function DeliverNow(s: State, e: Event, claimed: L.LinkId): seq<Delivery>
    requires CanStep(s, e)
  {
    if e.WriterSends? && e.err == 0
    then Deliver(U.Unsent(s.up.pc)[..Min(|U.Unsent(s.up.pc)|, s.up.pc.max)], claimed, L.Occupant(s.link.host))
    else []
  }

  function ClaimNow(s: State, e: Event, claimed: L.LinkId): L.LinkId {
    if e.WriterClaims? then L.Occupant(s.link.host) else claimed
  }

  function DeliveredIn(s: State, es: seq<Event>, claimed: L.LinkId): seq<Delivery>
    requires Legal(s, es)
    decreases |es|
  {
    if es == [] then []
    else DeliverNow(s, es[0], claimed) + DeliveredIn(Next(s, es[0]), es[1..], ClaimNow(s, es[0], claimed))
  }

  lemma DeliverStep(s: State, e: Event)
    requires Inv(s) && CanStep(s, e)
    ensures Next(s, e).origin == ClaimNow(s, e, s.origin)
    ensures Next(s, e).deliveries == s.deliveries + DeliverNow(s, e, s.origin)
  {
    if e.WriterSends? {
      UplinkRuns.ReachableInv(s.up);
      UplinkRuns.SendTakes(s.up, e.err);
      var now := U.Next(s.up, U.SendStep(e.err)).notified;
      var unsent := U.Unsent(s.up.pc);
      assert now[|s.up.notified|..] == if e.err == 0 then unsent[..Min(|unsent|, s.up.pc.max)] else [];
    }
  }

  /** The deliveries are what the run's claims and accepted sends make them. */
  lemma {:induction false} DeliveriesAreTold(s: State, es: seq<Event>)
    requires Inv(s) && Legal(s, es)
    ensures Run(s, es).deliveries == s.deliveries + DeliveredIn(s, es, s.origin)
    decreases |es|
  {
    if es != [] {
      var n := Next(s, es[0]);
      DeliverStep(s, es[0]);
      InvStep(s, es[0]);
      DeliveriesAreTold(n, es[1..]);
      Regrouped(s.deliveries, DeliverNow(s, es[0], s.origin), DeliveredIn(n, es[1..], n.origin));
    }
  }

  // --- Phone to serial ----------------------------------------------------------------------

  /** The write nus_received acts on in this step, with the link and the room in the TX
      ring that it meets; whether it is secure is asked of the link, not of the gate. */
  function Acted(s: State, e: Event): seq<Write>
    requires CanStep(s, e)
  {
    if !e.NusDispatches? then []
    else
      var room := if |s.down.tx.ring| < 2048 then 2048 - |s.down.tx.ring| else 0;
      [Write(s.link.app.cur, Encrypted(s.link), s.write, room)]
  }

  /** The link that is up has encrypted. */
  predicate Encrypted(l: L.State) {
    l.app.cur.Some? && l.app.cur.value in l.hist.encrypted
  }

  /** The gate nus_received read is what the link is. */
  lemma GateIsLink(s: State)
    requires Inv(s) && CanStep(s, NusDispatches)
    ensures s.link.threads.bt.secure <==> Encrypted(s.link)
  {
    LinkRuns.EncryptionGate(s.link);
  }

  /** All the writes of a run. */
  function Writes(s: State, es: seq<Event>): seq<Write>
    requires Legal(s, es)
    decreases |es|
  {
    if es == [] then [] else Acted(s, es[0]) + Writes(Next(s, es[0]), es[1..])
  }

  /** The rate of the call in progress, until it is configured or given up. */
  function Pending(b: B.State): seq<nat> {
    if b.pc in {B.BaudCancelled, B.BaudOwned, B.BaudAborted, B.BaudArmed, B.BaudWaiting, B.BaudQuiet, B.BaudConfig}
    then [b.target] else []
  }

  function Packets(echoes: seq<Echo>): seq<seq<byte>> {
    seq(|echoes|, i requires 0 <= i < |echoes| => echoes[i].packet)
  }

  function Owing(a: Ack): seq<seq<byte>> {
    if a.Owed? then [a.packet] else []
  }

  /** The UART side and the echoes have what the writes so far have given it. */
  predicate FedBy(s: State, ws: seq<Write>) {
    && s.down.tx.accepted == Entered(ws)
    && Subsequence(s.down.applied + Pending(s.down), Rates(ws))
    && Subsequence(Packets(s.echoes) + Owing(s.ack), Commands(ws))
    && OnEncrypted(ws, s.link.hist.encrypted)
  }

  predicate OnEncrypted(ws: seq<Write>, encrypted: set<L.LinkId>) {
    forall i :: 0 <= i < |ws| && ws[i].secure ==> ws[i].link.Some? && ws[i].link.value in encrypted
  }

  lemma SendScope(b: B.State, e: B.SendEvent)
    requires |b.tx.buf| == B.STAGE_SIZE && B.CanSend(b, e)
    ensures var n := B.NextSend(b, e);
            && n.applied == b.applied && Pending(b) == [] && Pending(n) == []
            && (!e.Put? ==> n.tx.accepted == b.tx.accepted)
  {
  }

  lemma TxIsrScope(b: B.Tx, reconfiguring: bool, e: B.TxIsrEvent)
    requires |b.buf| == B.STAGE_SIZE && B.CanTxIsr(b, e)
    ensures B.NextTxIsr(b, reconfiguring, e).accepted == b.accepted
  {
  }

  lemma BaudScope(b: B.State, e: B.BaudEvent, rates: seq<nat>)
    requires B.CanBaud(b, e) && !e.Call? && Subsequence(b.applied + Pending(b), rates)
    ensures var n := B.NextBaud(b, e);
            n.tx.accepted == b.tx.accepted && Subsequence(n.applied + Pending(n), rates)
  {
    Front(b.applied, Pending(b), rates);
    var n := B.NextBaud(b, e);
    assert n.applied + Pending(n) == b.applied + Pending(b) || n.applied + Pending(n) == b.applied;
  }

  lemma BridgeScope(b: B.State, e: B.Event, rates: seq<nat>)
    requires B.CanStep(b, e) && Subsequence(b.applied + Pending(b), rates)
    requires (e.Sender? ==> !e.send.Put?) && (e.Baud? ==> !e.baud.Call?)
    ensures var n := B.Next(b, e);
            n.tx.accepted == b.tx.accepted && Subsequence(n.applied + Pending(n), rates)
  {
    match e {
      case Sender(x) => SendScope(b, x);
      case TxIsr(x) => TxIsrScope(b.tx, b.reconfiguring, x);
      case RxIsr(_) =>
      case Retry(_) =>
      case Baud(x) => BaudScope(b, x, rates);
    }
  }

  lemma CallScope(b: B.State, rate: nat, rates: seq<nat>)
    requires b.pc == B.Idle && Subsequence(b.applied + Pending(b), rates)
    ensures var n := B.NextBaud(b, B.Call(rate));
            n.tx.accepted == b.tx.accepted && Subsequence(n.applied + Pending(n), rates + [rate])
  {
    assert b.applied + Pending(b) == b.applied;
    Whole([rate]);
    Joined(b.applied, rates, [rate], [rate]);
  }

  lemma PutScope(b: B.State, data: seq<byte>)
    requires |b.tx.buf| == B.STAGE_SIZE && B.CanSend(b, B.Put(data))
    ensures var n := B.NextSend(b, B.Put(data));
            && n.tx.accepted == b.tx.accepted + data[..Min(|data|, RING_SIZE - |b.tx.ring|)]
            && n.applied + Pending(n) == b.applied + Pending(b)
  {
  }

  /** The bridge's side of one write. */
  lemma ActScope(b: B.State, w: Write, rates: seq<nat>)
    requires |b.tx.ring| <= RING_SIZE && |b.tx.buf| == B.STAGE_SIZE && w.room == RING_SIZE - |b.tx.ring|
    requires CanAct(b, Dispatch(w.secure, w.data)) && Subsequence(b.applied + Pending(b), rates)
    ensures var n := Act(b, Dispatch(w.secure, w.data));
            && n.tx.accepted == b.tx.accepted + Accepted(w)
            && Subsequence(n.applied + Pending(n), rates + Asked(w))
  {
    assert rates + [] == rates && b.tx.accepted + [] == b.tx.accepted;
    DispatchMeaning(w.data);
    match Dispatch(w.secure, w.data) {
      case Forward(bytes) =>
        assert Accepted(w) == bytes[..Min(|bytes|, w.room)] && Asked(w) == [];
        if bytes != [] {
          PutScope(b, bytes);
        }
      case Baud(rate) =>
        assert Accepted(w) == [] && Asked(w) == [rate];
        CallScope(b, rate, rates);
      case _ =>
    }
  }

  /** nus_received acts: the TX ring takes what Accepted says, the rate asked for is on
      its way, and an open gate means an encrypted link. */
  lemma DispatchFeeds(s: State, ws: seq<Write>)
    requires Inv(s) && CanStep(s, NusDispatches) && FedBy(s, ws)
    ensures FedBy(Next(s, NusDispatches), ws + Acted(s, NusDispatches))
  {
    BridgeRuns.ReachableInv(s.down);
    var w := Acted(s, NusDispatches)[0];
    GateIsLink(s);
    ActScope(s.down, w, Rates(ws));
    OweScope(s, w, Commands(ws));
    OneMore(ws, w);
    ActedEncrypted(s, ws);
  }

  lemma ActedEncrypted(s: State, ws: seq<Write>)
    requires CanStep(s, NusDispatches) && OnEncrypted(ws, s.link.hist.encrypted)
    ensures OnEncrypted(ws + Acted(s, NusDispatches), Next(s, NusDispatches).link.hist.encrypted)
  {
    CallbackScope(s.link, L.RelayCancel);
  }

  /** At most one echo is owed for a command, after those for the commands before it. */
  lemma OweScope(s: State, w: Write, commands: seq<seq<byte>>)
    requires CanStep(s, NusDispatches) && Acted(s, NusDispatches) == [w]
    requires s.link.threads.bt.secure == w.secure
    requires Subsequence(Packets(s.echoes) + Owing(s.ack), commands)
    ensures Subsequence(Packets(s.echoes) + Owing(Next(s, NusDispatches).ack), commands + Commanded(w))
  {
    assert Packets(s.echoes) + Owing(s.ack) == Packets(s.echoes);
    DispatchMeaning(w.data);
    assert Owing(Next(s, NusDispatches).ack) == Commanded(w);
    Whole(Commanded(w));
    Joined(Packets(s.echoes), commands, Commanded(w), Commanded(w));
  }

  lemma AckScope(s: State, err: int, commands: seq<seq<byte>>)
    requires CanStep(s, AckSends(err)) && Subsequence(Packets(s.echoes) + Owing(s.ack), commands)
    ensures var n := Next(s, AckSends(err)); Subsequence(Packets(n.echoes) + Owing(n.ack), commands)
  {
    var n := Next(s, AckSends(err));
    if SendResult(err) == Consumed {
      assert Packets(n.echoes) + Owing(n.ack) == Packets(s.echoes) + Owing(s.ack);
    } else {
      assert n.echoes == s.echoes;
      Front(Packets(s.echoes), Owing(s.ack), commands);
      assert n.ack == NoAck ==> Packets(n.echoes) + Owing(n.ack) == Packets(s.echoes);
      assert n.ack.Owed? ==> Owing(n.ack) == Owing(s.ack);
    }
  }

  lemma AckFailScope(s: State, commands: seq<seq<byte>>)
    requires Subsequence(Packets(s.echoes) + Owing(s.ack), commands)
    ensures Subsequence(Packets(s.echoes) + [], commands)
  {
    Front(Packets(s.echoes), Owing(s.ack), commands);
    assert Packets(s.echoes) + [] == Packets(s.echoes);
  }

  lemma StepFeeds(s: State, e: Event, ws: seq<Write>)
    requires Inv(s) && CanStep(s, e) && FedBy(s, ws)
    ensures FedBy(Next(s, e), ws + Acted(s, e))
  {
    assert !e.NusDispatches? ==> ws + Acted(s, e) == ws;
    match e {
      case OfLink(x) => LinkScope(s.link, x);
      case OfUplink(_) =>
      case OfBridge(x) => BridgeScope(s.down, x, Rates(ws));
      case NusArrives(data) => CallbackScope(s.link, L.OnNus(RelayOf(data)));
      case NusDispatches => DispatchFeeds(s, ws);
      case AckSends(err) => AckScope(s, err, Commands(ws));
      case AckFails => AckFailScope(s, Commands(ws));
      case WriterDecides => WriterScope(s.link, L.TakeRef);
      case WriterClaims(_) => WriterScope(s.link, L.Claim);
      case WriterSends(_) =>
        if Slice(s.up.pc) > 0 {
          WriterScope(s.link, L.Send);
        }
    }
  }

  lemma {:induction false} RunFeeds(s: State, es: seq<Event>, ws: seq<Write>)
    requires Inv(s) && Legal(s, es) && FedBy(s, ws)
    ensures FedBy(Run(s, es), ws + Writes(s, es))
    decreases |es|
  {
    if es == [] {
      assert ws + Writes(s, es) == ws;
    } else {
      StepFeeds(s, es[0], ws);
      InvStep(s, es[0]);
      RunFeeds(Next(s, es[0]), es[1..], ws + Acted(s, es[0]));
      Regrouped(ws, Acted(s, es[0]), Writes(Next(s, es[0]), es[1..]));
    }
  }

  lemma {:induction false} WireIsSettled(ps: seq<B.Piece>)
    ensures Subsequence(BridgeLaws.WireBytes(ps), BridgeLaws.Bytes(ps))
  {
    if ps != [] {
      var k := |ps| - 1;
      WireIsSettled(ps[..k]);
      Whole(ps[k].bytes);
      Joined(BridgeLaws.WireBytes(ps[..k]), BridgeLaws.Bytes(ps[..k]),
             if ps[k].OnWire? then ps[k].bytes else [], ps[k].bytes);
    }
  }

  /** Phone to wire, over every run, with kicks, transmit interrupts, aborts and baud
      changes anywhere between the writes: the TX ring has accepted exactly what had
      room of the unframed writes on encrypted links, in order; no framed packet and no
      write under a closed gate left a byte in it; and what went out on the wire is the
      payload of those writes with bytes left out. */
  lemma OnlyDataEnters(u: Setup, es: seq<Event>)
    requires BootRun(u, es)
    ensures var s := Run(BootOf(u), es); var ws := Writes(BootOf(u), es);
            && s.down.tx.accepted == Fitting(DataWrites(ws))
            && Subsequence(BridgeLaws.WireBytes(s.down.tx.settled), Payloads(DataWrites(ws)))
            && (forall i :: 0 <= i < |ws| && ws[i].secure ==>
                  ws[i].link.Some? && ws[i].link.value in s.link.hist.encrypted)
  {
    BootInv(u);
    RunInv(BootOf(u), es);
    RunFeeds(BootOf(u), es, []);
    var s, ws := Run(BootOf(u), es), Writes(BootOf(u), es);
    assert [] + ws == ws;
    EnteredFits(ws);
    OnWire(s, ws);
  }

  lemma OnWire(s: State, ws: seq<Write>)
    requires Inv(s) && s.down.tx.accepted == Entered(ws)
    ensures Subsequence(BridgeLaws.WireBytes(s.down.tx.settled), Payloads(DataWrites(ws)))
  {
    BridgeRuns.TxConservation(s.down);
    WireIsAccepted(s.down.tx);
    EnteredIsPayload(ws);
    Transitive(BridgeLaws.WireBytes(s.down.tx.settled), Entered(ws), Payloads(DataWrites(ws)));
  }

  lemma WireIsAccepted(t: B.Tx)
    requires BridgeLaws.TxConserved(t)
    ensures Subsequence(BridgeLaws.WireBytes(t.settled), t.accepted)
  {
    var bytes, rest := BridgeLaws.Bytes(t.settled), BridgeLaws.InFlight(t) + t.ring;
    WireIsSettled(t.settled);
    Longer(BridgeLaws.WireBytes(t.settled), bytes, rest);
    Regrouped(bytes, BridgeLaws.InFlight(t), t.ring);
  }

  /** The rates that went live are, in order, among those that framed packets on encrypted
      links asked for, and each of them is a supported one. */
  lemma RatesAreCommanded(u: Setup, es: seq<Event>)
    requires BootRun(u, es)
    ensures var s := Run(BootOf(u), es); var ws := Writes(BootOf(u), es);
            && Subsequence(s.down.applied, Rates(ws))
            && forall i :: 0 <= i < |Rates(ws)| ==> Rates(ws)[i] in RATES
  {
    BootInv(u);
    RunFeeds(BootOf(u), es, []);
    var s, ws := Run(BootOf(u), es), Writes(BootOf(u), es);
    assert [] + ws == ws;
    Front(s.down.applied, Pending(s.down), Rates(ws));
    RatesSupported(ws);
  }

  /** The echo of a relay packet tells what the relay is, that of a rate packet spells the
      rate that is live. */
  predicate Honest(e: Echo, encrypted: set<L.LinkId>, hasRelay: bool) {
    && e.of == e.sent && e.sent in encrypted
    && (IsRelay(e.packet, true) || IsRelay(e.packet, false) || IsBaud(e.packet, e.rate))
    && (IsRelay(e.packet, true) && hasRelay ==> e.relay)
    && (IsRelay(e.packet, false) && hasRelay ==> !e.relay)
  }

  /** Echoes mean what they say: each went out on the link of its command, which had been
      encrypted, after the command had taken effect, with the commanded rate live and the
      relay, on a board that has one, as commanded; and no command is echoed twice or out
      of order. */
  lemma AcksAreHonest(u: Setup, es: seq<Event>)
    requires BootRun(u, es)
    ensures var s := Run(BootOf(u), es);
            && Subsequence(Packets(s.echoes), Commands(Writes(BootOf(u), es)))
            && forall i :: 0 <= i < |s.echoes| ==> Honest(s.echoes[i], s.link.hist.encrypted, s.link.app.hasRelay)
  {
    BootInv(u);
    RunInv(BootOf(u), es);
    RunFeeds(BootOf(u), es, []);
    var s, ws := Run(BootOf(u), es), Writes(BootOf(u), es);
    assert [] + ws == ws;
    Front(Packets(s.echoes), Owing(s.ack), Commands(ws));
    EchoesHonest(s);
  }

  lemma EchoesHonest(s: State)
    requires Echoed(s)
    ensures forall i :: 0 <= i < |s.echoes| ==> Honest(s.echoes[i], s.link.hist.encrypted, s.link.app.hasRelay)
  {
    forall i | 0 <= i < |s.echoes|
      ensures Honest(s.echoes[i], s.link.hist.encrypted, s.link.app.hasRelay)
    {
      EchoHonest(s.echoes[i], s.link.hist.encrypted, s.link.app.hasRelay);
    }
  }

  lemma EchoHonest(e: Echo, encrypted: set<L.LinkId>, hasRelay: bool)
    requires Sound(e, encrypted, hasRelay)
    ensures Honest(e, encrypted, hasRelay)
  {
    DispatchMeaning(e.packet);
    if Dispatch(true, e.packet).Baud? {
      RateSpelled(e.packet, e.rate);
    }
  }

  lemma {:induction false} RatesSupported(ws: seq<Write>)
    ensures forall i :: 0 <= i < |Rates(ws)| ==> Rates(ws)[i] in RATES
  {
    if ws != [] {
      RatesSupported(ws[..|ws| - 1]);
    }
  }

  /** The relay is only ever turned on by a framed ENABLE packet on an encrypted link. */
  lemma RelayByPacket(u: Setup, es: seq<Event>, e: Event)
    requires BootRun(u, es) && CanStep(Run(BootOf(u), es), e)
    ensures var s := Run(BootOf(u), es);
            !s.link.app.relay && Next(s, e).link.app.relay ==>
              && IsRelay(s.write, true)
              && s.link.app.cur.Some? && s.link.app.cur.value in s.link.hist.encrypted
  {
    BootInv(u);
    RunInv(BootOf(u), es);
    var s := Run(BootOf(u), es);
    if !s.link.app.relay && Next(s, e).link.app.relay {
      TurnsOn(s, e);
    }
  }

  lemma TurnsOn(s: State, e: Event)
    requires Inv(s) && CanStep(s, e) && !s.link.app.relay && Next(s, e).link.app.relay
    ensures IsRelay(s.write, true)
    ensures s.link.app.cur.Some? && s.link.app.cur.value in s.link.hist.encrypted
  {
    match e {
      case OfLink(x) => LinkRuns.RelayChanges(s.link, x);
      case NusArrives(data) => LinkRuns.RelayChanges(s.link, L.Callback(L.OnNus(RelayOf(data))));
      case NusDispatches => LinkRuns.RelayChanges(s.link, L.Callback(L.RelayCancel));
      case WriterDecides => WriterScope(s.link, L.TakeRef);
      case WriterClaims(_) => WriterScope(s.link, L.Claim);
      case WriterSends(_) => WriterScope(s.link, L.Send);
    }
    ParsedMeaning(s.write);
    LinkRuns.EncryptionGate(s.link);
  }
}
