/** The three machines as one. What two of them share happens in both at once: the writer
    thread takes its reference, claims and sends on the link while it moves the bytes, and
    nus_received reads the link's gate, parses the write and calls into the UART bridge. */
module FirmwareModel {
  import opened Words
  import opened ProxyCore
  import opened RingBuffer
  import opened Downlink
  import opened SendLoops
  import L = LinkModel
  import U = UplinkModel
  import B = BridgeModel

  /** A notified byte: its position in the received stream, the link that was up when its
      chunk was claimed, and the link bt_nus_send was called on. */
  datatype Delivery = Delivery(position: nat, claimed: L.LinkId, sent: L.LinkId)

  /** What cmd_ack_send owes the phone: the packet, the link it came on, and how often
      bt_nus_send has been called for it. */
  datatype Ack = NoAck | Owed(packet: seq<byte>, link: L.LinkId, tries: nat)

  /** An echo bt_nus_send has taken: the link of its command, the link it was called on,
      and what the UART rate and the relay were at that moment. */
  datatype Echo = Echo(packet: seq<byte>, of: L.LinkId, sent: L.LinkId, rate: nat, relay: bool)

  datatype State = State(
    link: L.State,
    up: U.State,
    down: B.State,
    write: seq<byte>,           // what nus_received was last called with
    conn: L.LinkId,             // on which link
    ack: Ack,                   // the echo nus_received still has to send
    origin: L.LinkId,           // history: the link that was up at the latest claim
    deliveries: seq<Delivery>,  // history: every notified byte, in order
    echoes: seq<Echo>)          // history: every echo, in order

  datatype Event =
    | OfLink(link: L.Event)
    | OfUplink(up: U.Event)
    | OfBridge(down: B.Event)
    | NusArrives(data: seq<byte>)   // nus_received reads the gate
    | NusDispatches                 // it parses the write and acts
    | AckSends(err: int)            // one call of bt_nus_send in cmd_ack_send
    | AckFails                      // the baud change failed: no echo
    | WriterDecides                 // ble_write_thread under conn_mutex
    | WriterClaims(mtu: u16)
    | WriterSends(err: int)         // one round of send_processed

  /** Run by the Bluetooth receive thread. */
  predicate OnBtThread(e: L.Event) {
    e.Callback? || (e.Stack? && e.stack.StoreBond?)
  }

  /** nus_received has not returned: it is in the UART bridge, or has an echo to send. */
  predicate Busy(s: State) {
    s.down.pc != B.Idle || s.ack.Owed?
  }

  predicate CanLink(s: State, e: L.Event) {
    && L.CanStep(s.link, e)
    && (OnBtThread(e) ==> s.down.pc == B.Idle && (s.ack.Owed? ==> e == L.Callback(L.RelayApply)))
    && (e.Callback? ==> !e.bt.OnNus? && !e.bt.RelayCancel?)
    && (e.OnWriter? ==> e.writer == L.Unref && !OnLink(s.up.pc))
  }

  /** ble_write_thread is between its bt_conn_ref and its bt_conn_unref. */
  predicate OnLink(pc: U.Pc) {
    pc == U.Referenced || pc.Claimed? || pc.Hooked? || pc.Sending?
  }

  /** The writer goes on only after its bt_conn_unref. */
  predicate CanUplink(s: State, e: U.Event) {
    && U.CanStep(s.up, e)
    && !e.Decide? && !e.ClaimStep? && !e.SendStep?
    && (e.Take? || e.CheckEmpty? || e.DrainStep? || e.Report? ==> s.link.threads.writer == L.NoRef)
  }

  predicate CanBridge(s: State, e: B.Event) {
    && B.CanStep(s.down, e)
    && (e.Sender? ==> !e.send.Put?) && (e.Baud? ==> !e.baud.Call?)
  }

  /** What nus_received calls in the UART bridge, if anything. */
  function CallFor(a: Action): Option<B.Event> {
    match a
    case Forward(bytes) => if bytes == [] then None else Some(B.Sender(B.Put(bytes)))
    case Baud(rate) => Some(B.Baud(B.Call(rate)))
    case _ => None
  }

  predicate CanAct(b: B.State, a: Action) {
    b.pc == B.Idle && |b.tx.buf| == B.STAGE_SIZE && |b.tx.ring| <= RING_SIZE
  }

  function Act(b: B.State, a: Action): B.State
    requires CanAct(b, a)
  {
    match a
    case Forward(bytes) => if bytes == [] then b else B.NextSend(b, B.Put(bytes))
    case Baud(rate) => B.NextBaud(b, B.Call(rate))
    case _ => b
  }

  /** What the write being received means under the gate that was read. */
  function ActionOf(s: State): Action
    requires s.link.threads.bt.NusRead?
  {
    Dispatch(s.link.threads.bt.secure, s.write)
  }

  /** The echo a write is owed once its action is over. */
  function AckFor(a: Action, write: seq<byte>, link: L.LinkId): Ack {
    if a.Relay? || a.Baud? then Owed(write, link, 0) else NoAck
  }

  /** relay_set or uart_bridge_set_baud has returned. */
  predicate ActionOver(s: State) {
    s.ack.Owed? && s.link.threads.bt == L.BtIdle && s.down.pc == B.Idle
  }

  /** Only a failed baud change goes unacknowledged. */
  predicate TookEffect(s: State)
    requires s.ack.Owed?
  {
    Dispatch(true, s.ack.packet).Baud? ==> s.down.result == 0
  }

  function AfterTry(a: Ack, err: int): Ack
    requires a.Owed?
  {
    if SendResult(err) == Retry && a.tries + 1 < ACK_TRIES then a.(tries := a.tries + 1) else NoAck
  }

  function EchoOf(s: State): Echo
    requires s.ack.Owed?
  {
    Echo(s.ack.packet, s.ack.link, L.Occupant(s.link.host), s.down.rate, s.link.app.relay)
  }

  function Slice(pc: U.Pc): nat
    requires pc.Sending?
  {
    NextSlice(|pc.data|, pc.sent, pc.max)
  }

  predicate CanStep(s: State, e: Event) {
    match e
    case OfLink(x) => CanLink(s, x)
    case OfUplink(x) => CanUplink(s, x)
    case OfBridge(x) => CanBridge(s, x)
    case NusArrives(data) => L.CanCallback(s.link, L.OnNus(RelayOf(data))) && !Busy(s)
    case NusDispatches => L.CanCallback(s.link, L.RelayCancel) && !Busy(s) && CanAct(s.down, ActionOf(s))
    case AckSends(_) => ActionOver(s) && TookEffect(s)
    case AckFails => ActionOver(s) && !TookEffect(s)
    case WriterDecides => U.CanStep(s.up, U.Decide(Forwards(s))) && L.CanWriter(s.link, L.TakeRef)
    case WriterClaims(mtu) => U.CanStep(s.up, U.ClaimStep(mtu)) && L.CanWriter(s.link, L.Claim)
    case WriterSends(err) =>
      U.CanStep(s.up, U.SendStep(err)) && (Slice(s.up.pc) > 0 ==> L.CanWriter(s.link, L.Send))
  }

  predicate Forwards(s: State) {
    MayForward(s.link.app.cur.Some?, s.link.app.secure)
  }

  function Deliver(positions: seq<nat>, claimed: L.LinkId, sent: L.LinkId): (r: seq<Delivery>)
    ensures |r| == |positions|
    ensures forall i :: 0 <= i < |r| ==> r[i] == Delivery(positions[i], claimed, sent)
  {
    seq(|positions|, i requires 0 <= i < |positions| => Delivery(positions[i], claimed, sent))
  }

  function Next(s: State, e: Event): State
    requires CanStep(s, e)
  {
    match e
    case OfLink(x) => s.(link := L.Next(s.link, x))
    case OfUplink(x) => s.(up := U.Next(s.up, x))
    case OfBridge(x) => s.(down := B.Next(s.down, x))
    case NusArrives(data) =>
      s.(link := L.NextCallback(s.link, L.OnNus(RelayOf(data))), write := data, conn := L.Occupant(s.link.host))
    case NusDispatches =>
      s.(link := L.NextCallback(s.link, L.RelayCancel), down := Act(s.down, ActionOf(s)),
         ack := AckFor(ActionOf(s), s.write, s.conn))
    case AckSends(err) =>
      s.(ack := AfterTry(s.ack, err), echoes := s.echoes + if SendResult(err) == Consumed then [EchoOf(s)] else [])
    case AckFails => s.(ack := NoAck)
    case WriterDecides =>
      s.(up := U.Next(s.up, U.Decide(Forwards(s))), link := L.NextWriter(s.link, L.TakeRef))
    case WriterClaims(mtu) =>
      s.(up := U.Next(s.up, U.ClaimStep(mtu)), link := L.NextWriter(s.link, L.Claim),
         origin := L.Occupant(s.link.host))
    case WriterSends(err) =>
      var up := U.Next(s.up, U.SendStep(err));
      s.(up := up,
         link := if Slice(s.up.pc) > 0 then L.NextWriter(s.link, L.Send) else s.link,
         deliveries := s.deliveries + Deliver(up.notified[|s.up.notified|..], s.origin, L.Occupant(s.link.host)))
  }

  /** All three as main() leaves them. */
  function Boot(
    bonds: set<L.Addr>, rejected: set<L.Addr>, hasRelay: bool, buf: nat, staging: seq<byte>, rate: nat): State
    requires buf in B.SLAB && |staging| == B.STAGE_SIZE
  {
    State(L.Booted(bonds, rejected, hasRelay), U.Start(), B.AfterInit(buf, staging, rate), [], 0, NoAck, 0, [], [])
  }
}
