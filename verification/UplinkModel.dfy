/** The serial-to-phone data path: the RX ring, the wakeup semaphore and the loop of
    ble_write_thread, cut wherever the UART interrupt or another thread can come in.
    Received bytes are identified by their position in the received stream. */
module UplinkModel {
  import opened Words
  import opened ProxyCore
  import opened RingBuffer
  import DropStats

  const U32_MAX: nat := 0xFFFF_FFFF

  datatype Fate = Queued | Overflowed | Drained | InClaim | Truncated | SendDropped | Notified

  /** Where ble_write_thread is. */
  datatype Pc =
    | Waiting                                   // before k_sem_take
    | Checking                                  // before uart_bridge_rx_is_empty
    | Deciding                                  // before conn_mutex
    | Draining                                  // in uart_bridge_rx_drain
    | Referenced                                // holding a connection, before the claim
    | Claimed(max: u16, n: nat)                 // chunk claimed, before the hook
    | Hooked(max: u16, n: nat)                  // hook run, before the finish
    | Sending(max: u16, data: seq<nat>, sent: nat)   // in send_processed
    | Reporting                                 // before the drop report

  datatype State = State(
    ring: seq<nat>,          // positions queued
    head: nat,               // physical read index
    sem: bool,               // rx_data_ready
    drops: u32,              // drops_uart_rx_ring
    pc: Pc,
    received: seq<byte>,     // history: every byte UART_RX_RDY delivered
    fate: seq<Fate>,         // history: what has become of each
    notified: seq<nat>,      // history: positions notified, in order
    wide: bool)              // history: some claim was made under an MTU above 515

  datatype Event =
    | RxReady(data: seq<byte>)      // UART_RX_RDY
    | Wake                          // on_disconnected, on_security_changed
    | Take
    | CheckEmpty
    | Decide(forward: bool)
    | DrainStep
    | ClaimStep(mtu: u16)
    | Hook
    | Finish
    | SendStep(err: int)
    | Report

  function SetFate(fate: seq<Fate>, ps: seq<nat>, f: Fate): (r: seq<Fate>)
    ensures |r| == |fate|
    ensures forall i :: 0 <= i < |r| ==> r[i] == if i in ps then f else fate[i]
  {
    seq(|fate|, i requires 0 <= i < |fate| => if i in ps then f else fate[i])
  }

  /** The first `queued` of n new bytes fit. */
  function Arrivals(n: nat, queued: nat): (r: seq<Fate>)
    ensures |r| == n && forall i :: 0 <= i < n ==> r[i] == if i < queued then Queued else Overflowed
  {
    seq(n, i requires 0 <= i < n => if i < queued then Queued else Overflowed)
  }

  function Range(from: nat, n: nat): (r: seq<nat>)
    ensures |r| == n && forall i :: 0 <= i < n ==> r[i] == from + i
  {
    seq(n, i requires 0 <= i < n => from + i)
  }

  function ClaimLen(s: State, max: nat): nat
    requires s.head < RING_SIZE
  {
    Min(max, Min(|s.ring|, RING_SIZE - s.head))
  }

  /** The positions already consumed from the ring and still to be notified. */
  function Unsent(pc: Pc): seq<nat>
    requires pc.Sending? ==> pc.sent <= |pc.data|
  {
    if pc.Sending? then pc.data[pc.sent..] else []
  }

  /** Claims are followed by their finish before the next one. */
  predicate CanStep(s: State, e: Event) {
    && s.head < RING_SIZE && |s.ring| <= RING_SIZE && |s.fate| == |s.received|
    && match e
       case RxReady(data) => |data| < U32_RANGE
       case Wake => true
       case Take => s.pc == Waiting && s.sem
       case CheckEmpty => s.pc == Checking
       case Decide(_) => s.pc == Deciding
       case DrainStep => s.pc == Draining
       case ClaimStep(_) => s.pc == Referenced
       case Hook => s.pc.Claimed? && s.pc.n <= |s.ring|
       case Finish => s.pc.Hooked? && s.pc.n <= |s.ring|
       case SendStep(_) => s.pc.Sending? && s.pc.sent <= |s.pc.data|
       case Report => s.pc == Reporting
  }

  function Next(s: State, e: Event): State
    requires CanStep(s, e)
  {
    match e
    case RxReady(data) =>
      var queued := Min(|data|, RING_SIZE - |s.ring|);
      var lost := DropStats.RxOverflow(|data|, queued);
      s.(received := s.received + data,
         fate := s.fate + Arrivals(|data|, queued),
         ring := s.ring + Range(|s.received|, queued),
         drops := AddU32(s.drops, lost),
         sem := s.sem || queued > 0)
    case Wake => s.(sem := true)
    case Take => s.(sem := false, pc := Checking)
    case CheckEmpty => s.(pc := if s.ring == [] then Reporting else Deciding)
    case Decide(forward) => s.(pc := if forward then Referenced else Draining)
    case DrainStep =>
      var n := ClaimLen(s, U32_MAX);
      if n == 0 then s.(pc := Reporting)
      else s.(fate := SetFate(s.fate, s.ring[..n], Drained), ring := s.ring[n..], head := Slot(s.head, n, RING_SIZE))
    case ClaimStep(mtu) =>
      var max := NusChunkLimit(mtu);
      var n := ClaimLen(s, max);
      s.(pc := if n == 0 then Reporting else Claimed(max, n), wide := s.wide || mtu > PROC_BUF_SIZE + ATT_HEADER_LEN)
    case Hook => s.(pc := Hooked(s.pc.max, s.pc.n))
    case Finish =>
      var n, kept := s.pc.n, Min(s.pc.n, PROC_BUF_SIZE);
      s.(fate := SetFate(SetFate(s.fate, s.ring[..kept], InClaim), s.ring[kept..n], Truncated),
         ring := s.ring[n..], head := Slot(s.head, n, RING_SIZE), pc := Sending(s.pc.max, s.ring[..kept], 0))
    case SendStep(err) =>
      var Sending(max, data, sent) := s.pc;
      var slice := NextSlice(|data|, sent, max);
      if slice == 0 then s.(pc := Checking)
      else (match SendResult(err)
        case Consumed =>
          s.(fate := SetFate(s.fate, data[sent..sent + slice], Notified),
             notified := s.notified + data[sent..sent + slice], pc := Sending(max, data, sent + slice))
        case Retry => s
        case Drop => s.(fate := SetFate(s.fate, data[sent..], SendDropped), pc := Checking))
    case Report => s.(pc := Waiting)
  }

  function Start(): State {
    State([], 0, false, 0, Waiting, [], [], [], false)
  }
}
