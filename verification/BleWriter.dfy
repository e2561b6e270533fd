/** The UART_RX_RDY handler, the rx_* functions of src/uart_bridge.c and
    ble_write_thread of src/main.c on real buffers, section by section. */
module BleWriter {
  import opened Words
  import opened ProxyCore
  import opened RingBuffer
  import DropStats
  import M = UplinkModel
  import opened UplinkRuns
  import opened Sequences

  /** `bytes` are what the stream has at the positions `ps`. */
  ghost predicate Holds(stream: seq<byte>, bytes: seq<byte>, ps: seq<nat>) {
    && |bytes| == |ps|
    && forall i :: 0 <= i < |ps| ==> ps[i] < |stream| && bytes[i] == stream[ps[i]]
  }

  lemma HoldsLonger(stream: seq<byte>, more: seq<byte>, bytes: seq<byte>, ps: seq<nat>)
    requires Holds(stream, bytes, ps)
    ensures Holds(stream + more, bytes, ps)
  {
  }

  lemma HoldsArrivals(stream: seq<byte>, more: seq<byte>, bytes: seq<byte>, ps: seq<nat>, fit: nat)
    requires Holds(stream, bytes, ps) && fit <= |more|
    ensures Holds(stream + more, bytes + more[..fit], ps + M.Range(|stream|, fit))
  {
  }

  lemma HoldsParts(stream: seq<byte>, bytes: seq<byte>, ps: seq<nat>, k: nat)
    requires Holds(stream, bytes, ps) && k <= |ps|
    ensures Holds(stream, bytes[..k], ps[..k]) && Holds(stream, bytes[k..], ps[k..])
  {
  }

  lemma HoldsJoin(stream: seq<byte>, a: seq<byte>, ps: seq<nat>, b: seq<byte>, qs: seq<nat>)
    requires Holds(stream, a, ps) && Holds(stream, b, qs)
    ensures Holds(stream, a + b, ps + qs)
  {
  }

  class Writer {
    const rxRing: Ring
    const procBuf: array<byte>
    var rxDataReady: bool
    var drops: u32

    // ble_write_thread's locals.
    var chunk: seq<byte>
    var maxSend: u16
    var outLen: nat
    var sent: nat

    ghost var pc: M.Pc
    ghost var queued: seq<nat>      // the received positions in the ring
    ghost var received: seq<byte>
    ghost var fate: seq<M.Fate>
    ghost var notified: seq<nat>
    ghost var onAir: seq<byte>      // the bytes bt_nus_send accepted, in order
    ghost var wide: bool

    ghost function Snapshot(): M.State
      reads this, rxRing
    {
      M.State(queued, rxRing.head, rxDataReady, drops, pc, received, fate, notified, wide)
    }

    /** The buffers hold the bytes the positions speak of. */
    ghost predicate Valid()
      reads this, rxRing, rxRing.data, procBuf
    {
      && rxRing.Valid() && rxRing.Capacity() == RING_SIZE
      && procBuf.Length == PROC_BUF_SIZE && procBuf != rxRing.data
      && Holds(received, rxRing.contents, queued) && Holds(received, onAir, notified)
      && (pc.Claimed? ==> maxSend == pc.max && |chunk| == pc.n <= |queued| && chunk == rxRing.contents[..pc.n])
      && (pc.Hooked? ==>
            && maxSend == pc.max && |chunk| == pc.n <= |queued| && outLen == Min(pc.n, PROC_BUF_SIZE)
            && Holds(received, procBuf[..outLen], queued[..outLen]))
      && (pc.Sending? ==>
            && maxSend == pc.max && sent == pc.sent && outLen == |pc.data| <= PROC_BUF_SIZE
            && Holds(received, procBuf[..outLen], pc.data))
    }

    constructor ()
      ensures Valid() && Snapshot() == M.Start()
      ensures fresh(rxRing) && fresh(rxRing.data) && fresh(procBuf)
    {
      rxRing := new Ring(RING_SIZE);
      procBuf := new byte[PROC_BUF_SIZE];
      rxDataReady, drops, chunk, maxSend, outLen, sent := false, 0, [], 0, 0, 0;
      pc, queued, received, fate, notified, onAir, wide := M.Waiting, [], [], [], [], [], false;
    }

    /** ring_buf_put of newly received bytes. */
    method Arrive(data: seq<byte>) returns (put: nat)
      requires Valid()
      modifies this`queued, this`received, this`fate, rxRing, rxRing.data
      ensures Valid() && put == Min(|data|, RING_SIZE - |old(queued)|)
      ensures queued == old(queued) + M.Range(|old(received)|, put) && received == old(received) + data
      ensures fate == old(fate) + M.Arrivals(|data|, put) && rxRing.head == old(rxRing.head)
    {
      ghost var before := rxRing.contents;
      put := rxRing.Put(data);
      HoldsArrivals(received, data, before, queued, put);
      HoldsLonger(received, data, onAir, notified);
      if pc.Hooked? {
        HoldsLonger(received, data, procBuf[..outLen], queued[..outLen]);
        assert (queued + M.Range(|received|, put))[..outLen] == queued[..outLen];
      } else if pc.Sending? {
        HoldsLonger(received, data, procBuf[..outLen], pc.data);
      }
      queued := queued + M.Range(|received|, put);
      received := received + data;
      fate := fate + M.Arrivals(|data|, put);
    }

    /** uart_cb on UART_RX_RDY. */
    method UartRxReady(data: seq<byte>)
      requires Valid() && M.CanStep(Snapshot(), M.RxReady(data))
      modifies this`queued, this`received, this`fate, this`drops, this`rxDataReady, rxRing, rxRing.data
      ensures Valid() && Snapshot() == M.Next(old(Snapshot()), M.RxReady(data))
    {
      var put := Arrive(data);
      var dropped := DropStats.RxOverflow(|data|, put);
      if dropped > 0 {
        drops := AddU32(drops, dropped);
      }
      if put > 0 {
        rxDataReady := true;
      }
    }

    /** k_sem_give from on_disconnected and on_security_changed. */
    method Wake()
      requires Valid() && M.CanStep(Snapshot(), M.Wake)
      modifies this`rxDataReady
      ensures Valid() && Snapshot() == M.Next(old(Snapshot()), M.Wake)
    {
      rxDataReady := true;
    }

    /** k_sem_take. */
    method Take()
      requires Valid() && M.CanStep(Snapshot(), M.Take)
      modifies this`rxDataReady, this`pc
      ensures Valid() && Snapshot() == M.Next(old(Snapshot()), M.Take)
    {
      rxDataReady := false;
      pc := M.Checking;
    }

    /** The inner loop's guard. */
    method CheckEmpty() returns (more: bool)
      requires Valid() && M.CanStep(Snapshot(), M.CheckEmpty)
      modifies this`pc
      ensures Valid() && Snapshot() == M.Next(old(Snapshot()), M.CheckEmpty)
      ensures more <==> pc == M.Deciding
    {
      more := !rxRing.IsEmpty();
      pc := if more then M.Deciding else M.Reporting;
    }

    /** The decision under conn_mutex. */
    method Decide(connected: bool, linkSecure: bool)
      requires Valid() && M.CanStep(Snapshot(), M.Decide(MayForward(connected, linkSecure)))
      modifies this`pc
      ensures Valid() && Snapshot() == M.Next(old(Snapshot()), M.Decide(connected && linkSecure))
    {
      pc := if MayForward(connected, linkSecure) then M.Referenced else M.Draining;
    }

    /** One round of uart_bridge_rx_drain. */
    method DrainStep() returns (more: bool)
      requires Valid() && M.CanStep(Snapshot(), M.DrainStep)
      modifies this`pc, this`fate, this`queued, rxRing
      ensures Valid() && Snapshot() == M.Next(old(Snapshot()), M.DrainStep)
      ensures more <==> old(queued) != []
    {
      var view := rxRing.Claim(M.U32_MAX);
      more := |view| > 0;
      if !more {
        pc := M.Reporting;
        return;
      }
      HoldsParts(received, rxRing.contents, queued, |view|);
      rxRing.Finish(|view|);
      fate := M.SetFate(fate, queued[..|view|], M.Drained);
      queued := queued[|view|..];
    }

    /** The MTU is read and a chunk claimed. */
    method ClaimStep(mtu: u16)
      requires Valid() && M.CanStep(Snapshot(), M.ClaimStep(mtu))
      modifies this`wide, this`maxSend, this`chunk, this`pc
      ensures Valid() && Snapshot() == M.Next(old(Snapshot()), M.ClaimStep(mtu))
    {
      wide := wide || mtu > PROC_BUF_SIZE + ATT_HEADER_LEN;
      maxSend := NusChunkLimit(mtu);
      chunk := rxRing.Claim(maxSend);
      pc := if |chunk| == 0 then M.Reporting else M.Claimed(maxSend, |chunk|);
    }

    /** on_uart_rx on the claimed chunk, which stays in the ring. */
    method Hook()
      requires Valid() && M.CanStep(Snapshot(), M.Hook)
      modifies this`outLen, this`pc, procBuf
      ensures Valid() && Snapshot() == M.Next(old(Snapshot()), M.Hook)
    {
      outLen := CopyHook(chunk, procBuf);
      HoldsParts(received, rxRing.contents, queued, outLen);
      assert procBuf[..outLen] == rxRing.contents[..outLen];
      pc := M.Hooked(maxSend, |chunk|);
    }

    /** The claimed ring bytes are consumed; what the hook kept is now to be sent. */
    method Finish()
      requires Valid() && M.CanStep(Snapshot(), M.Finish)
      modifies this`sent, this`fate, this`pc, this`queued, rxRing
      ensures Valid() && Snapshot() == M.Next(old(Snapshot()), M.Finish)
    {
      HoldsParts(received, rxRing.contents, queued, |chunk|);
      fate := M.SetFate(M.SetFate(fate, queued[..outLen], M.InClaim), queued[outLen..|chunk|], M.Truncated);
      rxRing.Finish(|chunk|);
      pc := M.Sending(maxSend, queued[..outLen], 0);
      queued := queued[|chunk|..];
      sent := 0;
    }

    /** bt_nus_send took the slice. */
    method Notify(slice: nat) returns (went: seq<byte>)
      requires Valid() && pc.Sending? && sent + slice <= outLen && slice <= maxSend
      modifies this`notified, this`fate, this`onAir, this`sent, this`pc
      ensures Valid() && onAir == old(onAir) + went && |went| == slice
      ensures var ps := old(pc).data[old(sent)..old(sent) + slice];
              && notified == old(notified) + ps && fate == M.SetFate(old(fate), ps, M.Notified)
              && pc == M.Sending(maxSend, old(pc).data, old(sent) + slice)
    {
      went := procBuf[sent..sent + slice];
      ghost var ps := pc.data[sent..sent + slice];
      assert Holds(received, went, ps) by {
        assert forall i :: 0 <= i < slice ==> went[i] == procBuf[..outLen][sent + i];
      }
      HoldsJoin(received, onAir, notified, went, ps);
      notified := notified + ps;
      fate := M.SetFate(fate, ps, M.Notified);
      onAir := onAir + went;
      sent := sent + slice;
      pc := M.Sending(maxSend, pc.data, sent);
    }

    /** One round of send_processed: a call of bt_nus_send, or the loop's end. */
    method SendStep(err: int) returns (went: seq<byte>)
      requires Valid() && M.CanStep(Snapshot(), M.SendStep(err))
      modifies this`notified, this`fate, this`onAir, this`sent, this`pc
      ensures Valid() && Snapshot() == M.Next(old(Snapshot()), M.SendStep(err))
      ensures onAir == old(onAir) + went && |went| <= maxSend
    {
      went := [];
      var slice := NextSlice(outLen, sent, maxSend);
      if slice == 0 {
        pc := M.Checking;
        return;
      }
      match SendResult(err) {
        case Consumed =>
          went := Notify(slice);
        case Retry =>
        case Drop =>
          fate := M.SetFate(fate, pc.data[sent..], M.SendDropped);
          pc := M.Checking;
      }
    }

    /** The end of a wakeup. */
    method Report()
      requires Valid() && M.CanStep(Snapshot(), M.Report)
      modifies this`pc
      ensures Valid() && Snapshot() == M.Next(old(Snapshot()), M.Report)
    {
      pc := M.Waiting;
    }

    /** What the phone has been sent is the received stream with bytes left out. */
    lemma OnAirInOrder()
      requires Valid() && Reachable(Snapshot())
      ensures Subsequence(onAir, received)
    {
      NotifiedInOrder(Snapshot());
      assert onAir == Pick(received, notified);
    }

    /** One step of the interrupt or the thread. */
    method Step(e: M.Event)
      requires Valid() && M.CanStep(Snapshot(), e)
      modifies this, rxRing, rxRing.data, procBuf
      ensures Valid() && Snapshot() == M.Next(old(Snapshot()), e)
    {
      match e {
        case RxReady(data) => UartRxReady(data);
        case Wake => Wake();
        case Take => Take();
        case CheckEmpty => var more := CheckEmpty();
        case Decide(forward) => Decide(forward, forward);
        case DrainStep => var more := DrainStep();
        case ClaimStep(mtu) => ClaimStep(mtu);
        case Hook => Hook();
        case Finish => Finish();
        case SendStep(err) => var went := SendStep(err);
        case Report => Report();
      }
    }

    /** Along every legal schedule from boot, what is on the air is a subsequence of
        what was received. */
    method Execute(es: seq<M.Event>)
      requires Valid() && Snapshot() == M.Start() && Legal(M.Start(), es)
      modifies this, rxRing, rxRing.data, procBuf
      ensures Valid() && Snapshot() == Run(M.Start(), es)
      ensures Subsequence(onAir, received)
    {
      var i := 0;
      while i < |es|
        invariant i <= |es| && Valid() && Legal(Snapshot(), es[i..])
        invariant Run(Snapshot(), es[i..]) == Run(M.Start(), es)
      {
        assert es[i..][1..] == es[i + 1..];
        Step(es[i]);
        i := i + 1;
      }
      assert Reachable(Snapshot());
      OnAirInOrder();
    }
  }
}
