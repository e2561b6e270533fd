/** src/main.c and src/uart_bridge.c together, on the real objects. */
module Firmware {
  import opened Words
  import opened ProxyCore
  import opened CommandLaws
  import opened SendLoops
  import opened Downlink
  import opened Sequences
  import opened LinkManager
  import opened BleWriter
  import opened UartBridge
  import LinkScheduler
  import BridgeScheduler
  import L = LinkModel
  import U = UplinkModel
  import B = BridgeModel
  import BridgeLaws
  import BridgeRuns
  import M = FirmwareModel
  import Laws = FirmwareLaws
  import Runs = FirmwareRuns

  /** uart_bridge_init when nothing in it fails. */
  method StartBridge(buf: nat, bootRate: nat) returns (bridge: Bridge)
    requires buf in B.SLAB
    ensures bridge.Valid() && bridge.deviceSet
    ensures bridge.Snapshot() == B.AfterInit(buf, bridge.tx.buf[..], bootRate)
    ensures fresh(bridge) && fresh(bridge.tx) && fresh(bridge.tx.ring) && fresh(bridge.tx.ring.data)
    ensures fresh(bridge.tx.buf) && fresh(bridge.rx)
  {
    bridge := new Bridge(bootRate);
    var err := bridge.Init(true, 0, buf, 0);
  }

  /** One call of nus_received: its arguments and the echo it owes. */
  class NusCall {
    var write: seq<byte>
    var conn: L.LinkId
    var ack: M.Ack

    constructor ()
      ensures write == [] && conn == 0 && ack == M.NoAck
    {
      write, conn, ack := [], 0, M.NoAck;
    }
  }

  class Device {
    const link: Link
    const writer: Writer
    const bridge: Bridge

    // nus_received's arguments, locals and static buffer.
    const nus: NusCall
    const cmd: ProxyCmd
    const procBuf: array<byte>

    ghost var origin: L.LinkId
    ghost var deliveries: seq<M.Delivery>
    ghost var echoes: seq<M.Echo>

    ghost function Snapshot(): M.State
      reads this, nus, link, link.host, link.timers, writer, writer.rxRing
      reads bridge, bridge.tx, bridge.tx.ring, bridge.tx.buf, bridge.rx
    {
      M.State(link.Snapshot(), writer.Snapshot(), bridge.Snapshot(), nus.write, nus.conn, nus.ack,
              origin, deliveries, echoes)
    }

    ghost predicate Valid()
      reads this, writer, writer.rxRing, writer.rxRing.data, writer.procBuf
      reads bridge, bridge.tx.ring, bridge.tx.ring.data, cmd
    {
      && writer.Valid() && bridge.Valid() && bridge.deviceSet
      && procBuf.Length == PROC_BUF_SIZE && cmd.ack.Length == CMD_LEN && Apart()
    }

    /** No two of the buffers are one. */
    ghost predicate Apart()
      reads this, cmd
    {
      && bridge.tx.ring != writer.rxRing
      && procBuf != cmd.ack
      && {writer.rxRing.data, writer.procBuf} !! {bridge.tx.ring.data, bridge.tx.buf}
      && {procBuf, cmd.ack} !! {writer.rxRing.data, writer.procBuf, bridge.tx.ring.data, bridge.tx.buf}
    }

    /** Everything the device may change. */
    ghost function Footprint(): set<object>
      reads this, link, writer, bridge, bridge.tx, cmd
    {
      {this, nus, link, link.host, link.timers, cmd, cmd.ack, procBuf,
       writer, writer.rxRing, writer.rxRing.data, writer.procBuf,
       bridge, bridge.tx, bridge.tx.ring, bridge.tx.ring.data, bridge.tx.buf, bridge.rx}
    }

    constructor (l: Link, w: Writer, b: Bridge)
      requires w.Valid() && b.Valid() && b.deviceSet && b.tx.ring != w.rxRing
      requires {w.rxRing.data, w.procBuf} !! {b.tx.ring.data, b.tx.buf}
      ensures Valid() && link == l && writer == w && bridge == b
      ensures fresh(nus) && fresh(cmd) && fresh(cmd.ack) && fresh(procBuf)
      ensures nus.write == [] && nus.conn == 0 && nus.ack == M.NoAck && origin == 0 && deliveries == [] && echoes == []
    {
      link, writer, bridge := l, w, b;
      cmd := new ProxyCmd();
      procBuf := new byte[PROC_BUF_SIZE];
      nus := new NusCall();
      origin, deliveries, echoes := 0, [], [];
    }

    // --- nus_received ---------------------------------------------------------------------

    /** The gate is read. */
    method NusArrives(data: seq<byte>)
      requires Valid() && L.CanCallback(link.Snapshot(), L.OnNus(RelayOf(data)))
      modifies nus, link
      ensures Valid() && Snapshot() == old(Snapshot()).(
        write := data, conn := old(L.Occupant(link.host.Value())),
        link := L.NextCallback(old(link.Snapshot()), L.OnNus(RelayOf(data))))
    {
      nus.write := data;
      nus.conn := if link.host.obj.Conn? then link.host.obj.id else link.host.nextId;
      link.NusReceived(RelayOf(data));
    }

    /** The packet a command is to be echoed as. */
    ghost function Echoed(a: Action): seq<byte>
      reads this, nus
    {
      if a.Relay? || a.Baud? then nus.write else []
    }

    /** proxy_cmd_parse, and what the kind it returns means for the UART. */
    method ParseWrite() returns (kind: CmdKind)
      requires Valid()
      modifies cmd, cmd.ack
      ensures Valid() && cmd.Valid() && cmd.ack[..cmd.ackLen] == Echoed(Dispatch(true, nus.write))
      ensures kind == NotCommand ==>
                Dispatch(true, nus.write) == Downlink.Forward(nus.write[..Min(|nus.write|, PROC_BUF_SIZE)])
      ensures kind == SetBaud ==> Dispatch(true, nus.write) == Baud(cmd.baud) && RateOf(nus.write) == Some(cmd.baud)
      ensures kind != NotCommand && kind != SetBaud ==> M.CallFor(Dispatch(true, nus.write)) == None
    {
      var data := nus.write;
      var input := new byte[|data|](i requires 0 <= i < |data| => data[i]);
      assert input[..] == data;
      kind := cmd.Parse(input);
      assert cmd.Value() == Classify(nus.write);
      ParsedMeaning(nus.write);
    }

    /** A data write goes through the hook into the UART. */
    method Forward()
      requires Valid() && M.CanAct(bridge.Snapshot(), Downlink.Forward(nus.write[..Min(|nus.write|, PROC_BUF_SIZE)]))
      modifies procBuf, bridge, bridge.tx, bridge.tx.ring, bridge.tx.ring.data
      ensures Valid() && bridge.Snapshot() ==
                         M.Act(old(bridge.Snapshot()), Downlink.Forward(nus.write[..Min(|nus.write|, PROC_BUF_SIZE)]))
    {
      var outLen := CopyHook(nus.write, procBuf);
      assert procBuf[..outLen] == nus.write[..outLen];
      if outLen > 0 {
        bridge.Send(procBuf[..outLen]);
      }
    }

    /** A supported rate goes to uart_bridge_set_baud. */
    method ChangeBaud(rate: u32)
      requires Valid() && M.CanAct(bridge.Snapshot(), Baud(rate))
      modifies bridge, bridge.rx
      ensures Valid() && bridge.Snapshot() == M.Act(old(bridge.Snapshot()), Baud(rate))
    {
      var err := bridge.SetBaud(rate);
    }

    /** What an encrypted write asks of the UART bridge; the packet of a command is
        handed back, to be echoed once the action is over. */
    method Act() returns (packet: seq<byte>)
      requires Valid() && M.CanAct(bridge.Snapshot(), Dispatch(true, nus.write))
      modifies cmd, cmd.ack, procBuf
      modifies bridge, bridge.tx, bridge.tx.ring, bridge.tx.ring.data, bridge.rx
      ensures Valid() && packet == Echoed(Dispatch(true, nus.write))
      ensures bridge.Snapshot() == M.Act(old(bridge.Snapshot()), Dispatch(true, nus.write))
    {
      var kind := ParseWrite();
      packet := cmd.ack[..cmd.ackLen];
      if kind == NotCommand {
        Forward();
      } else if kind == SetBaud {
        ChangeBaud(cmd.baud);
      }
    }

    /** The write is acted on if the gate was open. */
    method ActIf(secure: bool)
      requires Valid() && M.CanAct(bridge.Snapshot(), Dispatch(secure, nus.write))
      modifies nus`ack, cmd, cmd.ack, procBuf
      modifies bridge, bridge.tx, bridge.tx.ring, bridge.tx.ring.data, bridge.rx
      ensures Valid() && nus.ack == M.AckFor(Dispatch(secure, nus.write), nus.write, nus.conn)
      ensures bridge.Snapshot() == M.Act(old(bridge.Snapshot()), Dispatch(secure, nus.write))
    {
      var packet := [];
      if secure {
        ParsedMeaning(nus.write);
        packet := Act();
      }
      nus.ack := if packet == [] then M.NoAck else M.Owed(packet, nus.conn, 0);
    }

    /** The action, and relay_set if the write is a relay command. */
    method NusDispatches()
      requires Valid() && L.CanCallback(link.Snapshot(), L.RelayCancel)
      requires M.CanAct(bridge.Snapshot(), Dispatch(link.bt.secure, nus.write))
      modifies nus`ack, link, link.timers, cmd, cmd.ack, procBuf
      modifies bridge, bridge.tx, bridge.tx.ring, bridge.tx.ring.data, bridge.rx
      ensures Valid() && Snapshot() == old(Snapshot()).(
        ack := M.AckFor(Dispatch(old(link.bt).secure, nus.write), nus.write, nus.conn),
        link := L.NextCallback(old(link.Snapshot()), L.RelayCancel),
        down := M.Act(old(bridge.Snapshot()), Dispatch(old(link.bt).secure, nus.write)))
    {
      ActIf(link.bt.secure);
      link.RelaySet();
    }

    /** One call of bt_nus_send in cmd_ack_send. */
    method AckSends(err: int)
      requires Valid() && nus.ack.Owed?
      modifies nus`ack, this`echoes
      ensures Valid() && Snapshot() == old(Snapshot()).(
        ack := M.AfterTry(old(nus.ack), err),
        echoes := old(echoes) + if SendResult(err) == Consumed then [old(M.EchoOf(Snapshot()))] else [])
    {
      if SendResult(err) == Consumed {
        echoes := echoes + [M.EchoOf(Snapshot())];
      }
      if SendResult(err) == Retry && nus.ack.tries + 1 < ACK_TRIES {
        nus.ack := nus.ack.(tries := nus.ack.tries + 1);
      } else {
        nus.ack := M.NoAck;
      }
    }

    /** nus_received returns without an echo. */
    method AckFails()
      requires Valid()
      modifies nus`ack
      ensures Valid() && Snapshot() == old(Snapshot()).(ack := M.NoAck)
    {
      nus.ack := M.NoAck;
    }

    // --- ble_write_thread, where it meets the link ---------------------------------------------

    /** The decision and the reference, under conn_mutex. */
    method WriterDecides()
      requires Valid() && L.CanWriter(link.Snapshot(), L.TakeRef)
      requires U.CanStep(writer.Snapshot(), U.Decide(MayForward(link.currentConn.Some?, link.linkSecure)))
      modifies writer, link, link.host
      ensures Valid() && Snapshot() == old(Snapshot()).(
        up := U.Next(old(writer.Snapshot()), U.Decide(old(MayForward(link.currentConn.Some?, link.linkSecure)))),
        link := L.NextWriter(old(link.Snapshot()), L.TakeRef))
    {
      writer.Decide(link.currentConn.Some?, link.linkSecure);
      link.WriterTakeRef();
    }

    /** The link's MTU and the claim. */
    method WriterClaims(mtu: u16)
      requires Valid() && U.CanStep(writer.Snapshot(), U.ClaimStep(mtu)) && L.CanWriter(link.Snapshot(), L.Claim)
      modifies this`origin, writer, link
      ensures Valid() && Snapshot() == old(Snapshot()).(
        up := U.Next(old(writer.Snapshot()), U.ClaimStep(mtu)),
        link := L.NextWriter(old(link.Snapshot()), L.Claim),
        origin := old(L.Occupant(link.host.Value())))
    {
      origin := L.Occupant(link.host.Value());
      writer.ClaimStep(mtu);
      link.WriterClaim();
    }

    /** One round of send_processed: bt_nus_send on the link, if a slice is left. */
    method SendOnLink(err: int) returns (went: seq<byte>)
      requires Valid() && U.CanStep(writer.Snapshot(), U.SendStep(err))
      requires M.Slice(writer.pc) > 0 ==> L.CanWriter(link.Snapshot(), L.Send)
      modifies writer, link
      ensures Valid() && writer.Snapshot() == U.Next(old(writer.Snapshot()), U.SendStep(err))
      ensures writer.onAir == old(writer.onAir) + went
      ensures link.Snapshot() ==
                if old(M.Slice(writer.pc)) > 0 then L.NextWriter(old(link.Snapshot()), L.Send) else old(link.Snapshot())
    {
      var slice := NextSlice(writer.outLen, writer.sent, writer.maxSend);
      went := writer.SendStep(err);
      if slice > 0 {
        link.WriterSend();
      }
    }

    /** The same, with the deliveries it makes. */
    method WriterSends(err: int) returns (went: seq<byte>)
      requires Valid() && U.CanStep(writer.Snapshot(), U.SendStep(err))
      requires M.Slice(writer.pc) > 0 ==> L.CanWriter(link.Snapshot(), L.Send)
      modifies this`deliveries, writer, link
      ensures writer.onAir == old(writer.onAir) + went && old(writer.notified) <= writer.notified
      ensures Valid() && Snapshot() == old(Snapshot()).(
        up := U.Next(old(writer.Snapshot()), U.SendStep(err)),
        link :=
          if old(M.Slice(writer.pc)) > 0 then L.NextWriter(old(link.Snapshot()), L.Send) else old(link.Snapshot()),
        deliveries := old(deliveries) +
          M.Deliver(writer.notified[|old(writer.notified)|..], origin, old(L.Occupant(link.host.Value()))))
    {
      ghost var before, on := writer.notified, L.Occupant(link.host.Value());
      Laws.SendScope(writer.Snapshot(), err);
      went := SendOnLink(err);
      deliveries := deliveries + M.Deliver(writer.notified[|before|..], origin, on);
    }

    // --- Any schedule ----------------------------------------------------------------------------

    method StepLink(e: L.Event)
      requires Valid() && L.CanStep(link.Snapshot(), e)
      modifies link, link.host, link.timers
      ensures Valid() && Snapshot() == old(Snapshot()).(link := L.Next(old(link.Snapshot()), e))
    {
      LinkScheduler.Step(link, e);
    }

    method StepUplink(e: U.Event)
      requires Valid() && U.CanStep(writer.Snapshot(), e)
      modifies writer, writer.rxRing, writer.rxRing.data, writer.procBuf
      ensures Valid() && Snapshot() == old(Snapshot()).(up := U.Next(old(writer.Snapshot()), e))
    {
      writer.Step(e);
    }

    method StepBridge(e: B.Event)
      requires Valid() && BridgeLaws.Inv(bridge.Snapshot()) && B.CanStep(bridge.Snapshot(), e)
      modifies bridge, bridge.tx, bridge.tx.ring, bridge.tx.ring.data, bridge.tx.buf, bridge.rx
      ensures Valid() && Snapshot() == old(Snapshot()).(down := B.Next(old(bridge.Snapshot()), e))
    {
      BridgeScheduler.Step(bridge, e);
    }

    method StepWriter(e: M.Event)
      requires Valid() && M.CanStep(Snapshot(), e) && (e.WriterDecides? || e.WriterClaims? || e.WriterSends?)
      modifies this`origin, this`deliveries, writer, link, link.host
      ensures Valid() && Snapshot() == M.Next(old(Snapshot()), e)
    {
      match e {
        case WriterDecides => WriterDecides();
        case WriterClaims(mtu) => WriterClaims(mtu);
        case WriterSends(err) => var went := WriterSends(err);
      }
    }

    /** Whatever context runs next. */
    method Step(e: M.Event)
      requires Valid() && Laws.Inv(Snapshot()) && M.CanStep(Snapshot(), e)
      modifies Footprint()
      ensures Valid() && Snapshot() == M.Next(old(Snapshot()), e)
    {
      match e {
        case OfLink(x) => StepLink(x);
        case OfUplink(x) => StepUplink(x);
        case OfBridge(x) =>
          BridgeRuns.ReachableInv(bridge.Snapshot());
          StepBridge(x);
        case NusArrives(data) => NusArrives(data);
        case NusDispatches => NusDispatches();
        case AckSends(err) => AckSends(err);
        case AckFails => AckFails();
        case _ => StepWriter(e);
      }
    }

    /** Along every legal schedule from boot the device is where the machine is, so that
        all the theorems about runs are about the device; what went on the air is a
        subsequence of what the UART received. */
    method Execute(u: Runs.Setup, es: seq<M.Event>)
      requires Runs.BootRun(u, es) && Valid() && Snapshot() == Runs.BootOf(u)
      modifies Footprint()
      ensures Valid() && Snapshot() == Runs.Run(Runs.BootOf(u), es)
      ensures Subsequence(writer.onAir, writer.received)
    {
      Runs.BootInv(u);
      var i := 0;
      while i < |es|
        invariant i <= |es| && Valid() && Laws.Inv(Snapshot()) && Runs.Legal(Snapshot(), es[i..])
        invariant Runs.Run(Snapshot(), es[i..]) == Runs.Run(Runs.BootOf(u), es)
      {
        assert es[i..][1..] == es[i + 1..];
        Laws.InvStep(Snapshot(), es[i]);
        Step(es[i]);
        i := i + 1;
      }
      writer.OnAirInOrder();
    }
  }

  method StartParts(u: Runs.Setup) returns (link: Link, writer: Writer, bridge: Bridge)
    requires u.buf in B.SLAB
    ensures writer.Valid() && bridge.Valid() && bridge.deviceSet
    ensures link.Snapshot() == L.Booted(u.bonds, u.rejected, u.hasRelay) && writer.Snapshot() == U.Start()
    ensures bridge.Snapshot() == B.AfterInit(u.buf, bridge.tx.buf[..], u.rate)
    ensures fresh(link) && fresh(link.host) && fresh(link.timers)
    ensures fresh(writer) && fresh(writer.rxRing) && fresh(writer.rxRing.data) && fresh(writer.procBuf)
    ensures fresh(bridge) && fresh(bridge.tx) && fresh(bridge.tx.ring) && fresh(bridge.tx.ring.data)
    ensures fresh(bridge.tx.buf) && fresh(bridge.rx) && bridge.tx.ring != writer.rxRing
    ensures {writer.rxRing.data, writer.procBuf} !! {bridge.tx.ring.data, bridge.tx.buf}
  {
    bridge := StartBridge(u.buf, u.rate);
    writer := new Writer();
    link := new Link(u.bonds, u.rejected, u.hasRelay);
  }

  /** main() when nothing in it fails: UART up, settings loaded, about to advertise. */
  method PowerOn(u: Runs.Setup) returns (d: Device)
    requires u.buf in B.SLAB
    ensures d.Valid() && fresh(d.Footprint())
    ensures d.Snapshot() == Runs.BootOf(u.(staging := d.bridge.tx.buf[..]))
  {
    var link, writer, bridge := StartParts(u);
    d := new Device(link, writer, bridge);
  }
}
