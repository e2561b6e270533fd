/** What a phone's write brings about, and what comes back, in the packet's own bytes and
    the stack's own answers. */
module FirmwareCommands {
  import opened Words
  import opened ProxyCore
  import opened CommandLaws
  import opened Downlink
  import opened SendLoops
  import opened FirmwareModel
  import opened FirmwareLaws
  import opened FirmwareRuns
  import L = LinkModel
  import U = UplinkModel
  import B = BridgeModel
  import LinkLaws
  import LinkRuns
  import BridgeRuns

  // --- Commands are obeyed --------------------------------------------------------------------

  /** A relay packet on an encrypted link is on its way to relay_set, a rate packet to
      uart_bridge_set_baud with the rate it spells, each owed its echo on its link; any
      other write, and any write on a link that has not encrypted, changes neither and is
      owed nothing. */
  lemma CommandsObeyed(u: Setup, past: seq<Event>)
    requires BootRun(u, past) && CanStep(Run(BootOf(u), past), NusDispatches)
    ensures var s := Run(BootOf(u), past); var n := Next(s, NusDispatches); var open := Encrypted(s.link);
            && (forall enable :: n.link.threads.bt == L.NusCancelled(enable) <==> open && IsRelay(s.write, enable))
            && (n.down.pc == B.BaudCancelled <==> open && RateOf(s.write).Some?)
            && (open && RateOf(s.write).Some? ==> n.down.target == RateOf(s.write).value)
            && (n.ack == if open && (IsRelay(s.write, true) || IsRelay(s.write, false) || RateOf(s.write).Some?)
                         then Owed(s.write, L.Occupant(s.link.host), 0) else NoAck)
  {
    BootInv(u);
    RunInv(BootOf(u), past);
    var s := Run(BootOf(u), past);
    GateIsLink(s);
    DispatchMeaning(s.write);
    Obeyed(s);
  }

  lemma Obeyed(s: State)
    requires NusSide(s) && CanStep(s, NusDispatches)
    ensures var n := Next(s, NusDispatches); var a := ActionOf(s);
            && (forall enable :: n.link.threads.bt == L.NusCancelled(enable) <==> a == Relay(enable))
            && (n.down.pc == B.BaudCancelled <==> a.Baud?)
            && (a.Baud? ==> n.down.target == a.rate)
            && n.ack == if a.Relay? || a.Baud? then Owed(s.write, L.Occupant(s.link.host), 0) else NoAck
  {
  }

  /** And relay_set does it: where there is a relay it is as the packet says, where there is
      none nothing changes. */
  lemma RelayObeys(u: Setup, past: seq<Event>)
    requires BootRun(u, past) && CanStep(Run(BootOf(u), past), OfLink(L.Callback(L.RelayApply)))
    ensures var s := Run(BootOf(u), past); var n := Next(s, OfLink(L.Callback(L.RelayApply))).link.app;
            && (IsRelay(s.write, true) || IsRelay(s.write, false))
            && (n.relay <==> if n.hasRelay then IsRelay(s.write, true) else false)
  {
    BootInv(u);
    RunInv(BootOf(u), past);
    var s := Run(BootOf(u), past);
    DispatchMeaning(s.write);
    ParsedMeaning(s.write);
    Applies(s);
  }

  lemma Applies(s: State)
    requires Inv(s) && CanStep(s, OfLink(L.Callback(L.RelayApply)))
    ensures RelayOf(s.write).Some?
    ensures var n := Next(s, OfLink(L.Callback(L.RelayApply))).link.app;
            n.relay <==> if n.hasRelay then RelayOf(s.write) == Some(true) else false
  {
    LinkRuns.ReachableInv(s.link);
    assert LinkLaws.HoldsRelay(s.link);
  }

  // --- Echoes --------------------------------------------------------------------------------

  /** When an echo is sent, the connection it is sent on is that of its command, the relay
      is as the packet says, or the call for its rate has returned 0 and the rate is live. */
  lemma EchoTells(u: Setup, past: seq<Event>, err: int)
    requires BootRun(u, past) && CanStep(Run(BootOf(u), past), AckSends(err))
    ensures var s := Run(BootOf(u), past); var p := s.ack.packet;
            && p == s.write && s.ack.link == L.Occupant(s.link.host) && Encrypted(s.link)
            && (IsRelay(p, true) || IsRelay(p, false) || IsBaud(p, s.down.rate))
            && (IsRelay(p, true) && s.link.app.hasRelay ==> s.link.app.relay)
            && (IsRelay(p, false) && s.link.app.hasRelay ==> !s.link.app.relay)
            && (RateOf(p).Some? ==> s.down.result == 0)
  {
    BootInv(u);
    RunInv(BootOf(u), past);
    var s := Run(BootOf(u), past);
    DispatchMeaning(s.write);
    SoundNow(s);
    RateSpelled(s.write, s.down.rate);
    LinkRuns.EncryptionGate(s.link);
  }

  lemma SoundNow(s: State)
    requires Inv(s) && ActionOver(s) && TookEffect(s)
    ensures s.ack.packet == s.write && s.ack.link == L.Occupant(s.link.host) && LinkLaws.SecureLink(s.link.app)
    ensures match Dispatch(true, s.write)
            case Relay(enable) => s.link.app.hasRelay ==> s.link.app.relay == enable
            case Baud(rate) => s.down.rate == rate && s.down.result == 0
            case _ => false
  {
  }

  /** A command goes without an echo being tried only if it was for a rate and the call
      returned an error: by BridgeAnswers.BaudCall, a change that succeeded is echoed. */
  lemma OnlyFailuresGoUnanswered(u: Setup, past: seq<Event>)
    requires BootRun(u, past) && CanStep(Run(BootOf(u), past), AckFails)
    ensures var s := Run(BootOf(u), past); RateOf(s.ack.packet).Some? && s.down.result != 0
  {
    DispatchMeaning(Run(BootOf(u), past).ack.packet);
  }

  /** One command less to account for: its change failed. */
  function FailedNow(e: Event): nat {
    if e.AckFails? then 1 else 0
  }

  /** Or its echo was given up: an answer that was neither 0 nor a shortage, or the fifth
      shortage in a row. */
  function GivenUpNow(tries: nat, e: Event): nat {
    if e.AckSends? && e.err != 0 && (tries >= 4 || (e.err != -ENOMEM && e.err != -EAGAIN)) then 1 else 0
  }

  /** How often bt_nus_send has been called for the echo that is owed. */
  function Tried(tries: nat, e: Event): nat {
    match e
    case NusDispatches => 0
    case AckSends(_) => tries + 1
    case _ => tries
  }

  function FailedIn(es: seq<Event>): nat {
    if es == [] then 0 else FailedNow(es[0]) + FailedIn(es[1..])
  }

  function GivenUpIn(tries: nat, es: seq<Event>): nat
    decreases |es|
  {
    if es == [] then 0 else GivenUpNow(tries, es[0]) + GivenUpIn(Tried(tries, es[0]), es[1..])
  }

  predicate Counts(s: State, tries: nat) {
    s.ack.Owed? ==> s.ack.tries == tries < 5
  }

  /** What a step adds to the commands, it adds to the accounts. */
  lemma AckEntry(s: State, e: Event, tries: nat)
    requires Inv(s) && CanStep(s, e) && Counts(s, tries)
    ensures var n := Next(s, e);
            && Counts(n, Tried(tries, e))
            && |n.echoes| + |Owing(n.ack)| + FailedNow(e) + GivenUpNow(tries, e) ==
                 |s.echoes| + |Owing(s.ack)| + |Commands(Acted(s, e))|
  {
    match e {
      case NusDispatches => DispatchEntry(s);
      case _ => NoEntry(s, e, tries);
    }
  }

  lemma DispatchEntry(s: State)
    requires Inv(s) && CanStep(s, NusDispatches)
    ensures var n := Next(s, NusDispatches);
            && s.ack == NoAck && n.echoes == s.echoes && |Commands(Acted(s, NusDispatches))| == |Owing(n.ack)|
            && (n.ack.Owed? ==> n.ack.tries == 0)
  {
    GateIsLink(s);
    OneCommand(Acted(s, NusDispatches)[0]);
  }

  lemma OneCommand(w: Write)
    ensures |Commands([w])| == if Dispatch(w.secure, w.data).Relay? || Dispatch(w.secure, w.data).Baud? then 1 else 0
  {
    DispatchMeaning(w.data);
    assert [w][..0] == [];
  }

  lemma NoEntry(s: State, e: Event, tries: nat)
    requires CanStep(s, e) && !e.NusDispatches? && Counts(s, tries)
    ensures var n := Next(s, e);
            && Counts(n, Tried(tries, e))
            && Acted(s, e) == []
            && |s.echoes| + |Owing(s.ack)| == |n.echoes| + |Owing(n.ack)| + FailedNow(e) + GivenUpNow(tries, e)
  {
  }

  lemma {:induction false} CommandsJoin(a: seq<Write>, b: seq<Write>)
    ensures |Commands(a + b)| == |Commands(a)| + |Commands(b)|
  {
    if b == [] {
      assert a + b == a;
    } else {
      var k := |b| - 1;
      assert (a + b)[..|a + b| - 1] == a + b[..k];
      CommandsJoin(a, b[..k]);
    }
  }

  lemma {:induction false} AckEntries(s: State, es: seq<Event>, tries: nat)
    requires Inv(s) && Legal(s, es) && Counts(s, tries)
    ensures var n := Run(s, es);
            |n.echoes| + |Owing(n.ack)| + FailedIn(es) + GivenUpIn(tries, es) ==
              |s.echoes| + |Owing(s.ack)| + |Commands(Writes(s, es))|
    decreases |es|
  {
    if es != [] {
      AckEntry(s, es[0], tries);
      InvStep(s, es[0]);
      AckEntries(Next(s, es[0]), es[1..], Tried(tries, es[0]));
      CommandsJoin(Acted(s, es[0]), Writes(Next(s, es[0]), es[1..]));
    }
  }

  /** Every command is accounted for, over every run from boot: it has been echoed, or its
      baud change failed, or its echo was given up, after a fatal answer or five shortages,
      or the echo is still to come. */
  lemma AckLedger(u: Setup, es: seq<Event>)
    requires BootRun(u, es)
    ensures var s := Run(BootOf(u), es);
            |Commands(Writes(BootOf(u), es))| ==
              |s.echoes| + FailedIn(es) + GivenUpIn(0, es) + if s.ack.Owed? then 1 else 0
  {
    BootInv(u);
    AckEntries(BootOf(u), es, 0);
  }

  // --- The writer serves exactly the encrypted link ------------------------------------------------

  /** Where the writer decides, it goes on to forward exactly if the link that is up has
      encrypted, with a reference on that link, and drains the ring otherwise. */
  lemma EncryptedLinkIsServed(u: Setup, past: seq<Event>)
    requires BootRun(u, past) && CanStep(Run(BootOf(u), past), WriterDecides)
    ensures var s := Run(BootOf(u), past); var n := Next(s, WriterDecides);
            if Encrypted(s.link)
            then n.up.pc == U.Referenced && n.link.threads.writer == L.Holding(s.link.app.cur.value)
            else n.up.pc == U.Draining && n.link.threads.writer == L.NoRef
  {
    BootInv(u);
    RunInv(BootOf(u), past);
    LinkRuns.EncryptionGate(Run(BootOf(u), past).link);
    Decided(Run(BootOf(u), past));
  }

  lemma Decided(s: State)
    requires CanStep(s, WriterDecides)
    ensures var n := Next(s, WriterDecides);
            if Forwards(s) then n.up.pc == U.Referenced && n.link.threads.writer == L.Holding(s.link.app.cur.value)
            else n.up.pc == U.Draining && n.link.threads.writer == L.NoRef
  {
  }
}
