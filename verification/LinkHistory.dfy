/** The history the link machine keeps beside its state, told again from the events alone,
    and the misuses it records, ruled out in the states where they could happen. */
module LinkHistory {
  import opened Words
  import opened ProxyCore
  import opened LinkModel
  import opened LinkLaws
  import opened LinkRuns
  import opened LinkTimes

  /** The latest relay command carried out and whether its link had encrypted, the latest
      disconnect, the latest arming of the watchdog, and whether it has asked for a
      disconnect since the last connect. */
  datatype Told = Told(command: Option<RelayCommand>, lostAt: nat, armedAt: nat, requested: bool)

  function TellNow(s: State, e: Event, t: Told): Told
    requires CanStep(s, e)
  {
    match e
    case Callback(RelayApply) =>
      t.(command := Some(RelayCommand(s.threads.bt.enable, s.app.cur.Some? && s.app.cur.value in s.hist.encrypted)))
    case Callback(GraceStart) => t.(lostAt := s.timers.now)
    case Callback(DropConn) => t.(lostAt := s.timers.now)
    case Callback(ArmWatchdog) => t.(armedAt := s.timers.now)
    case Stack(Connect(_, _)) => t.(requested := false)
    case OnWork(WatchdogDisconnect) => t.(requested := true)
    case _ => t
  }

  function Tell(s: State, es: seq<Event>, t: Told): Told
    requires Legal(s, es)
    decreases |es|
  {
    if es == [] then t else Tell(Next(s, es[0]), es[1..], TellNow(s, es[0], t))
  }

  function Kept(s: State): Told {
    Told(s.hist.command, s.hist.lostAt, s.hist.armedAt, s.hist.disconnectRequested)
  }

  lemma CallbackTells(s: State, e: BtEvent)
    requires CanCallback(s, e)
    ensures Kept(NextCallback(s, e)) == TellNow(s, Callback(e), Kept(s))
  {
  }

  lemma StackTells(s: State, e: StackEvent)
    requires CanStack(s, e)
    ensures Kept(NextStack(s, e)) == TellNow(s, Stack(e), Kept(s))
  {
  }

  lemma AdvTells(s: State, e: AdvEvent)
    requires CanAdv(s, e)
    ensures Kept(NextAdv(s, e)) == Kept(s)
  {
  }

  lemma WorkTells(s: State, e: WorkEvent)
    requires CanWork(s, e)
    ensures Kept(NextWork(s, e)) == TellNow(s, OnWork(e), Kept(s))
  {
  }

  lemma WriterTells(s: State, e: WriterEvent)
    requires CanWriter(s, e)
    ensures Kept(NextWriter(s, e)) == Kept(s)
  {
  }

  /** What RelaySafety and SquatterBound say of the history is said of the events. */
  lemma {:induction false} HistoryIsTold(s: State, es: seq<Event>)
    requires Legal(s, es)
    ensures Kept(Run(s, es)) == Tell(s, es, Kept(s))
    decreases |es|
  {
    if es != [] {
      match es[0] {
        case Stack(x) => StackTells(s, x);
        case Callback(x) => CallbackTells(s, x);
        case Adv(x) => AdvTells(s, x);
        case OnWork(x) => WorkTells(s, x);
        case OnWriter(x) => WriterTells(s, x);
        case Tick(_) =>
      }
      HistoryIsTold(Next(s, es[0]), es[1..]);
    }
  }

  // --- Misuse -----------------------------------------------------------------------------------

  /** bt_le_adv_start is called on a free connection object or on one a central has just
      taken, never over a live advertiser: not by advertising_start, not by the switch. */
  lemma StartsOverNone(s: State)
    requires Reachable(s)
    ensures ShouldStartAdv(s.app.cur.Some?, s.app.advActive) ==> !s.host.obj.Advertiser?
    ensures forall inline, err :: s.app.advActive ==> !Stopped(s, inline, err).host.obj.Advertiser?
  {
    ReachableInv(s);
    forall inline, err
      ensures s.app.advActive ==> !Stopped(s, inline, err).host.obj.Advertiser?
    {
      StopLeavesNone(s, inline, err);
    }
  }

  lemma StopLeavesNone(s: State, inline: bool, err: int)
    ensures s.app.advActive ==> !Stopped(s, inline, err).host.obj.Advertiser?
  {
  }

  /** Whoever calls the stack with a connection calls it with the one that is there, and
      on_connected finds none published. */
  lemma CallsAreAlive(s: State)
    requires Reachable(s)
    ensures s.app.cur.Some? ==> Alive(s.host, s.app.cur.value)
    ensures LinkLaws.WatchdogRef(s.threads.work).Some? ==> Alive(s.host, LinkLaws.WatchdogRef(s.threads.work).value)
    ensures WriterRef(s.threads.writer).Some? ==> Alive(s.host, WriterRef(s.threads.writer).value)
    ensures CanStep(s, Callback(OnConnected)) ==> s.app.cur == None
  {
    ReachableInv(s);
  }

  /** The accept list is edited with no advertiser live, and with a bond stored only a
      bonded peer connects. */
  lemma ListEditedAtRest(s: State)
    requires Reachable(s)
    ensures Pairing(s.threads.bt) ==> !s.host.obj.Advertiser?
    ensures forall ok, peer :: CanStack(s, Connect(ok, peer)) && s.host.bonds != {} ==> peer in s.host.bonds
  {
    ReachableInv(s);
  }

  // --- No window without a command -----------------------------------------------------------------

  predicate NeverHeld(s: State) {
    && !s.app.relay && s.timers.grace == None
    && !(s.threads.bt.DiscRead? && s.threads.bt.held) && !(s.threads.bt.DiscArmed? && s.threads.bt.held)
  }

  lemma CallbackNeverHeld(s: State, e: BtEvent)
    requires CanCallback(s, e) && NeverHeld(s) && e != RelayApply
    ensures NeverHeld(NextCallback(s, e))
  {
  }

  lemma WorkNeverHeld(s: State, e: WorkEvent)
    requires CanWork(s, e) && NeverHeld(s)
    ensures NeverHeld(NextWork(s, e)) && e != GraceFire
  {
    if e.SlowSwitch? {
      SlowScope(s, e.stopErr, e.inline, e.inlineErr, e.startErr);
    }
  }

  lemma StepNeverHeld(s: State, e: Event)
    requires CanStep(s, e) && NeverHeld(s) && e != Callback(RelayApply)
    ensures NeverHeld(Next(s, e)) && e != OnWork(GraceFire)
  {
    match e {
      case Stack(_) =>
      case Callback(x) => CallbackNeverHeld(s, x);
      case Adv(_) =>
      case OnWork(x) => WorkNeverHeld(s, x);
      case OnWriter(_) =>
      case Tick(_) =>
    }
  }

  lemma {:induction false} StaysNeverHeld(s: State, es: seq<Event>)
    requires Legal(s, es) && NeverHeld(s) && Callback(RelayApply) !in es
    ensures OnWork(GraceFire) !in es && !Run(s, es).app.relay
    decreases |es|
  {
    if es != [] {
      StepNeverHeld(s, es[0]);
      StaysNeverHeld(Next(s, es[0]), es[1..]);
    }
  }

  /** Without a relay command since boot the relay stays off and no disconnect starts a
      grace window. */
  lemma NoCommandNoGrace(bonds: set<Addr>, rejected: set<Addr>, hasRelay: bool, es: seq<Event>)
    requires Legal(Booted(bonds, rejected, hasRelay), es) && Callback(RelayApply) !in es
    ensures OnWork(GraceFire) !in es && !Run(Booted(bonds, rejected, hasRelay), es).app.relay
  {
    StaysNeverHeld(Booted(bonds, rejected, hasRelay), es);
  }
}
