/** The promises of src/uart_bridge.c, over every run from a successful init. */
module BridgeRuns {
  import opened Words
  import opened UartRxRetry
  import opened BridgeModel
  import opened BridgeLaws

  predicate Legal(s: State, es: seq<Event>)
    decreases |es|
  {
    es == [] || (CanStep(s, es[0]) && Legal(Next(s, es[0]), es[1..]))
  }

  function Run(s: State, es: seq<Event>): State
    requires Legal(s, es)
    decreases |es|
  {
    if es == [] then s else Run(Next(s, es[0]), es[1..])
  }

  lemma InitInv(buf: nat, staging: seq<byte>, rate: nat)
    requires buf in SLAB && |staging| == STAGE_SIZE
    ensures Inv(AfterInit(buf, staging, rate))
  {
  }

  lemma {:induction false} RunInv(s: State, es: seq<Event>)
    requires Inv(s) && Legal(s, es)
    ensures Inv(Run(s, es))
    decreases |es|
  {
    if es != [] {
      InvStep(s, es[0]);
      RunInv(Next(s, es[0]), es[1..]);
    }
  }

  /** A state some run reaches. */
  ghost predicate Reachable(s: State) {
    exists buf: nat, staging: seq<byte>, rate: nat, es: seq<Event> ::
      buf in SLAB && |staging| == STAGE_SIZE && Legal(AfterInit(buf, staging, rate), es)
      && s == Run(AfterInit(buf, staging, rate), es)
  }

  lemma ReachableInv(s: State)
    requires Reachable(s)
    ensures Inv(s)
  {
    var buf: nat, staging: seq<byte>, rate: nat, es: seq<Event> :|
      buf in SLAB && |staging| == STAGE_SIZE && Legal(AfterInit(buf, staging, rate), es)
      && s == Run(AfterInit(buf, staging, rate), es);
    InitInv(buf, staging, rate);
    RunInv(AfterInit(buf, staging, rate), es);
  }

  lemma {:induction false} Extend(s: State, es: seq<Event>, e: Event)
    requires Legal(s, es) && CanStep(Run(s, es), e)
    ensures Legal(s, es + [e]) && Run(s, es + [e]) == Next(Run(s, es), e)
    decreases |es|
  {
    if es == [] {
      assert [e][1..] == [];
    } else {
      Extend(Next(s, es[0]), es[1..], e);
      assert (es + [e])[1..] == es[1..] + [e];
    }
  }

  lemma ReachNext(s: State, e: Event)
    requires Reachable(s) && CanStep(s, e)
    ensures Reachable(Next(s, e))
  {
    var buf: nat, staging: seq<byte>, rate: nat, es: seq<Event> :|
      buf in SLAB && |staging| == STAGE_SIZE && Legal(AfterInit(buf, staging, rate), es)
      && s == Run(AfterInit(buf, staging, rate), es);
    Extend(AfterInit(buf, staging, rate), es, e);
  }

  // --- Transmission ---------------------------------------------------------------

  lemma {:induction false} PieceLengths(ps: seq<Piece>)
    ensures |Bytes(ps)| == |WireBytes(ps)| + LostBytes(ps)
  {
    if ps != [] {
      PieceLengths(ps[..|ps| - 1]);
    }
  }

  /** Conservation and order: the accepted stream is, in order, what was settled (each
      piece on the wire or counted lost), the staged chunk and the queue. */
  lemma TxConservation(s: State)
    requires Reachable(s)
    ensures s.tx.len <= |s.tx.buf| && s.tx.accepted == Bytes(s.tx.settled) + InFlight(s.tx) + s.tx.ring
    ensures |s.tx.accepted| == |WireBytes(s.tx.settled)| + LostBytes(s.tx.settled) + s.tx.len + |s.tx.ring|
    ensures s.tx.drops == LostBytes(s.tx.settled) % U32_RANGE
  {
    ReachableInv(s);
    PieceLengths(s.tx.settled);
  }

  /** At most one transfer: uart_tx is only ever called on an idle driver and never
      while a baud change owns the port; the transfer in flight reads exactly the
      staged bytes, and only its own completion touches them. */
  lemma OneTransfer(s: State, e: Event)
    requires Reachable(s) && CanStep(s, e)
    ensures !s.tx.misuse
    ensures e.Sender? && e.send.KickStart? ==> s.tx.driver == TxIdle && !s.reconfiguring
    ensures e.TxIsr? && s.reconfiguring ==> Next(s, e).tx.driver == TxIdle
    ensures s.tx.driver.TxBusy? ==>
              s.tx.inProgress && s.tx.len <= |s.tx.buf| && s.tx.driver.chunk == s.tx.buf[..s.tx.len]
    ensures s.tx.driver.TxBusy? && !e.TxIsr? ==>
              Next(s, e).tx.buf == s.tx.buf && Next(s, e).tx.driver == s.tx.driver
  {
    ReachableInv(s);
    if s.tx.driver.TxBusy? && !e.TxIsr? {
      TransferKept(s, e);
    }
  }

  lemma TransferKept(s: State, e: Event)
    requires SingleFlight(s.tx, s.pc, s.reconfiguring) && CanStep(s, e)
    requires s.tx.driver.TxBusy? && !e.TxIsr?
    ensures Next(s, e).tx.buf == s.tx.buf && Next(s, e).tx.driver == s.tx.driver
  {
  }

  /** No stalled transmission: at rest, queued bytes mean a transfer in flight or that
      the latest uart_tx was refused. */
  lemma NoStalledTx(s: State)
    requires Reachable(s) && s.pc == Idle && s.tx.ring != []
    ensures s.tx.driver.TxBusy? || s.tx.startFailed
  {
    ReachableInv(s);
  }

  // --- Reception ----------------------------------------------------------------------

  /** Reception never dies, in every interleaving of the ISR, the retry work and a
      baud change. */
  lemma RxNeverDies(s: State)
    requires Reachable(s)
    ensures RxAlive(s.rx, s.pc)
    ensures s.pc == Idle && s.rx.handler == Resting ==> s.rx.driver != RxOff || s.rx.retryPending
  {
    ReachableInv(s);
  }

  /** A stopped driver holds nothing, and two threads hold at most one block each: the
      allocation that restarts reception cannot fail. */
  lemma RestartHasBuffer(s: State)
    requires Reachable(s) && (s.rx.driver == RxOff || s.rx.held == {})
    ensures s.rx.free != {}
  {
    ReachableInv(s);
    OffHasBuffer(s);
  }

  lemma OffHasBuffer(s: State)
    requires Inv(s) && (s.rx.driver == RxOff || s.rx.held == {})
    ensures s.rx.free != {}
  {
    if s.rx.free == {} {
      assert 0 in SLAB && 1 in SLAB && 2 in SLAB;
      assert forall b :: b in SLAB ==> b in HandlerBuf(s.rx.handler) || b in ThreadBuf(s.pc);
      assert false;
    }
  }

  /** Steps still to be taken, at most, until reception is enabled. */
  function Distance(s: State): nat {
    if s.rx.driver != RxOff then 0
    else match s.pc
      case BaudCancelled => 9
      case BaudOwned => 8
      case BaudAborted => 7
      case BaudArmed => 6
      case BaudWaiting => 6
      case BaudQuiet => 5
      case BaudConfig => 4
      case BaudRestart(_) => 3
      case BaudReleased(_) => 2
      case BaudAllocated(_, _) => 1
      case BaudRefused(_, _) => 7
      case BaudNoRx(_) => 6
      case _ =>
        match s.rx.handler
        case Resting => 4
        case Entered => 3
        case Checked => 2
        case Allocated(_) => 1
        case Redundant(_) => 5
        case Refused(_) => 5
  }

  lemma BaudTowardsRx(s: State, b: nat) returns (e: BaudEvent)
    requires s.rx.driver == RxOff && WillRestartRx(s.pc) && b in s.rx.free && Quiesces(s.rx, s.pc)
    ensures CanBaud(s, e) && !e.Call?
    ensures var n := NextBaud(s, e);
            n.rx.driver == RxLive || (n.rx.driver == RxOff && Distance(n) < Distance(s))
  {
    match s.pc {
      case BaudCancelled => e := Claim;
      case BaudOwned => e := Abort;
      case BaudAborted => e := Reset;
      case BaudArmed => e := Disable(-EFAULT);
      case BaudQuiet => e := GetConfig(0);
      case BaudWaiting => e := Wait(true);
      case BaudConfig => e := Configure(-EBUSY);
      case BaudRestart(_) => e := Release;
      case BaudReleased(_) => e := AllocRx(b);
      case BaudAllocated(_, _) => e := EnableRx(0);
      case BaudRefused(_, _) => e := FreeRx;
      case BaudNoRx(_) => e := Reschedule;
    }
  }

  lemma RetryTowardsRx(s: State, b: nat) returns (e: RetryEvent)
    requires s.rx.driver == RxOff && !WillRestartRx(s.pc) && !s.reconfiguring && b in s.rx.free
    requires RxAlive(s.rx, s.pc)
    ensures CanRetry(s.rx, e)
    ensures var n := s.(rx := NextRetry(s.rx, false, e));
            n.rx.driver == RxLive || (n.rx.driver == RxOff && Distance(n) < Distance(s))
  {
    match s.rx.handler {
      case Resting => e := Fire;
      case Entered => e := Check;
      case Checked => e := Alloc(b);
      case Allocated(_) => e := Enable(0);
      case Redundant(_) => e := GiveBack;
      case Refused(_) => e := GiveBack;
    }
  }

  /** The thread whose job the restart is: the one in a baud change, else the retry work. */
  predicate Responsible(s: State, e: Event) {
    if WillRestartRx(s.pc) then e.Baud? else e.Retry?
  }

  predicate StartsChange(e: Event) {
    e.Baud? && e.baud.Call?
  }

  predicate RefusedEnable(e: Event) {
    (e.Baud? && e.baud.EnableRx? && e.baud.err != 0) || (e.Retry? && e.retry.Enable? && e.retry.err != 0)
  }

  predicate Nearer(s: State, n: State) {
    n.rx.driver == RxLive || (n.rx.driver == RxOff && Distance(n) < Distance(s))
  }

  /** The responsible thread has a step, and k_sem_take finds its semaphore given. */
  lemma StepTowardsRx(s: State) returns (e: Event)
    requires Inv(s) && s.rx.driver == RxOff
    ensures CanStep(s, e) && Responsible(s, e) && !StartsChange(e) && !RefusedEnable(e) && Nearer(s, Next(s, e))
  {
    OffHasBuffer(s);
    var b :| b in s.rx.free;
    if WillRestartRx(s.pc) {
      var x := BaudTowardsRx(s, b);
      e := Baud(x);
    } else {
      var x := RetryTowardsRx(s, b);
      e := Retry(x);
    }
  }

  /** Whatever its calls answer, each of its steps leads nearer, but for a refused
      uart_rx_enable. */
  lemma EveryStepTowardsRx(s: State, e: Event)
    requires Inv(s) && s.rx.driver == RxOff && CanStep(s, e) && Responsible(s, e)
    requires !StartsChange(e) && !RefusedEnable(e)
    ensures Nearer(s, Next(s, e))
  {
    OffHasBuffer(s);
    match e {
      case Baud(x) => BaudNears(s, x);
      case Retry(x) => RetryNears(s, x);
    }
  }

  lemma BaudNears(s: State, x: BaudEvent)
    requires s.rx.driver == RxOff && s.rx.free != {} && WillRestartRx(s.pc) && CanBaud(s, x)
    requires !x.Call? && (x.EnableRx? ==> x.err == 0)
    ensures Nearer(s, NextBaud(s, x))
  {
  }

  lemma RetryNears(s: State, x: RetryEvent)
    requires s.rx.driver == RxOff && s.rx.free != {} && !WillRestartRx(s.pc) && !s.reconfiguring && CanRetry(s.rx, x)
    requires x.Enable? ==> x.err == 0
    ensures Nearer(s, s.(rx := NextRetry(s.rx, s.reconfiguring, x)))
  {
  }

  /** Nobody else's step leads away from it, unless it begins a baud change. */
  lemma OthersKeepDistance(s: State, e: Event)
    requires Inv(s) && s.rx.driver == RxOff && CanStep(s, e) && !Responsible(s, e) && !StartsChange(e)
    ensures Next(s, e).rx.driver == RxOff ==> Distance(Next(s, e)) <= Distance(s)
  {
    match e {
      case Sender(x) => SendKeepsDistance(s, x);
      case TxIsr(_) =>
      case RxIsr(x) => IsrBystander(s.rx, s.reconfiguring, x);
      case Retry(_) =>
      case Baud(_) =>
    }
  }

  lemma SendKeepsDistance(s: State, x: SendEvent)
    requires CanSend(s, x) && |s.tx.buf| == STAGE_SIZE
    ensures NextSend(s, x).rx == s.rx && Distance(NextSend(s, x)) == Distance(s)
  {
  }

  /** Recovery is always at hand: from every reachable state in which reception is
      off, at most nine steps of the firmware's own threads bring it back as soon as
      the driver accepts one uart_rx_enable. */
  lemma RxRecovers(s: State) returns (es: seq<Event>)
    requires Reachable(s) && s.rx.driver == RxOff
    ensures Legal(s, es) && Run(s, es).rx.driver == RxLive && |es| <= 9
    ensures forall e :: e in es ==> (e.Baud? || e.Retry?) && !StartsChange(e)
  {
    ReachableInv(s);
    es := PathToRx(s);
  }

  lemma {:induction false} PathToRx(s: State) returns (es: seq<Event>)
    requires Inv(s) && s.rx.driver == RxOff
    ensures Legal(s, es) && Run(s, es).rx.driver == RxLive && |es| <= Distance(s)
    ensures forall e :: e in es ==> (e.Baud? || e.Retry?) && !StartsChange(e)
    decreases Distance(s)
  {
    var e := StepTowardsRx(s);
    InvStep(s, e);
    var rest := [];
    if Next(s, e).rx.driver == RxOff {
      rest := PathToRx(Next(s, e));
    }
    es := [e] + rest;
    assert es[1..] == rest;
  }

  /** Reception is off before, between and after the steps. */
  predicate StaysOff(s: State, es: seq<Event>)
    requires Legal(s, es)
    decreases |es|
  {
    s.rx.driver == RxOff && (es == [] || StaysOff(Next(s, es[0]), es[1..]))
  }

  /** The steps taken by the thread that was responsible at the time. */
  function OwnSteps(s: State, es: seq<Event>): nat
    requires Legal(s, es)
    decreases |es|
  {
    if es == [] then 0 else (if Responsible(s, es[0]) then 1 else 0) + OwnSteps(Next(s, es[0]), es[1..])
  }

  /** And it is inevitable: in any stretch of any run in which the driver refuses no
      uart_rx_enable and no further baud change begins, whatever else is answered and
      whoever else runs in between, reception is off for at most nine steps of the
      thread responsible for it. */
  lemma RxInevitable(s: State, es: seq<Event>)
    requires Reachable(s) && Legal(s, es) && StaysOff(s, es)
    requires forall e :: e in es ==> !StartsChange(e) && !RefusedEnable(e)
    ensures OwnSteps(s, es) <= 9
  {
    ReachableInv(s);
    StepsAreBounded(s, es);
  }

  lemma {:induction false} StepsAreBounded(s: State, es: seq<Event>)
    requires Inv(s) && Legal(s, es) && StaysOff(s, es)
    requires forall e :: e in es ==> !StartsChange(e) && !RefusedEnable(e)
    ensures OwnSteps(s, es) <= Distance(s)
    decreases |es|
  {
    if es != [] {
      if Responsible(s, es[0]) {
        EveryStepTowardsRx(s, es[0]);
      } else {
        OthersKeepDistance(s, es[0]);
      }
      InvStep(s, es[0]);
      StepsAreBounded(Next(s, es[0]), es[1..]);
    }
  }

  /** What an activation of the retry handler met: the flag set, no free block, or the
      answer of uart_rx_enable. */
  datatype Met = Flag | NoBlock | Answer(err: int)

  function Meets(r: Rx, reconfiguring: bool, x: RetryEvent): Option<Met> {
    if x == Check && reconfiguring then Some(Flag)
    else if x.Alloc? && r.free == {} then Some(NoBlock)
    else if x.Enable? then Some(Answer(x.err))
    else None
  }

  function MetNow(s: State, e: Event): Option<Met> {
    if e.Retry? then Meets(s.rx, s.reconfiguring, e.retry) else None
  }

  function MetBy(s: State, es: seq<Event>): Option<Met>
    requires Legal(s, es)
    decreases |es|
  {
    if es == [] then None
    else if MetNow(s, es[0]).Some? then MetNow(s, es[0])
    else MetBy(Next(s, es[0]), es[1..])
  }

  /** The handler itself puts the work on the timer, whatever is pending already. */
  predicate Reschedules(r: Rx, reconfiguring: bool, x: RetryEvent)
    requires CanRetry(r, x)
  {
    !x.Fire? && NextRetry(r.(retryPending := false), reconfiguring, x).retryPending
  }

  predicate Puts(s: State, e: Event)
    requires CanStep(s, e)
  {
    e.Retry? && Reschedules(s.rx, s.reconfiguring, e.retry)
  }

  predicate PutsBack(s: State, es: seq<Event>)
    requires Legal(s, es)
    decreases |es|
  {
    es != [] && (Puts(s, es[0]) || PutsBack(Next(s, es[0]), es[1..]))
  }

  /** One activation, from its first look at the flag to its return, with every other
      context interleaved: it meets exactly one of the three. If it met the flag at its
      check it leaves the timer alone; otherwise it puts the work back exactly when the
      policy says so, also when the flag is set meanwhile. */
  lemma RescheduleMatchesPolicy(s: State, es: seq<Event>)
    requires Legal(s, es) && Retry(Fire) !in es
    requires s.rx.handler == Entered && Run(s, es).rx.handler == Resting
    ensures MetBy(s, es).Some?
    ensures PutsBack(s, es) <==>
              match MetBy(s, es).value
              case Flag => false
              case NoBlock => ShouldScheduleRetry(false, 0)
              case Answer(err) => ShouldScheduleRetry(true, err)
  {
    ActivationMeets(s, es);
    ActivationPolicy(s, es);
  }

  /** What is still to be met from where the handler stands. */
  lemma {:induction false} ActivationMeets(s: State, es: seq<Event>)
    requires Legal(s, es) && Retry(Fire) !in es && Run(s, es).rx.handler == Resting
    ensures s.rx.handler.Entered? || s.rx.handler.Checked? || s.rx.handler.Allocated? ==> MetBy(s, es).Some?
    decreases |es|
  {
    if es != [] {
      if !es[0].Retry? {
        Bystander(s, es[0]);
      }
      ActivationMeets(Next(s, es[0]), es[1..]);
    }
  }

  /** Where the handler stands, and what it will have met, decide what is still to come. */
  predicate Policy(h: Handler, met: Option<Met>) {
    match h
    case Resting => false
    case Redundant(_) => false
    case Refused(_) => true
    case _ =>
      match met
      case None => false
      case Some(Flag) => false
      case Some(NoBlock) => ShouldScheduleRetry(false, 0)
      case Some(Answer(err)) => ShouldScheduleRetry(true, err)
  }

  lemma RetryPolicy(r: Rx, reconfiguring: bool, x: RetryEvent, later: Option<Met>)
    requires CanRetry(r, x) && x != Fire
    ensures Policy(r.handler, if Meets(r, reconfiguring, x).Some? then Meets(r, reconfiguring, x) else later) <==>
              Reschedules(r, reconfiguring, x) || Policy(NextRetry(r, reconfiguring, x).handler, later)
  {
  }

  lemma IsrBystander(r: Rx, reconfiguring: bool, x: RxIsrEvent)
    requires CanRxIsr(r, x)
    ensures NextRxIsr(r, reconfiguring, x).handler == r.handler
  {
  }

  lemma SendBystander(s: State, x: SendEvent)
    requires CanSend(s, x) && |s.tx.buf| == STAGE_SIZE
    ensures NextSend(s, x).rx == s.rx
  {
  }

  lemma BaudBystander(s: State, x: BaudEvent)
    requires CanBaud(s, x)
    ensures NextBaud(s, x).rx.handler == s.rx.handler
  {
  }

  lemma Bystander(s: State, e: Event)
    requires CanStep(s, e) && !e.Retry?
    ensures Next(s, e).rx.handler == s.rx.handler
  {
    match e {
      case Sender(x) => SendBystander(s, x);
      case TxIsr(_) =>
      case RxIsr(x) => IsrBystander(s.rx, s.reconfiguring, x);
      case Baud(x) => BaudBystander(s, x);
    }
  }

  lemma {:induction false} ActivationPolicy(s: State, es: seq<Event>)
    requires Legal(s, es) && Retry(Fire) !in es && Run(s, es).rx.handler == Resting
    ensures PutsBack(s, es) <==> Policy(s.rx.handler, MetBy(s, es))
    decreases |es|
  {
    if es != [] {
      if es[0].Retry? {
        RetryPolicy(s.rx, s.reconfiguring, es[0].retry, MetBy(Next(s, es[0]), es[1..]));
      } else {
        Bystander(s, es[0]);
      }
      ActivationPolicy(Next(s, es[0]), es[1..]);
    }
  }

  lemma Then(s: State, e: Event) returns (n: State)
    requires Reachable(s) && CanStep(s, e)
    ensures Reachable(n) && n == Next(s, e)
  {
    ReachNext(s, e);
    n := Next(s, e);
  }

  /** A reachable state in which the driver has just refused the retry work its enable. */
  lemma RefusedActivation() returns (s: State)
    ensures Reachable(s) && s.rx.handler.Refused? && s.pc == Idle && !s.rx.retryPending
  {
    var staging := seq(STAGE_SIZE, _ => 0);
    s := AfterInit(0, staging, 9600);
    assert Legal(s, []) && Run(s, []) == s;
    s := Then(s, RxIsr(RxStops));
    s := Then(s, RxIsr(BufReleased(Some(0))));
    s := Then(s, RxIsr(RxDisabled(0, -EAGAIN, false)));
    s := Then(s, Retry(Fire));
    s := Then(s, Retry(Check));
    s := Then(s, Retry(Alloc(0)));
    s := Then(s, Retry(Enable(-EAGAIN)));
  }

  /** The flag does not stop a retry from being scheduled: an activation that passed its
      check before the flag was set puts the work back under it. */
  lemma RescheduledUnderFlag() returns (s: State)
    ensures Reachable(s) && s.reconfiguring && !s.rx.retryPending
    ensures CanStep(s, Retry(GiveBack)) && Puts(s, Retry(GiveBack)) && Next(s, Retry(GiveBack)).rx.retryPending
  {
    s := RefusedActivation();
    ReachableInv(s);
    s := Then(s, Baud(Call(9600)));
    s := Then(s, Baud(Claim));
  }

  /** The inline restart is one interrupt: it leaves the work on the timer exactly when
      it was there or the policy says so. */
  lemma InlineMatchesPolicy(r: Rx, buf: nat, err: int, live: bool)
    requires CanRxIsr(r, RxDisabled(buf, err, live))
    ensures NextRxIsr(r, false, RxDisabled(buf, err, live)).retryPending <==>
              r.retryPending || ShouldScheduleRetry(r.free != {}, err)
  {
  }

  /** The slab: every block has exactly one owner, none is freed twice, and when both
      threads are at rest and reception is off all four are free. */
  lemma SlabOwnership(s: State)
    requires Reachable(s)
    ensures Parts(SLAB, s.rx.free, s.rx.held, HandlerBuf(s.rx.handler), ThreadBuf(s.pc))
    ensures !s.rx.doubleFree
    ensures s.pc == Idle && s.rx.handler == Resting && s.rx.driver == RxOff ==> s.rx.free == SLAB
    ensures s.rx.warnings <= 1
  {
    ReachableInv(s);
  }

  // --- Baud changes ---------------------------------------------------------------------

  /** A call of uart_bridge_set_baud ends, with the value it returns. */
  predicate BaudReturns(s: State, e: Event, err: int)
    requires CanStep(s, e)
  {
    Outcome(s.pc) == Some(err) && Next(s, e).pc == Idle
  }

  /** Every exit has cleared uart_reconfiguring and left reception running or on the
      retry timer; 0 is returned exactly when the new rate was configured, the old one
      stands otherwise, and only a 0 is acknowledged. */
  lemma BaudExit(s: State, e: Event, err: int)
    requires Reachable(s) && CanStep(s, e) && BaudReturns(s, e, err)
    ensures var n := Next(s, e);
            && n.result == err && !n.reconfiguring && RxAlive(n.rx, Idle)
            && n.rate == (if err == 0 then s.target else s.before)
            && (err == 0 <==> s.applied == s.acked + [s.target])
            && n.acked == n.applied
            && (n.acked == s.acked + [s.target] <==> err == 0)
            && (n.tx.ring != [] ==> n.tx.driver.TxBusy? || n.tx.startFailed)
  {
    ReachableInv(s);
    InvStep(s, e);
  }

  /** A change owns both directions: until its flag is cleared nothing enters or leaves
      the TX ring, so bytes queued before it go out after it, at the new rate. */
  lemma QueueSurvivesBaudChange(s: State, e: Event)
    requires Reachable(s) && CanStep(s, e) && s.reconfiguring
    ensures Next(s, e).tx.ring == s.tx.ring && Next(s, e).tx.accepted == s.tx.accepted
    ensures s.tx.driver == TxIdle ==> Next(s, e).tx == s.tx
  {
    ReachableInv(s);
    FrozenQueue(s, e);
  }

  lemma FrozenQueue(s: State, e: Event)
    requires SingleFlight(s.tx, s.pc, s.reconfiguring) && CanStep(s, e) && s.reconfiguring
    ensures Next(s, e).tx.ring == s.tx.ring && Next(s, e).tx.accepted == s.tx.accepted
    ensures s.tx.driver == TxIdle ==> Next(s, e).tx == s.tx
  {
  }

  /** The history form: whenever no call is in progress, the acknowledged baud commands
      are exactly the rates that went live, in order. */
  lemma AcksAreRates(s: State)
    requires Reachable(s) && s.pc == Idle
    ensures s.acked == s.applied
  {
    ReachableInv(s);
  }
}
