/** The bridge in terms of what the driver answered and reported over a run, and nothing
    else: what a baud change returns, which bytes went out, what was counted lost. */
module BridgeAnswers {
  import opened Words
  import opened RingBuffer
  import opened BridgeModel
  import opened BridgeLaws
  import opened BridgeRuns

  // --- One whole call of uart_bridge_set_baud ----------------------------------------------

  /** The first call in a stretch that answered with an error a baud change does not
      get past, with that error; for the wait it is -ETIMEDOUT. */
  function FirstFailure(es: seq<Event>): Option<int> {
    if es == [] then None
    else match Failure(es[0])
      case Some(err) => Some(err)
      case None => FirstFailure(es[1..])
  }

  function Failure(e: Event): Option<int> {
    match e
    case Baud(Disable(err)) => if err != 0 && err != -EFAULT then Some(err) else None
    case Baud(Wait(stopped)) => if stopped then None else Some(-ETIMEDOUT)
    case Baud(GetConfig(err)) => if err != 0 then Some(err) else None
    case Baud(Configure(err)) => if err != 0 then Some(err) else None
    case _ => None
  }

  /** The calling thread begins nothing new. */
  predicate Begins(e: Event) {
    StartsChange(e) || (e.Sender? && e.send.Put?)
  }

  predicate Undecided(pc: Pc) {
    WillRestartRx(pc) && Outcome(pc) == None
  }

  predicate InCall(pc: Pc) {
    Undecided(pc) || Outcome(pc).Some?
  }

  /** Before the outcome, a step either goes on without failing or decides. */
  lemma UndecidedStep(s: State, e: BaudEvent)
    requires Undecided(s.pc) && CanBaud(s, e) && !e.Call?
    ensures var n := NextBaud(s, e).pc;
            match Failure(Baud(e))
            case Some(err) => Outcome(n) == Some(err) && err != 0
            case None => if e == Configure(0) then Outcome(n) == Some(0) else Undecided(n)
    ensures NextBaud(s, e).result == s.result
  {
  }

  lemma DecidedBaud(s: State, e: BaudEvent)
    requires Outcome(s.pc).Some? && CanBaud(s, e)
    ensures Outcome(NextBaud(s, e).pc) == Outcome(s.pc) && Failure(Baud(e)) == None && !e.Configure?
  {
  }

  lemma DecidedSend(s: State, e: SendEvent)
    requires Outcome(s.pc).Some? && CanSend(s, e) && |s.tx.buf| == STAGE_SIZE
    ensures var n := NextSend(s, e);
            Outcome(n.pc) == Outcome(s.pc) || (n.pc == Idle && n.result == Outcome(s.pc).value)
  {
  }

  lemma OthersStep(s: State, e: Event)
    requires CanStep(s, e) && !e.Baud? && !e.Sender?
    ensures var n := Next(s, e);
            && n.pc == s.pc && n.result == s.result && n.rate == s.rate && n.applied == s.applied && n.acked == s.acked
            && n.target == s.target && n.before == s.before
  {
  }

  lemma IdleWaits(s: State, e: Event)
    requires CanStep(s, e) && s.pc == Idle && !Begins(e)
    ensures !e.Baud? && !e.Sender?
  {
  }

  /** Once it has been decided what is returned, or nothing is called at all, no further
      call of the change is made. */
  lemma {:induction false} NothingFails(s: State, es: seq<Event>)
    requires Legal(s, es) && (Outcome(s.pc).Some? || s.pc == Idle) && (forall e :: e in es ==> !Begins(e))
    ensures FirstFailure(es) == None && Baud(Configure(0)) !in es
    ensures Run(s, es).pc == Idle ==>
              Run(s, es).result == if s.pc == Idle then s.result else Outcome(s.pc).value
    decreases |es|
  {
    if es != [] {
      var e := es[0];
      if s.pc == Idle {
        IdleWaits(s, e);
        OthersStep(s, e);
      } else {
        match e {
          case Baud(x) => DecidedBaud(s, x);
          case Sender(x) => DecidedSend(s, x);
          case _ => OthersStep(s, e);
        }
      }
      NothingFails(Next(s, e), es[1..]);
    }
  }

  lemma {:induction false} CallReturns(s: State, es: seq<Event>)
    requires Legal(s, es) && Undecided(s.pc) && (forall e :: e in es ==> !Begins(e))
    requires Run(s, es).pc == Idle
    ensures Run(s, es).result == (match FirstFailure(es) case Some(err) => err case None => 0)
    ensures Run(s, es).result == 0 <==> Baud(Configure(0)) in es
    decreases |es|
  {
    if es != [] {
      var e := es[0];
      if e.Baud? {
        UndecidedStep(s, e.baud);
      } else {
        assert !e.Sender?;
        OthersStep(s, e);
      }
      var n := Next(s, e);
      if Undecided(n.pc) {
        CallReturns(n, es[1..]);
      } else {
        NothingFails(n, es[1..]);
      }
    }
  }

  /** The outcome's effect, kept up to the return. */
  predicate Effect(s: State, rate: nat, before: nat, applied: seq<nat>, err: int) {
    && s.rate == (if err == 0 then rate else before)
    && s.applied == applied + (if err == 0 then [rate] else []) && s.acked == s.applied
  }

  lemma {:induction false} CallEffect(s: State, es: seq<Event>)
    requires Inv(s) && Legal(s, es) && InCall(s.pc) && (forall e :: e in es ==> !Begins(e))
    requires Run(s, es).pc == Idle
    ensures Effect(Run(s, es), s.target, s.before, s.acked, Run(s, es).result)
    decreases |es|
  {
    if es != [] {
      var e := es[0];
      InvStep(s, e);
      CallScope(s, e);
      if InCall(Next(s, e).pc) {
        CallEffect(Next(s, e), es[1..]);
      } else {
        StaysReturned(Next(s, e), es[1..]);
      }
    }
  }

  lemma CallScope(s: State, e: Event)
    requires Inv(s) && InCall(s.pc) && CanStep(s, e) && !Begins(e)
    ensures var n := Next(s, e);
            && n.target == s.target && n.before == s.before
            && (if InCall(n.pc) then n.acked == s.acked
                else n.pc == Idle && Effect(n, s.target, s.before, s.acked, n.result))
  {
    match e {
      case Baud(x) => CallScopeBaud(s, x);
      case Sender(x) => CallScopeSend(s, x);
      case _ => OthersStep(s, e);
    }
  }

  lemma CallScopeBaud(s: State, e: BaudEvent)
    requires InCall(s.pc) && CanBaud(s, e) && !e.Call?
    ensures var n := NextBaud(s, e);
            n.target == s.target && n.before == s.before && InCall(n.pc) && n.acked == s.acked
  {
  }

  lemma CallScopeSend(s: State, e: SendEvent)
    requires BaudHonest(s) && InCall(s.pc) && CanSend(s, e) && !e.Put? && |s.tx.buf| == STAGE_SIZE
    ensures var n := NextSend(s, e);
            && n.target == s.target && n.before == s.before
            && (if InCall(n.pc) then n.acked == s.acked
                else n.pc == Idle && Effect(n, s.target, s.before, s.acked, n.result))
  {
  }

  lemma {:induction false} StaysReturned(s: State, es: seq<Event>)
    requires Legal(s, es) && s.pc == Idle && (forall e :: e in es ==> !Begins(e))
    ensures var r := Run(s, es);
            && r.pc == Idle && r.result == s.result && r.rate == s.rate && r.applied == s.applied && r.acked == s.acked
    decreases |es|
  {
    if es != [] {
      IdleWaits(s, es[0]);
      OthersStep(s, es[0]);
      StaysReturned(Next(s, es[0]), es[1..]);
    }
  }

  /** One whole call, with every other context interleaved: it returns 0 if disable
      answered 0 and the wait was given, or disable answered -EFAULT, and reading and
      writing the configuration answered 0; otherwise the first error, -ETIMEDOUT for
      the wait. It returns 0 exactly if uart_configure was called and answered 0, and then
      and only then the new rate is live, recorded and acknowledged. */
  lemma BaudCall(s: State, baud: nat, es: seq<Event>)
    requires Reachable(s) && CanStep(s, Baud(Call(baud)))
    requires Legal(Next(s, Baud(Call(baud))), es) && (forall e :: e in es ==> !Begins(e))
    requires Run(Next(s, Baud(Call(baud))), es).pc == Idle
    ensures var r := Run(Next(s, Baud(Call(baud))), es);
            && r.result == (match FirstFailure(es) case Some(err) => err case None => 0)
            && (r.result == 0 <==> Baud(Configure(0)) in es)
            && r.rate == (if r.result == 0 then baud else s.rate)
            && r.applied == s.applied + (if r.result == 0 then [baud] else [])
            && r.acked == s.acked + (if r.result == 0 then [baud] else [])
  {
    ReachableInv(s);
    InvStep(s, Baud(Call(baud)));
    CallReturns(Next(s, Baud(Call(baud))), es);
    CallEffect(Next(s, Baud(Call(baud))), es);
  }

  /** The wait is not satisfied by a DISABLED event of an earlier change: one has come
      since this change reset the semaphore. */
  lemma {:induction false} QuiesceIsFresh(s: State, es: seq<Event>)
    requires Legal(s, es) && (forall e :: e in es ==> !StartsChange(e))
    requires s.pc == BaudAborted || ((s.pc == BaudArmed || s.pc == BaudWaiting) && !s.rx.quiesced)
    requires Baud(Wait(true)) in es
    ensures exists e :: e in es && e.RxIsr? && e.rxIsr.RxDisabled?
    decreases |es|
  {
    var e := es[0];
    if !(e.RxIsr? && e.rxIsr.RxDisabled?) {
      BeforeQuiet(s, e);
      if Baud(Wait(true)) in es[1..] {
        if !(Next(s, e).pc == BaudArmed || Next(s, e).pc == BaudWaiting || Next(s, e).pc == BaudAborted) {
          NoMoreWaits(Next(s, e), es[1..]);
        }
        QuiesceIsFresh(Next(s, e), es[1..]);
        var d :| d in es[1..] && d.RxIsr? && d.rxIsr.RxDisabled?;
        assert d in es;
      }
    }
  }

  predicate PastWait(pc: Pc) {
    pc == BaudQuiet || pc == BaudConfig || !Undecided(pc) || pc.BaudRestart?
  }

  lemma BeforeQuiet(s: State, e: Event)
    requires CanStep(s, e) && !StartsChange(e) && !(e.RxIsr? && e.rxIsr.RxDisabled?)
    requires s.pc == BaudAborted || ((s.pc == BaudArmed || s.pc == BaudWaiting) && !s.rx.quiesced)
    ensures e != Baud(Wait(true))
    ensures var n := Next(s, e);
            || n.pc == BaudAborted || ((n.pc == BaudArmed || n.pc == BaudWaiting) && !n.rx.quiesced)
            || PastWait(n.pc)
  {
  }

  lemma StaysPast(s: State, e: Event)
    requires CanStep(s, e) && !StartsChange(e) && PastWait(s.pc)
    ensures PastWait(Next(s, e).pc) && e != Baud(Wait(true))
  {
    match e {
      case Baud(x) => BaudStaysPast(s, x);
      case Sender(x) => SendStaysPast(s, x);
      case _ => OthersStep(s, e);
    }
  }

  lemma BaudStaysPast(s: State, e: BaudEvent)
    requires CanBaud(s, e) && !e.Call? && PastWait(s.pc)
    ensures PastWait(NextBaud(s, e).pc) && e != Wait(true)
  {
  }

  lemma SendStaysPast(s: State, e: SendEvent)
    requires CanSend(s, e) && |s.tx.buf| == STAGE_SIZE
    ensures PastWait(NextSend(s, e).pc)
  {
  }

  lemma {:induction false} NoMoreWaits(s: State, es: seq<Event>)
    requires Legal(s, es) && PastWait(s.pc) && (forall e :: e in es ==> !StartsChange(e))
    ensures Baud(Wait(true)) !in es
    decreases |es|
  {
    if es != [] {
      StaysPast(s, es[0]);
      NoMoreWaits(Next(s, es[0]), es[1..]);
    }
  }

  // --- The retry work in a baud change -------------------------------------------------------------

  /** The steps that may put the retry work on the timer. */
  predicate MaySchedule(e: Event) {
    || (e.Retry? && (e.retry.Alloc? || e.retry.GiveBack?))
    || (e.RxIsr? && e.rxIsr.RxDisabled?)
    || e == Baud(Reschedule)
  }

  lemma StaysCancelled(s: State, e: Event)
    requires CanStep(s, e) && !s.rx.retryPending && !MaySchedule(e)
    ensures !Next(s, e).rx.retryPending && e != Retry(Fire)
  {
    match e {
      case Sender(x) => SendBystander(s, x);
      case TxIsr(_) =>
      case RxIsr(_) =>
      case Retry(_) =>
      case Baud(_) =>
    }
  }

  lemma {:induction false} NeverFires(s: State, es: seq<Event>)
    requires Legal(s, es) && !s.rx.retryPending && (forall e :: e in es ==> !MaySchedule(e))
    ensures Retry(Fire) !in es
    decreases |es|
  {
    if es != [] {
      StaysCancelled(s, es[0]);
      NeverFires(Next(s, es[0]), es[1..]);
    }
  }

  /** A baud change calls off a pending retry: the work does not fire unless it is scheduled
      anew. */
  lemma ChangeCancelsRetry(s: State, baud: nat, es: seq<Event>)
    requires CanStep(s, Baud(Call(baud))) && Legal(Next(s, Baud(Call(baud))), es)
    requires forall e :: e in es ==> !MaySchedule(e)
    ensures Retry(Fire) !in es
  {
    NeverFires(Next(s, Baud(Call(baud))), es);
  }
}
