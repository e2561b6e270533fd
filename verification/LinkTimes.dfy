/** What the timers of the link do and, as important, do not do before their time. */
module LinkTimes {
  import opened Words
  import opened LinkModel
  import opened LinkLaws
  import opened LinkRuns

  /** The time that passes in a stretch of a run. */
  function Elapsed(es: seq<Event>): nat {
    if es == [] then 0 else (if es[0].Tick? then es[0].ms else 0) + Elapsed(es[1..])
  }

  predicate Waits(e: Event, now: nat, until: nat) {
    e.Tick? ==> now + e.ms < until
  }

  // --- The relay is held for the whole grace window -----------------------------------------

  predicate RelayHeld(s: State, until: nat) {
    && s.app.relay && s.threads.work != GraceEntered
    && (s.timers.grace.Some? ==> s.timers.grace.value >= until)
    && s.timers.now < until <= s.timers.now + 60_000
  }

  lemma CallbackHoldsRelay(s: State, e: BtEvent, until: nat)
    requires CanCallback(s, e) && RelayHeld(s, until) && e != RelayApply
    ensures RelayHeld(NextCallback(s, e), until)
  {
  }

  lemma WorkHoldsRelay(s: State, e: WorkEvent, until: nat)
    requires CanWork(s, e) && RelayHeld(s, until)
    ensures RelayHeld(NextWork(s, e), until)
  {
    if e.SlowSwitch? {
      SlowScope(s, e.stopErr, e.inline, e.inlineErr, e.startErr);
    }
  }

  lemma StepHoldsRelay(s: State, e: Event, until: nat)
    requires CanStep(s, e) && RelayHeld(s, until) && e != Callback(RelayApply) && Waits(e, s.timers.now, until)
    ensures RelayHeld(Next(s, e), until)
  {
    match e {
      case Stack(_) =>
      case Callback(x) => CallbackHoldsRelay(s, x, until);
      case Adv(_) =>
      case OnWork(x) => WorkHoldsRelay(s, x, until);
      case OnWriter(_) =>
      case Tick(_) =>
    }
  }

  lemma StepElapses(s: State, e: Event)
    requires CanStep(s, e)
    ensures Next(s, e).timers.now == s.timers.now + if e.Tick? then e.ms else 0
  {
    match e {
      case Stack(_) =>
      case Callback(_) =>
      case Adv(_) =>
      case OnWork(x) =>
        if x.SlowSwitch? {
          SlowScope(s, x.stopErr, x.inline, x.inlineErr, x.startErr);
        }
      case OnWriter(_) =>
      case Tick(_) =>
    }
  }

  lemma {:induction false} StaysHeld(s: State, es: seq<Event>, until: nat)
    requires Legal(s, es) && RelayHeld(s, until) && Callback(RelayApply) !in es
    requires s.timers.now + Elapsed(es) < until
    ensures Run(s, es).app.relay
    decreases |es|
  {
    if es != [] {
      StepHoldsRelay(s, es[0], until);
      StepElapses(s, es[0]);
      StaysHeld(Next(s, es[0]), es[1..], until);
    }
  }

  /** A dropout does not cost the rider the relay: from the moment on_disconnected has
      started the grace window, unless a grace handler was already running, the relay
      stays on for as long as less than 60 s pass and no relay command is carried out,
      whatever connects, disconnects or runs meanwhile. */
  lemma RelaySurvives(s: State, es: seq<Event>)
    requires Reachable(s) && CanStep(s, Callback(GraceStart)) && s.app.relay && s.threads.work != GraceEntered
    requires Legal(Next(s, Callback(GraceStart)), es)
    requires Callback(RelayApply) !in es && Elapsed(es) < 60_000
    ensures Run(Next(s, Callback(GraceStart)), es).app.relay
  {
    ReachableInv(s);
    StaysHeld(Next(s, Callback(GraceStart)), es, s.timers.now + 60_000);
  }

  // --- The watchdog waits for the whole window ------------------------------------------------

  predicate Unwatched(w: Work) {
    w != WatchdogEntered && !w.WatchdogHolding?
  }

  predicate Patient(s: State, until: nat) {
    && Unwatched(s.threads.work)
    && (s.timers.watchdog.Some? ==> s.timers.watchdog.value >= until)
    && s.timers.now < until <= s.timers.now + 60_000
  }

  lemma CallbackPatient(s: State, e: BtEvent, until: nat)
    requires CanCallback(s, e) && Patient(s, until)
    ensures Patient(NextCallback(s, e), until)
  {
  }

  lemma WorkPatient(s: State, e: WorkEvent, until: nat)
    requires CanWork(s, e) && Patient(s, until)
    ensures Patient(NextWork(s, e), until) && e != WatchdogDisconnect
  {
    if e.SlowSwitch? {
      SlowScope(s, e.stopErr, e.inline, e.inlineErr, e.startErr);
    }
  }

  lemma StepPatient(s: State, e: Event, until: nat)
    requires CanStep(s, e) && Patient(s, until) && Waits(e, s.timers.now, until)
    ensures Patient(Next(s, e), until) && e != OnWork(WatchdogDisconnect)
  {
    match e {
      case Stack(_) =>
      case Callback(x) => CallbackPatient(s, x, until);
      case Adv(_) =>
      case OnWork(x) => WorkPatient(s, x, until);
      case OnWriter(_) =>
      case Tick(_) =>
    }
  }

  lemma {:induction false} StaysPatient(s: State, es: seq<Event>, until: nat)
    requires Legal(s, es) && Patient(s, until) && s.timers.now + Elapsed(es) < until
    ensures OnWork(WatchdogDisconnect) !in es
    decreases |es|
  {
    if es != [] {
      StepPatient(s, es[0], until);
      StepElapses(s, es[0]);
      StaysPatient(Next(s, es[0]), es[1..], until);
    }
  }

  /** A phone that is pairing is given its time: from the moment on_connected has armed the
      watchdog, unless its handler was already running, no disconnect is requested for as
      long as less than 60 s pass. */
  lemma WatchdogWaits(s: State, es: seq<Event>)
    requires CanStep(s, Callback(ArmWatchdog)) && Unwatched(s.threads.work)
    requires Legal(Next(s, Callback(ArmWatchdog)), es) && Elapsed(es) < 60_000
    ensures OnWork(WatchdogDisconnect) !in es
  {
    StaysPatient(Next(s, Callback(ArmWatchdog)), es, s.timers.now + 60_000);
  }

  /** And it is for strangers only: the handler takes the link to disconnect it exactly
      when there is one that has not encrypted. */
  lemma WatchdogSpares(s: State)
    requires Reachable(s) && CanStep(s, OnWork(WorkEvent.WatchdogRef))
    ensures var w := Next(s, OnWork(WorkEvent.WatchdogRef)).threads.work;
            && (w.WatchdogHolding? <==> s.app.cur.Some? && s.app.cur.value !in s.hist.encrypted)
            && (w.WatchdogHolding? ==> s.app.cur == Some(w.id))
  {
    ReachableInv(s);
  }

  // --- What a callback cancels stays cancelled ----------------------------------------------------

  lemma {:induction false} SlowStaysSilent(s: State, es: seq<Event>)
    requires Legal(s, es) && !s.timers.slow && Adv(ScheduleSlow) !in es && OnWork(SlowAgain) !in es
    ensures OnWork(SlowFire) !in es
    decreases |es|
  {
    if es != [] {
      SlowSilentStep(s, es[0]);
      SlowStaysSilent(Next(s, es[0]), es[1..]);
    }
  }

  lemma SlowSilentStep(s: State, e: Event)
    requires CanStep(s, e) && !s.timers.slow && e != Adv(ScheduleSlow) && e != OnWork(SlowAgain)
    ensures !Next(s, e).timers.slow && e != OnWork(SlowFire)
  {
    match e {
      case Stack(_) =>
      case Callback(_) =>
      case Adv(_) =>
      case OnWork(x) =>
        if x.SlowSwitch? {
          SlowScope(s, x.stopErr, x.inline, x.inlineErr, x.startErr);
        }
      case OnWriter(_) =>
      case Tick(_) =>
    }
  }

  /** After a connect the slow switch does not fire, unless it is scheduled anew. */
  lemma ConnectCancelsSlow(s: State, es: seq<Event>)
    requires CanStep(s, Callback(CancelSlow)) && Legal(Next(s, Callback(CancelSlow)), es)
    requires Adv(ScheduleSlow) !in es && OnWork(SlowAgain) !in es
    ensures OnWork(SlowFire) !in es
  {
    SlowStaysSilent(Next(s, Callback(CancelSlow)), es);
  }

  lemma {:induction false} WatchdogStaysSilent(s: State, es: seq<Event>)
    requires Legal(s, es) && s.timers.watchdog == None && Callback(ArmWatchdog) !in es
    ensures OnWork(WatchdogFire) !in es
    decreases |es|
  {
    if es != [] {
      WatchdogSilentStep(s, es[0]);
      WatchdogStaysSilent(Next(s, es[0]), es[1..]);
    }
  }

  lemma WatchdogSilentStep(s: State, e: Event)
    requires CanStep(s, e) && s.timers.watchdog == None && e != Callback(ArmWatchdog)
    ensures Next(s, e).timers.watchdog == None && e != OnWork(WatchdogFire)
  {
    match e {
      case Stack(_) =>
      case Callback(_) =>
      case Adv(_) =>
      case OnWork(x) =>
        if x.SlowSwitch? {
          SlowScope(s, x.stopErr, x.inline, x.inlineErr, x.startErr);
        }
      case OnWriter(_) =>
      case Tick(_) =>
    }
  }

  /** After encryption or a disconnect the watchdog does not fire until the next connect. */
  lemma CallbacksCancelWatchdog(s: State, x: BtEvent, es: seq<Event>)
    requires x == CancelWatchdog || x == DisconnectCancel
    requires CanStep(s, Callback(x)) && Legal(Next(s, Callback(x)), es) && Callback(ArmWatchdog) !in es
    ensures OnWork(WatchdogFire) !in es
  {
    WatchdogStaysSilent(Next(s, Callback(x)), es);
  }

  lemma {:induction false} GraceStaysSilent(s: State, es: seq<Event>)
    requires Legal(s, es) && s.timers.grace == None && Callback(GraceStart) !in es
    ensures OnWork(GraceFire) !in es
    decreases |es|
  {
    if es != [] {
      GraceSilentStep(s, es[0]);
      GraceStaysSilent(Next(s, es[0]), es[1..]);
    }
  }

  lemma GraceSilentStep(s: State, e: Event)
    requires CanStep(s, e) && s.timers.grace == None && e != Callback(GraceStart)
    ensures Next(s, e).timers.grace == None && e != OnWork(GraceFire)
  {
    match e {
      case Stack(_) =>
      case Callback(_) =>
      case Adv(_) =>
      case OnWork(x) =>
        if x.SlowSwitch? {
          SlowScope(s, x.stopErr, x.inline, x.inlineErr, x.startErr);
        }
      case OnWriter(_) =>
      case Tick(_) =>
    }
  }

  /** After encryption, and after an accepted relay command, the grace timer does not fire
      until the next disconnect. */
  lemma CallbacksCancelGrace(s: State, x: BtEvent, es: seq<Event>)
    requires || x == CancelGrace
             || (x == RelayCancel && s.threads.bt.NusRead? && s.threads.bt.secure && s.threads.bt.relay.Some?)
    requires CanStep(s, Callback(x)) && Legal(Next(s, Callback(x)), es) && Callback(GraceStart) !in es
    ensures OnWork(GraceFire) !in es
  {
    GraceStaysSilent(Next(s, Callback(x)), es);
  }

  // --- Intervals --------------------------------------------------------------------------------

  /** Brisk advertising does not go on for ever: as long as an advertiser is fast, the
      switch to the slow interval is scheduled, about to be, running, or to be tried again. */
  lemma FastAdvertisingEnds(s: State)
    requires Reachable(s) && s.host.obj.Advertiser? && !s.host.obj.slow
    ensures || s.timers.slow || s.threads.starting > 0
            || s.threads.work == SlowEntered || s.threads.work == SlowStopFailed
  {
    ReachableInv(s);
  }

  /** An advertiser comes up fast, but for the switch, which brings it up slow. */
  lemma Intervals(s: State, e: Event)
    requires Reachable(s) && CanStep(s, e)
    requires Next(s, e).host.obj.Advertiser? && Next(s, e).host.obj != s.host.obj
    ensures if Next(s, e).host.obj.slow then e.OnWork? && e.work.SlowSwitch? else e.Adv? && e.adv.Section?
  {
    ReachableInv(s);
    match e {
      case Stack(_) =>
      case Callback(_) =>
      case Adv(_) =>
      case OnWork(x) => SwitchIntervals(s, x);
      case OnWriter(_) =>
      case Tick(_) =>
    }
  }

  lemma SwitchIntervals(s: State, x: WorkEvent)
    requires Advertises(s) && Counts(s) && CallsBack(s) && CanWork(s, x)
    requires NextWork(s, x).host.obj.Advertiser? && NextWork(s, x).host.obj != s.host.obj
    ensures x.SlowSwitch? && NextWork(s, x).host.obj.slow
  {
  }
}
