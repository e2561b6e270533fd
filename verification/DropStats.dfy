/** src/drop_stats.c and the report in uart_bridge_log_drops_if_due. */
module DropStats {
  import opened Words

  const REPORT_INTERVAL_MS: u32 := 10000

  /** drop_stats_rx_overflow. */
  function RxOverflow(attempted: u32, queued: u32): (lost: u32)
    ensures queued <= attempted ==> queued + lost == attempted
    ensures lost > 0 <==> queued < attempted
  {
    if queued < attempted then attempted - queued else 0
  }

  /** drop_stats_should_report, on the wrapping clock. */
  predicate ShouldReport(now: u32, last: u32, interval: u32, changed: bool) {
    changed && SubU32(now, last) >= interval
  }

  /** The static variables of uart_bridge_log_drops_if_due. */
  datatype Reported = Reported(rx: u32, tx: u32, ms: u32)

  /** One call: the counters it reads and the true time, which the firmware only
      sees modulo 2^32. */
  datatype Poll = Poll(time: nat, rx: u32, tx: u32)

  predicate Fires(r: Reported, p: Poll) {
    ShouldReport(p.time % U32_RANGE, r.ms, REPORT_INTERVAL_MS, p.rx != r.rx || p.tx != r.tx)
  }

  function After(r: Reported, p: Poll): Reported {
    if Fires(r, p) then Reported(p.rx, p.tx, p.time % U32_RANGE) else r
  }

  /** The reports of a run of calls, in order. */
  function Reports(r: Reported, polls: seq<Poll>): seq<Poll>
    decreases |polls|
  {
    if polls == [] then []
    else (if Fires(r, polls[0]) then [polls[0]] else []) + Reports(After(r, polls[0]), polls[1..])
  }

  /** Time never runs backwards. */
  ghost predicate Ordered(from: nat, polls: seq<Poll>) {
    && (forall i :: 0 <= i < |polls| ==> from <= polls[i].time)
    && (forall i, j :: 0 <= i < j < |polls| ==> polls[i].time <= polls[j].time)
  }

  /** `ps` starts at least one interval after `from`, keeps that distance, and each
      report differs from the one before in some counter. */
  ghost predicate Spaced(from: nat, rx: u32, tx: u32, ps: seq<Poll>)
    decreases |ps|
  {
    ps == [] || (
      && ps[0].time >= from + 10_000
      && (ps[0].rx != rx || ps[0].tx != tx)
      && Spaced(ps[0].time, ps[0].rx, ps[0].tx, ps[1..])
    )
  }

  /** The wrapped difference never exceeds the true one. */
  lemma WrappedElapsed(now: nat, last: nat)
    requires last <= now
    ensures SubU32(now % U32_RANGE, last % U32_RANGE) == (now - last) % U32_RANGE
    ensures (now - last) % U32_RANGE <= now - last
  {
    var a, b := now / U32_RANGE, last / U32_RANGE;
    assert now % U32_RANGE - last % U32_RANGE == now - last - U32_RANGE * (a - b);
  }

  /** Over any run of calls, however often the clock wraps: reports are at least
      10 s of true time apart and never repeat the counters already reported. */
  lemma {:induction false} ReportsSpaced(r: Reported, from: nat, polls: seq<Poll>)
    requires r.ms == from % U32_RANGE && Ordered(from, polls)
    ensures Spaced(from, r.rx, r.tx, Reports(r, polls))
    decreases |polls|
  {
    if polls != [] {
      var p := polls[0];
      WrappedElapsed(p.time, from);
      if Fires(r, p) {
        ReportsSpaced(After(r, p), p.time, polls[1..]);
        assert Reports(r, polls)[1..] == Reports(After(r, p), polls[1..]);
      } else {
        ReportsSpaced(r, from, polls[1..]);
        assert Reports(r, polls) == Reports(r, polls[1..]);
      }
    }
  }

  /** Exactly when a call reports: always when due, unless whole turns of the clock
      hide the elapsed time. Below 2^32 ms of elapsed time nothing is hidden. */
  lemma FiresExactly(r: Reported, from: nat, p: Poll)
    requires r.ms == from % U32_RANGE && from <= p.time
    ensures Fires(r, p) <==> (p.rx != r.rx || p.tx != r.tx) && (p.time - from) % U32_RANGE >= 10_000
    ensures p.time - from < U32_RANGE ==>
              (Fires(r, p) <==> (p.rx != r.rx || p.tx != r.tx) && p.time - from >= 10_000)
  {
    WrappedElapsed(p.time, from);
  }

  /** Past that bound a due report can be held back: one full turn after a report
      the clock reads as if no time had gone by. */
  lemma HiddenByWrap()
    ensures var r := Reported(0, 0, 0); var p := Poll(U32_RANGE, 1, 0);
            p.time - 0 >= REPORT_INTERVAL_MS && p.rx != r.rx && !Fires(r, p)
  {
    WrappedElapsed(U32_RANGE, 0);
  }

  /** The report state behind uart_bridge_log_drops_if_due. */
  class DropReporter {
    var lastRx: u32
    var lastTx: u32
    var lastReportMs: u32

    constructor ()
      ensures Value() == Reported(0, 0, 0)
    {
      lastRx, lastTx, lastReportMs := 0, 0, 0;
    }

    ghost function Value(): Reported
      reads this
    {
      Reported(lastRx, lastTx, lastReportMs)
    }

    method LogDropsIfDue(rx: u32, tx: u32, ghost time: nat, now: u32) returns (reported: bool)
      requires now == time % U32_RANGE
      modifies this
      ensures reported == Fires(old(Value()), Poll(time, rx, tx))
      ensures Value() == After(old(Value()), Poll(time, rx, tx))
    {
      var changed := rx != lastRx || tx != lastTx;
      reported := ShouldReport(now, lastReportMs, REPORT_INTERVAL_MS, changed);
      if reported {
        lastRx, lastTx, lastReportMs := rx, tx, now;
      }
    }
  }
}
