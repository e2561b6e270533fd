/** nus_received in src/main.c: what a phone's write does, and what reaches the UART. */
module Downlink {
  import opened Words
  import opened ProxyCore
  import opened CommandLaws
  import opened Sequences

  datatype Action =
    | Refused                     // link not encrypted
    | Relay(enable: bool)
    | Baud(rate: u32)
    | Swallowed                   // framed for us, but malformed
    | Forward(bytes: seq<byte>)   // hook output for the UART

  function Dispatch(secure: bool, data: seq<byte>): Action {
    if !secure then Refused
    else match Classify(data).kind
      case NotCommand => Forward(data[..Min(|data|, PROC_BUF_SIZE)])
      case RelayEnable => Relay(true)
      case RelayDisable => Relay(false)
      case SetBaud => Baud(Classify(data).baud)
      case Invalid => Swallowed
  }

  /** What nus_received makes of any write: nothing under a closed gate, each command
      exactly of its packets, data of everything that is not framed. */
  lemma DispatchMeaning(data: seq<byte>)
    ensures Dispatch(false, data) == Refused
    ensures forall enable :: Dispatch(true, data) == Relay(enable) <==> IsRelay(data, enable)
    ensures forall rate: u32 :: Dispatch(true, data) == Baud(rate) <==> RateOf(data) == Some(rate)
    ensures Dispatch(true, data).Relay? ==> IsRelay(data, Dispatch(true, data).enable)
    ensures Dispatch(true, data).Baud? ==> RateOf(data) == Some(Dispatch(true, data).rate)
    ensures Dispatch(true, data).Forward? <==> !Framed(data)
  {
    ParsedMeaning(data);
  }

  /** The relay command a write holds, if it is one. */
  function RelayOf(data: seq<byte>): Option<bool> {
    match Classify(data).kind
    case RelayEnable => Some(true)
    case RelayDisable => Some(false)
    case _ => None
  }

  /** One write: the link that was up, the gate as nus_received read it, and the room the
      TX ring had when the write was acted on. */
  datatype Write = Write(link: Option<nat>, secure: bool, data: seq<byte>, room: nat)

  function Accepted(w: Write): seq<byte> {
    match Dispatch(w.secure, w.data)
    case Forward(bytes) => bytes[..Min(|bytes|, w.room)]
    case _ => []
  }

  /** The bytes a run of writes puts in the TX ring. */
  function Entered(ws: seq<Write>): seq<byte> {
    if ws == [] then [] else Entered(ws[..|ws| - 1]) + Accepted(ws[|ws| - 1])
  }

  /** The packet a command is, to be echoed if it takes effect. */
  function Commanded(w: Write): seq<seq<byte>> {
    if w.secure && (IsRelay(w.data, true) || IsRelay(w.data, false) || RateOf(w.data).Some?) then [w.data] else []
  }

  function Commands(ws: seq<Write>): seq<seq<byte>> {
    if ws == [] then [] else Commands(ws[..|ws| - 1]) + Commanded(ws[|ws| - 1])
  }

  /** The rate one write asks for. */
  function Asked(w: Write): seq<nat> {
    if w.secure && RateOf(w.data).Some? then [RateOf(w.data).value] else []
  }

  /** The rates a run of writes asks for. */
  function Rates(ws: seq<Write>): seq<nat> {
    if ws == [] then [] else Rates(ws[..|ws| - 1]) + Asked(ws[|ws| - 1])
  }

  /** The writes that carry data: encrypted link, not one of our packets. */
  predicate CarriesData(w: Write) {
    w.secure && !Framed(w.data)
  }

  function DataWrites(ws: seq<Write>): seq<Write> {
    if ws == [] then []
    else DataWrites(ws[..|ws| - 1]) + if CarriesData(ws[|ws| - 1]) then [ws[|ws| - 1]] else []
  }

  /** As much of a write as the hook's buffer and the ring have room for. */
  function Fit(w: Write): seq<byte> {
    w.data[..Min(Min(|w.data|, 512), w.room)]
  }

  function Fitting(ws: seq<Write>): seq<byte> {
    if ws == [] then [] else Fitting(ws[..|ws| - 1]) + Fit(ws[|ws| - 1])
  }

  function Payloads(ws: seq<Write>): seq<byte> {
    if ws == [] then [] else Payloads(ws[..|ws| - 1]) + ws[|ws| - 1].data
  }

  lemma OneMore(ws: seq<Write>, w: Write)
    ensures Entered(ws + [w]) == Entered(ws) + Accepted(w)
    ensures Rates(ws + [w]) == Rates(ws) + Asked(w)
    ensures Commands(ws + [w]) == Commands(ws) + Commanded(w)
    ensures DataWrites(ws + [w]) == DataWrites(ws) + if CarriesData(w) then [w] else []
    ensures Fitting(ws + [w]) == Fitting(ws) + Fit(w)
    ensures Payloads(ws + [w]) == Payloads(ws) + w.data
  {
    assert (ws + [w])[..|ws|] == ws;
  }

  /** A framed packet never reaches the UART, nor does anything from a link that is
      not encrypted; every other write of at most 512 bytes goes in verbatim, as far as
      there is room, and a longer one as far as the hook's buffer and the room go. */
  lemma WhatEnters(w: Write)
    ensures Accepted(w) == if CarriesData(w) then Fit(w) else []
    ensures |w.data| <= 512 && |w.data| <= w.room ==> Fit(w) == w.data
  {
    ParsedMeaning(w.data);
  }

  /** Of any list of writes, what enters is what fits of the data writes. */
  lemma {:induction false} EnteredFits(ws: seq<Write>)
    ensures Entered(ws) == Fitting(DataWrites(ws))
  {
    if ws != [] {
      var before, w := ws[..|ws| - 1], ws[|ws| - 1];
      assert ws == before + [w];
      EnteredFits(before);
      WhatEnters(w);
      OneMore(before, w);
      if CarriesData(w) {
        assert Accepted(w) == Fit(w);
        OneMore(DataWrites(before), w);
      } else {
        assert DataWrites(ws) == DataWrites(before);
        assert Entered(ws) == Entered(before);
      }
    }
  }

  lemma {:induction false} EnteredIsPayload(ws: seq<Write>)
    ensures Subsequence(Entered(ws), Payloads(DataWrites(ws)))
  {
    if ws != [] {
      var k := |ws| - 1;
      EnteredIsPayload(ws[..k]);
      WhatEnters(ws[k]);
      if CarriesData(ws[k]) {
        var n := |Accepted(ws[k])|;
        Whole(ws[k].data[..n]);
        Longer(ws[k].data[..n], ws[k].data[..n], ws[k].data[n..]);
        assert ws[k].data == ws[k].data[..n] + ws[k].data[n..];
        Joined(Entered(ws[..k]), Payloads(DataWrites(ws[..k])), Accepted(ws[k]), ws[k].data);
        OneMore(DataWrites(ws[..k]), ws[k]);
      } else {
        assert Entered(ws) == Entered(ws[..k]);
        assert DataWrites(ws) == DataWrites(ws[..k]);
      }
    }
  }

  /** Corrupting one byte of a command turns it into data: the motor sees all 16 bytes,
      the relay and the UART rate see nothing. */
  lemma CorruptedCommandIsData(link: Option<nat>, p: seq<byte>, i: nat, b: byte, room: nat)
    requires Framed(p) && i < CMD_LEN && b != p[i]
    ensures Accepted(Write(link, true, p, room)) == []
    ensures Dispatch(true, p[i := b]) == Forward(p[i := b])
    ensures room >= CMD_LEN ==> Accepted(Write(link, true, p[i := b], room)) == p[i := b]
  {
    SingleByteCorruption(p, i, b);
  }
}
