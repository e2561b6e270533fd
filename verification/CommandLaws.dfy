/** What the 16-byte command packet promises the phone. */
module CommandLaws {
  import opened Words
  import opened ProxyCore

  function Zeros(n: nat): seq<byte> {
    seq(n, i => 0)
  }

  function Le32Bytes(v: u32): seq<byte> {
    [v % 0x100, v / 0x100 % 0x100, v / 0x1_0000 % 0x100, v / 0x100_0000]
  }

  /** The packet layout of src/proxy_core.h, as the phone builds it. */
  function Build(op: byte, payload: seq<byte>): seq<byte>
    requires |payload| <= 12
  {
    var head: seq<byte> := [CMD_START, CMD_LEN, op] + payload + Zeros(12 - |payload|);
    head + [ByteSum(head) % 0x100]
  }

  lemma BuildIsFramed(op: byte, payload: seq<byte>)
    requires |payload| <= 12
    ensures Framed(Build(op, payload))
    ensures Build(op, payload)[2] == op && Build(op, payload)[3..3 + |payload|] == payload
  {
    var head: seq<byte> := [CMD_START, CMD_LEN, op] + payload + Zeros(12 - |payload|);
    assert Build(op, payload)[..15] == head;
  }

  lemma Le32RoundTrip(v: u32)
    ensures Le32(Le32Bytes(v)) == v
  {
    assert v / 0x1_0000 == v / 0x100 / 0x100;
    assert v / 0x100_0000 == v / 0x100 / 0x100 / 0x100;
  }

  lemma Le32Injective(s: seq<byte>)
    requires |s| == 4
    ensures Le32Bytes(Le32(s)) == s
  {
    var v := Le32(s);
    assert v % 0x100 == s[0] as int;
    assert v / 0x100 == (s[1] as int) + (s[2] as int) * 0x100 + (s[3] as int) * 0x1_0000;
    assert v / 0x1_0000 == (s[2] as int) + (s[3] as int) * 0x100;
    assert v / 0x100_0000 == s[3] as int;
  }

  /** The rates the controllers use. */
  const RATES: set<nat> := {1200, 9600, 19200, 38400, 57600, 115200}

  /** The packet for switching the relay, in the documentation's own numbers. */
  predicate IsRelay(p: seq<byte>, enable: bool) {
    Framed(p) && p[2] == 0x01 && p[3] == if enable then 1 else 0
  }

  /** The packet for a rate. */
  predicate IsBaud(p: seq<byte>, rate: nat) {
    Framed(p) && p[2] == 0x02 && rate in RATES && p[3..7] == Le32Bytes(rate)
  }

  /** The rate a packet spells, if it is one to be followed. */
  function RateOf(p: seq<byte>): Option<nat> {
    if Framed(p) && p[2] == 0x02 && Le32(p[3..7]) in RATES then Some(Le32(p[3..7])) else None
  }

  lemma RateSpelled(p: seq<byte>, rate: nat)
    ensures RateOf(p) == Some(rate) <==> IsBaud(p, rate)
  {
    if Framed(p) {
      Le32Injective(p[3..7]);
    }
    if IsBaud(p, rate) {
      Le32RoundTrip(rate);
    }
  }

  /** What the parser makes of any bytes at all: each command exactly of its packets, with
      the packet as its echo; INVALID, without an echo, of every other framed packet. */
  lemma ParsedMeaning(p: seq<byte>)
    ensures Classify(p).kind == NotCommand <==> !Framed(p)
    ensures Classify(p).kind == RelayEnable <==> IsRelay(p, true)
    ensures Classify(p).kind == RelayDisable <==> IsRelay(p, false)
    ensures Classify(p).kind == SetBaud <==> RateOf(p).Some?
    ensures Classify(p).kind == SetBaud ==> RateOf(p) == Some(Classify(p).baud)
    ensures Classify(p).ack == if IsRelay(p, true) || IsRelay(p, false) || RateOf(p).Some? then p else []
  {
    if Framed(p) {
      assert forall rate: u32 :: rate in SUPPORTED_BAUDS <==> rate in RATES;
    }
  }

  /** The three packets RELAY_COMMAND.md spells out. */
  lemma DocumentedPackets()
    ensures Classify([0x22, 0x10, 1, 1, 0, 0, 0, 0, 0, 0, 0, 0, 0, 0, 0, 0x34]).kind == RelayEnable
    ensures Classify([0x22, 0x10, 1, 0, 0, 0, 0, 0, 0, 0, 0, 0, 0, 0, 0, 0x33]).kind == RelayDisable
    ensures var c := Classify([0x22, 0x10, 2, 0x80, 0x25, 0, 0, 0, 0, 0, 0, 0, 0, 0, 0, 0xD9]);
            c.kind == SetBaud && c.baud == 9600
  {
    ShortSum([0x22, 0x10, 1, 1, 0, 0, 0, 0, 0, 0, 0, 0, 0, 0, 0, 0x34]);
    ShortSum([0x22, 0x10, 1, 0, 0, 0, 0, 0, 0, 0, 0, 0, 0, 0, 0, 0x33]);
    ShortSum([0x22, 0x10, 2, 0x80, 0x25, 0, 0, 0, 0, 0, 0, 0, 0, 0, 0, 0xD9]);
    assert [0x22, 0x10, 2, 0x80, 0x25, 0, 0, 0, 0, 0, 0, 0, 0, 0, 0, 0xD9][3..7] == [0x80, 0x25, 0, 0];
  }

  /** A packet whose payload ends after two bytes. */
  lemma ShortSum(p: seq<byte>)
    requires |p| == 16 && forall i :: 5 <= i < 15 ==> p[i] == 0
    ensures ByteSum(p[..15]) == (p[0] as int) + p[1] + p[2] + p[3] + p[4]
  {
    SumWithZeros(p[..5], 10);
    assert p[..15] == p[..5] + Zeros(10);
    SumOfFive(p[..5]);
  }

  lemma {:induction false} SumWithZeros(s: seq<byte>, n: nat)
    ensures ByteSum(s + Zeros(n)) == ByteSum(s)
  {
    if n == 0 {
      assert s + Zeros(0) == s;
    } else {
      SumWithZeros(s, n - 1);
      assert (s + Zeros(n))[..|s| + n - 1] == s + Zeros(n - 1);
    }
  }

  lemma SumOfFive(s: seq<byte>)
    requires |s| == 5
    ensures ByteSum(s) == (s[0] as int) + s[1] + s[2] + s[3] + s[4]
  {
    assert s[..1][..0] == [] && ByteSum(s[..1]) == s[0] as int;
    assert s[..2][..1] == s[..1] && ByteSum(s[..2]) == (s[0] as int) + s[1];
    assert s[..3][..2] == s[..2] && ByteSum(s[..3]) == (s[0] as int) + s[1] + s[2];
    assert s[..4][..3] == s[..3] && ByteSum(s[..4]) == (s[0] as int) + s[1] + s[2] + s[3];
  }

  /** Building then parsing recovers the relay command, with an exact echo. */
  lemma RelayRoundTrip(enable: bool)
    ensures var p := Build(OP_RELAY, [if enable then 1 else 0]);
            Classify(p) == Command(if enable then RelayEnable else RelayDisable, 0, p)
  {
    var payload: seq<byte> := [if enable then 1 else 0];
    BuildIsFramed(OP_RELAY, payload);
    assert Build(OP_RELAY, payload)[3..4][0] == Build(OP_RELAY, payload)[3];
  }

  /** Building then parsing recovers every supported rate; any other is refused
      without an ack. */
  lemma BaudRoundTrip(baud: u32)
    ensures var p := Build(OP_BAUD, Le32Bytes(baud));
            Classify(p) == if baud in RATES then Command(SetBaud, baud, p) else Command(Invalid, 0, [])
  {
    BuildIsFramed(OP_BAUD, Le32Bytes(baud));
    Le32RoundTrip(baud);
  }

  lemma {:induction false} ByteSumUpdate(s: seq<byte>, i: nat, b: byte)
    requires i < |s|
    ensures ByteSum(s[i := b]) == ByteSum(s) - s[i] + b
  {
    var n := |s| - 1;
    if i == n {
      assert s[i := b][..n] == s[..n];
    } else {
      assert s[i := b][..n] == s[..n][i := b];
      ByteSumUpdate(s[..n], i, b);
    }
  }

  /** Changing any single byte of a framed packet makes it ordinary data. */
  lemma SingleByteCorruption(p: seq<byte>, i: nat, b: byte)
    requires Framed(p) && i < CMD_LEN && b != p[i]
    ensures Classify(p[i := b]).kind == NotCommand
  {
    var q := p[i := b];
    if i < CMD_LEN - 1 {
      assert q[..CMD_LEN - 1] == p[..CMD_LEN - 1][i := b];
      ByteSumUpdate(p[..CMD_LEN - 1], i, b);
    } else {
      assert q[..CMD_LEN - 1] == p[..CMD_LEN - 1];
    }
  }
}
