/** src/proxy_core.c: the decisions, free of the kernel and of Bluetooth. */
module ProxyCore {
  import opened Words

  const PROC_BUF_SIZE := 512

  const CMD_START: byte := 0x22
  const CMD_LEN := 16
  const CMD_PAYLOAD := 3
  const OP_RELAY: byte := 0x01
  const OP_BAUD: byte := 0x02

  const ATT_HEADER_LEN := 3
  const CHUNK_FALLBACK: u16 := 20

  const SECURITY_WINDOW_MS := 60000

  const SUPPORTED_BAUDS: seq<u32> := [1200, 9600, 19200, 38400, 57600, 115200]

  // --- Interception hooks ---------------------------------------------------

  /** on_uart_rx and on_ble_rx are the same copy-through stub. */
  method CopyHook(input: seq<byte>, out: array<byte>) returns (n: nat)
    modifies out
    ensures n == Min(|input|, out.Length)
    ensures out[..n] == input[..n]
    ensures out[n..] == old(out[n..])
  {
    n := if |input| < out.Length then |input| else out.Length;
    for i := 0 to n
      invariant out[..i] == input[..i]
      invariant out[n..] == old(out[n..])
    {
      out[i] := input[i];
    }
  }

  // --- Device-control command -----------------------------------------------

  datatype CmdKind = NotCommand | Invalid | RelayDisable | RelayEnable | SetBaud

  /** What a write means: `ack` is the echo owed to the phone, empty when none is. */
  datatype Command = Command(kind: CmdKind, baud: u32, ack: seq<byte>)

  function ByteSum(s: seq<byte>): nat {
    if s == [] then 0 else ByteSum(s[..|s| - 1]) + s[|s| - 1]
  }

  function Le32(s: seq<byte>): u32
    requires |s| == 4
  {
    (s[0] as int) + (s[1] as int) * 0x100 + (s[2] as int) * 0x1_0000 + (s[3] as int) * 0x100_0000
  }

  /** The framing gate: exactly our packet, self-consistent and with a good sum. */
  predicate Framed(p: seq<byte>) {
    && |p| == CMD_LEN
    && p[0] == CMD_START
    && p[1] == CMD_LEN
    && p[CMD_LEN - 1] == ByteSum(p[..CMD_LEN - 1]) % 0x100
  }

  /** The packet table of src/proxy_core.h, as one case per row. */
  function Classify(p: seq<byte>): Command {
    if !Framed(p) then Command(NotCommand, 0, [])
    else if p[2] == OP_RELAY && p[3] == 0 then Command(RelayDisable, 0, p)
    else if p[2] == OP_RELAY && p[3] == 1 then Command(RelayEnable, 0, p)
    else if p[2] == OP_BAUD && Le32(p[3..7]) in SUPPORTED_BAUDS then
      Command(SetBaud, Le32(p[3..7]), p)
    else Command(Invalid, 0, [])
  }

  method CmdChecksum(input: array<byte>) returns (sum: byte)
    requires input.Length >= CMD_LEN - 1
    ensures sum == ByteSum(input[..CMD_LEN - 1]) % 0x100
  {
    sum := 0;
    for i := 0 to CMD_LEN - 1
      invariant sum == ByteSum(input[..i]) % 0x100
    {
      assert input[..i + 1][..i] == input[..i];
      sum := (sum + input[i]) % 0x100;
    }
  }

  method BaudSupported(baud: u32) returns (ok: bool)
    ensures ok <==> baud in SUPPORTED_BAUDS
  {
    for i := 0 to |SUPPORTED_BAUDS|
      invariant baud !in SUPPORTED_BAUDS[..i]
    {
      if baud == SUPPORTED_BAUDS[i] {
        return true;
      }
    }
    return false;
  }

  /** struct proxy_cmd, filled in place by proxy_cmd_parse. */
  class ProxyCmd {
    var kind: CmdKind
    var baud: u32
    var ackLen: nat
    const ack: array<byte>

    constructor ()
      ensures fresh(ack) && ack.Length == CMD_LEN
    {
      kind, baud, ackLen := NotCommand, 0, 0;
      ack := new byte[CMD_LEN];
    }

    ghost predicate Valid()
      reads this
    {
      ackLen <= ack.Length == CMD_LEN
    }

    ghost function Value(): Command
      requires Valid()
      reads this, ack
    {
      Command(kind, baud, ack[..ackLen])
    }

    /** proxy_cmd_parse. */
    method Parse(input: array<byte>) returns (result: CmdKind)
      requires ack.Length == CMD_LEN && input != ack
      modifies this, ack
      ensures Valid() && Value() == Classify(input[..]) && result == kind
    {
      ghost var packet := input[..];
      kind, baud, ackLen := NotCommand, 0, 0;
      if input.Length != CMD_LEN || input[0] != CMD_START || input[1] != CMD_LEN {
        return kind;
      }
      var sum := CmdChecksum(input);
      assert input[..][..CMD_LEN - 1] == input[..CMD_LEN - 1];
      if input[CMD_LEN - 1] != sum {
        return kind;
      }
      if input[2] == OP_RELAY {
        if input[CMD_PAYLOAD] == 0 {
          kind := RelayDisable;
        } else if input[CMD_PAYLOAD] == 1 {
          kind := RelayEnable;
        } else {
          kind := Invalid;
        }
      } else if input[2] == OP_BAUD {
        var rate := Le32(input[CMD_PAYLOAD..CMD_PAYLOAD + 4]);
        assert input[..][3..7] == input[CMD_PAYLOAD..CMD_PAYLOAD + 4];
        var ok := BaudSupported(rate);
        if ok {
          kind := SetBaud;
          baud := rate;
        } else {
          kind := Invalid;
        }
      } else {
        kind := Invalid;
      }
      if kind != Invalid {
        forall i | 0 <= i < CMD_LEN {
          ack[i] := input[i];
        }
        ackLen := CMD_LEN;
        assert ack[..ackLen] == input[..];
      }
      assert input[..] == packet;
      assert kind == Classify(packet).kind;
      assert baud == Classify(packet).baud;
      assert ackLen == 0 ==> ack[..ackLen] == [];
      assert ack[..ackLen] == Classify(packet).ack;
      return kind;
    }
  }

  // --- Link policy ------------------------------------------------------------

  /** proxy_should_start_adv. */
  predicate ShouldStartAdv(connected: bool, advActive: bool) {
    !connected && !advActive
  }

  /** proxy_may_forward. */
  predicate MayForward(connected: bool, linkSecure: bool) {
    connected && linkSecure
  }

  /** proxy_security_window_ms: one window for both modes. */
  function SecurityWindowMs(lockedMode: bool): nat {
    SECURITY_WINDOW_MS
  }

  // --- NUS send policy --------------------------------------------------------

  /** proxy_nus_chunk_limit. Section 3.4.7.1 of Bluetooth Core Specification
      Vol 3 Part F leaves ATT_MTU - 3 octets for a notification's value. */
  function NusChunkLimit(attMtu: u16): (limit: u16)
    ensures limit > 0
    ensures attMtu >= 4 ==> limit + ATT_HEADER_LEN == attMtu
    ensures attMtu < 4 ==> limit == CHUNK_FALLBACK
    ensures attMtu <= PROC_BUF_SIZE + ATT_HEADER_LEN ==> limit <= PROC_BUF_SIZE
  {
    if attMtu > ATT_HEADER_LEN then attMtu - ATT_HEADER_LEN else CHUNK_FALLBACK
  }

  /** proxy_next_slice. */
  function NextSlice(outLen: nat, sent: nat, maxSend: u16): (slice: nat)
    ensures slice <= maxSend && (sent <= outLen ==> sent + slice <= outLen)
    ensures sent <= outLen ==> slice == maxSend || sent + slice == outLen
    ensures slice == 0 <==> sent >= outLen || maxSend == 0
  {
    if sent >= outLen then 0 else Min(outLen - sent, maxSend)
  }

  /** bt_nus_send found no buffer: it may find one later. */
  predicate Shortage(err: int) {
    err == -ENOMEM || err == -EAGAIN
  }

  datatype SendVerdict = Consumed | Retry | Drop

  /** proxy_send_result. */
  function SendResult(err: int): (v: SendVerdict)
    ensures (v == Consumed <==> err == 0) && (v == Retry <==> Shortage(err))
  {
    if err == 0 then Consumed
    else if err == -ENOMEM || err == -EAGAIN then Retry
    else Drop
  }
}
