/** Machine words and the errno values the firmware compares against. */
module Words {
  const U32_RANGE := 0x1_0000_0000

  type byte = x: int | 0 <= x < 0x100
  type u16 = x: int | 0 <= x < 0x1_0000
  type u32 = x: int | 0 <= x < U32_RANGE

  // Zephyr's numbering; every call returns 0 or a negated code.
  const EAGAIN := 11
  const ENOMEM := 12
  const EFAULT := 14
  const EBUSY := 16
  const ENODEV := 19
  const ETIMEDOUT := 116

  datatype Option<+T> = None | Some(value: T)

  function Min(a: int, b: int): (m: int)
    ensures m <= a && m <= b && (m == a || m == b)
  {
    if a < b then a else b
  }

  /** atomic_add on a 32-bit counter. */
  function AddU32(a: u32, n: nat): u32 {
    (a + n) % U32_RANGE
  }

  /** A counter that agrees with a true total modulo 2^32 goes on agreeing. */
  lemma AddU32Tracks(a: u32, total: nat, n: nat)
    requires a == total % U32_RANGE
    ensures AddU32(a, n) == (total + n) % U32_RANGE
  {
  }

  /** uint32_t subtraction. */
  function SubU32(a: u32, b: u32): u32 {
    (a - b) % U32_RANGE
  }
}
