/** Bit-level helpers shared by the register-programming protocols.

    The firmware computes register contents from C `long` and `DWORD` values
    with shifts, masks and truncating assignments to `BYTE`. On the console's
    32-bit x86 a `long` is 32 bits wide, so every value that reaches a register
    is first taken to its 32-bit pattern (`Dw`), and the C idioms are then
    bit-vector operations:

      (DWORD)x stored to a register ==  ToDword(x)
      (DWORD)x, or a long's bits    ==  Dw(x)
      (BYTE)x                       ==  Lo8(Dw(x))
      (x >> k) & mask               ==  Field(Dw(x), k, mask)

    For `k <= 24` and an eight-bit mask the logical shift used here selects the
    same bits as C's arithmetic shift of a signed `long`. */
module Bits {

  /** A 32-bit memory-mapped register value (`DWORD`), as a number. */
  type Dword = x: int | 0 <= x < 0x1_0000_0000

  /** `(DWORD)x` as a number: `x` reduced modulo 2^32. */
  function ToDword(x: int): (d: Dword)
    ensures 0 <= x < 0x1_0000_0000 ==> d == x
  {
    x % 0x1_0000_0000
  }

  /** Adding to a wrapped value and wrapping again is adding and wrapping once. */
  lemma ToDwordAdd(x: int, k: int)
    ensures ToDword(x + k) == (ToDword(x) + k) % 0x1_0000_0000
  {
    var n := 0x1_0000_0000;
    var q := x / n;
    assert x == n * q + ToDword(x);
    assert x + k == (ToDword(x) + k) + n * q;
  }

  /** The 32-bit two's complement pattern of `x`: `(DWORD)x` as bits. */
  function Dw(x: int): bv32
  {
    (x % 0x1_0000_0000) as bv32
  }

  /** A number that fits in 32 bits converts to the bit pattern of the same value. */
  lemma DwFits(x: int, b: bv32)
    requires b as int == x
    ensures Dw(x) == b
  {
    BitsRoundTrip(b);
    ModSmall(b as int);
  }

  /** Reducing a number already below 2^32 leaves it unchanged. */
  lemma ModSmall(y: int)
    requires 0 <= y < 0x1_0000_0000
    ensures y % 0x1_0000_0000 == y
  {
  }

  /** Reading a bit pattern as a number and converting it back gives the pattern. */
  lemma BitsRoundTrip(b: bv32)
    ensures (b as int) as bv32 == b
  {
  }

  /** C division of a signed `long` by a positive constant: truncates toward zero. */
  function CDiv(a: int, d: int): (q: int)
    requires d > 0
    ensures a >= 0 ==> q == a / d
    ensures a < 0 ==> q == -((-a) / d)
  {
    if a >= 0 then a / d else -((-a) / d)
  }

  /** `(BYTE)x`: the low eight bits. */
  function Lo8(x: bv32): bv8
  {
    (x & 0xff) as bv8
  }

  /** `(x >> shift) & mask`, as a byte. The shift amount is a bit-vector so
      that a literal shift stays a constant for the solver. */
  function Field(x: bv32, shift: bv32, mask: bv8): bv8
    requires shift <= 24
  {
    ((x >> shift) & 0xff) as bv8 & mask
  }

  /** The read-modify-write step used by every masked register update: keep the
      bits of `prior` outside `mask` and put `field` (which lies inside `mask`) in. */
  function Merge(prior: bv8, mask: bv8, field: bv8): bv8
    requires field & !mask == 0
  {
    (prior & !mask) | field
  }

  /** After a merge the field reads back and every other bit is the prior one. */
  lemma MergeReadsBack(prior: bv8, mask: bv8, field: bv8)
    requires field & !mask == 0
    ensures Merge(prior, mask, field) & mask == field
    ensures Merge(prior, mask, field) & !mask == prior & !mask
  {
  }

  /** A merge leaves the bits outside its mask as they were. */
  lemma MergeKeeps(prior: bv8, mask: bv8, field: bv8, keep: bv8)
    requires field & !mask == 0
    requires mask & keep == 0
    ensures Merge(prior, mask, field) & keep == prior & keep
  {
  }

  /** A register bank: 256 byte registers. */
  predicate IsBank(s: seq<bv8>)
  {
    |s| == 256
  }

  /** `r` differs from `o` at most in the registers listed in `written`. */
  predicate OnlyWrites(o: seq<bv8>, r: seq<bv8>, written: set<int>)
  {
    IsBank(o) && IsBank(r) && forall i :: 0 <= i < 256 && i !in written ==> r[i] == o[i]
  }

  /** Two steps that each write within their own sets write within the union. */
  lemma OnlyWritesTrans(a: seq<bv8>, b: seq<bv8>, c: seq<bv8>, s1: set<int>, s2: set<int>, s: set<int>)
    requires OnlyWrites(a, b, s1) && OnlyWrites(b, c, s2) && s1 + s2 <= s
    ensures OnlyWrites(a, c, s)
  {
  }
}

/** The order in which a device sees the stores made to it. */
module Traces {

  /** A store trace, most recent store last: `Then(t, w)` is `t` followed by `w`. */
  datatype Trace<T> = Empty | Then(before: Trace<T>, last: T)
}

/** An optional value. */
module Options {

  datatype Option<T> = None | Some(value: T)
}
