/**
 * Guest memory as the monitor reaches it: a partial map from byte address
 * to byte. An operand of `n` bytes at address `a` occupies addresses
 * `a` .. `a + n - 1`, least significant byte first (x64 is little-endian).
 * Touching a byte the map does not hold is a fault in the monitor.
 */
module GuestMemory {
  import opened Wrappers
  import opened Bits

  type Memory = map<int, u8>

  /** The size of the 64-bit address space. */
  const AddressSpace: nat := 0x1_0000_0000_0000_0000

  /** Every mapped byte lies in the 64-bit address space. */
  ghost predicate InAddressSpace(m: Memory)
  {
    forall a | a in m :: 0 <= a < AddressSpace
  }

  /** 256 to the power `n`: the number of values `n` bytes can hold. */
  function Pow256(n: nat): (r: nat)
    ensures r > 0
  {
    if n == 0 then 1 else 256 * Pow256(n - 1)
  }

  /** Eight bytes hold exactly the 64-bit values. */
  lemma Pow256Eight()
    ensures Pow256(8) == AddressSpace
  {
  }

  /** More bytes hold more values. */
  lemma {:induction false} Pow256Monotonic(n: nat, k: nat)
    requires n <= k
    ensures Pow256(n) <= Pow256(k)
  {
    if n < k {
      Pow256Monotonic(n, k - 1);
    }
  }

  /** The `n` least significant bytes of `v`, least significant first. */
  function LeBytes(v: nat, n: nat): (bs: seq<u8>)
    ensures |bs| == n
  {
    if n == 0 then [] else [(v % 256) as u8] + LeBytes(v / 256, n - 1)
  }

  /** The value of the little-endian byte string `bs`; it fits in `|bs|` bytes. */
  function LeValue(bs: seq<u8>): (v: nat)
    ensures v < Pow256(|bs|)
  {
    if bs == [] then 0 else bs[0] as nat + 256 * LeValue(bs[1..])
  }

  /** Splitting off the low byte of `b + 256 * rest`. */
  lemma LowByte(b: nat, rest: nat)
    requires b < 256
    ensures (b + 256 * rest) % 256 == b
    ensures (b + 256 * rest) / 256 == rest
  {
  }

  /** Writing a value that fits into `n` bytes and reading them back gives the value. */
  lemma {:induction false} LeValueOfBytes(v: nat, n: nat)
    requires v < Pow256(n)
    ensures LeValue(LeBytes(v, n)) == v
  {
    if n > 0 {
      var bs := LeBytes(v, n);
      assert bs[1..] == LeBytes(v / 256, n - 1);
      LeValueOfBytes(v / 256, n - 1);
      assert LeValue(bs) == v % 256 + 256 * (v / 256);
    }
  }

  /** Reading a byte string as a value and writing it back gives the same bytes. */
  lemma {:induction false} LeBytesOfValue(bs: seq<u8>)
    ensures LeBytes(LeValue(bs), |bs|) == bs
  {
    if bs != [] {
      var rest := LeValue(bs[1..]);
      LowByte(bs[0] as nat, rest);
      LeBytesOfValue(bs[1..]);
      assert LeBytes(LeValue(bs), |bs|) == [bs[0]] + bs[1..];
    }
  }

  /** The `n` bytes at `a` are all mapped. */
  predicate Mapped(m: Memory, a: int, n: nat)
  {
    forall x | a <= x < a + n :: x in m
  }

  /** The `n` bytes at `a`, in address order. */
  function Load(m: Memory, a: int, n: nat): (bs: seq<u8>)
    requires Mapped(m, a, n)
    ensures |bs| == n
    ensures forall i | 0 <= i < n :: bs[i] == m[a + i]
  {
    seq(n, i requires 0 <= i < n => m[a + i])
  }

  /**
   * The memory after writing `bs` at `a`: the written bytes take the new
   * values, every other byte keeps its value, and nothing is mapped or
   * unmapped.
   */
  function Store(m: Memory, a: int, bs: seq<u8>): (m': Memory)
    requires Mapped(m, a, |bs|)
    ensures m'.Keys == m.Keys
    ensures forall i | 0 <= i < |bs| :: m'[a + i] == bs[i]
    ensures forall x | x in m && !(a <= x < a + |bs|) :: m'[x] == m[x]
  {
    map x | x in m :: if a <= x < a + |bs| then bs[x - a] else m[x]
  }

  /** Reading back what was just written gives the written bytes. */
  lemma LoadStore(m: Memory, a: int, bs: seq<u8>)
    requires Mapped(m, a, |bs|)
    ensures Mapped(Store(m, a, bs), a, |bs|)
    ensures Load(Store(m, a, bs), a, |bs|) == bs
  {
  }

  /**
   * The `n`-byte little-endian value at address `a`, or `None` when one of
   * its bytes is not mapped.
   */
  function LoadWord(m: Memory, a: int, n: nat): (r: Option<u64>)
    requires n <= 8
    ensures r.Some? <==> Mapped(m, a, n)
  {
    if Mapped(m, a, n) then Some(WordOf(Load(m, a, n))) else None
  }

  /** The word whose little-endian encoding is `bs`. */
  function WordOf(bs: seq<u8>): u64
    requires |bs| <= 8
  {
    Pow256Monotonic(|bs|, 8);
    Pow256Eight();
    LeValue(bs) as u64
  }

  /**
   * The value of the `n` low bytes of `v`: `v` modulo 256^n, what a store
   * of `n` bytes keeps of it (a cast to an `n`-byte unsigned type).
   */
  function Truncate(v: u64, n: nat): (r: nat)
    ensures r < Pow256(n)
  {
    (v as int) % Pow256(n)
  }

  /** The word made of the `n` low bytes of `v`, for `n` up to 8. */
  function LowBytes(v: u64, n: nat): u64
    requires n <= 8
  {
    Pow256Monotonic(n, 8);
    Pow256Eight();
    Truncate(v, n) as u64
  }

  /**
   * The memory after writing the `n` low bytes of `v` at address `a`, or
   * `None` when one of the bytes is not mapped.
   */
  function StoreWord(m: Memory, a: int, v: u64, n: nat): (r: Option<Memory>)
    ensures r.Some? <==> Mapped(m, a, n)
    ensures r.Some? ==> r.value.Keys == m.Keys
    ensures r.Some? ==> forall x | x in m && !(a <= x < a + n) :: r.value[x] == m[x]
  {
    if Mapped(m, a, n) then Some(Store(m, a, LeBytes(Truncate(v, n), n))) else None
  }

  /** A 64-bit word survives the trip through an integer. */
  lemma WordInt(x: u64)
    ensures (x as int) as u64 == x
  {
  }

  /** Eight bytes keep all of a 64-bit word. */
  lemma LowBytesEight(v: u64)
    ensures LowBytes(v, 8) == v
  {
    Pow256Eight();
    WordInt(v);
  }

  /** Writing a word leaves the word at a disjoint address as it was. */
  lemma LoadWordFrame(m: Memory, a: int, n: nat, b: int, v: u64, k: nat)
    requires n <= 8 && Mapped(m, b, k)
    requires a + n <= b || b + k <= a
    ensures LoadWord(StoreWord(m, b, v, k).value, a, n) == LoadWord(m, a, n)
  {
    var m' := StoreWord(m, b, v, k).value;
    if Mapped(m, a, n) {
      assert Mapped(m', a, n);
      assert Load(m', a, n) == Load(m, a, n);
    }
  }

  /** Two memories that agree on the `n` bytes at `a` hold the same word there. */
  lemma LoadWordAgrees(m: Memory, m': Memory, a: int, n: nat)
    requires n <= 8
    requires forall x | a <= x < a + n :: (x in m <==> x in m') && (x in m ==> m'[x] == m[x])
    ensures LoadWord(m', a, n) == LoadWord(m, a, n)
  {
    if Mapped(m, a, n) {
      assert Load(m', a, n) == Load(m, a, n);
    }
  }

  /**
   * A word written and read back at the same address and width is the
   * written value cut to that width.
   */
  lemma {:induction false} LoadStoreWord(m: Memory, a: int, v: u64, n: nat)
    requires n <= 8 && Mapped(m, a, n)
    ensures LoadWord(StoreWord(m, a, v, n).value, a, n) == Some(LowBytes(v, n))
  {
    var m' := StoreWordBytes(m, a, v, n);
    LeValueOfBytes(Truncate(v, n), n);
  }

  /** A stored word leaves its little-endian encoding in memory. */
  lemma StoreWordBytes(m: Memory, a: int, v: u64, n: nat) returns (m': Memory)
    requires Mapped(m, a, n)
    ensures StoreWord(m, a, v, n) == Some(m')
    ensures Mapped(m', a, n) && Load(m', a, n) == LeBytes(Truncate(v, n), n)
  {
    var bs := LeBytes(Truncate(v, n), n);
    m' := Store(m, a, bs);
    LoadStore(m, a, bs);
  }
}
