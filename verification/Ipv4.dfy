/** IPv4 addresses as 32-bit words and CIDR blocks over them: the address arithmetic the policy
    loader borrows from Python's `ipaddress`, and the shift-and-mask arithmetic of the daemon. */
module Ipv4 {

  const WORD: int := 0x1_0000_0000
  const ALL_ONES: int := 0xFFFF_FFFF

  type Addr = x: int | 0 <= x < WORD

  /** A CIDR block; `prefix` counts the leading one bits of its mask (section 3.1 of RFC 4632). */
  datatype Subnet = Subnet(network: Addr, prefix: nat)

  // --- Words -----------------------------------------------------------------------------------

  function BitAnd(x: nat, y: nat): nat {
    if x == 0 then 0 else 2 * BitAnd(x / 2, y / 2) + if x % 2 == 1 && y % 2 == 1 then 1 else 0
  }

  function BitXor(x: nat, y: nat): nat
    decreases x + y
  {
    if x == 0 && y == 0 then 0 else 2 * BitXor(x / 2, y / 2) + if x % 2 != y % 2 then 1 else 0
  }

  function ShiftRight(x: nat, k: nat): nat {
    if k == 0 then x else ShiftRight(x / 2, k - 1)
  }

  /** `x << k` on a `uint32_t`: each doubling drops the carry out of bit 31. */
  function ShiftLeft32(x: Addr, k: nat): Addr
    decreases k
  {
    if k == 0 then x else ShiftLeft32(2 * x % WORD, k - 1)
  }

  function Pow2(k: nat): (p: nat)
    ensures p >= 1
  {
    if k == 0 then 1 else 2 * Pow2(k - 1)
  }

  // --- Masks and blocks ------------------------------------------------------------------------

  /** The netmask as `ipaddress` derives it. */
  function NetMask(prefix: nat): nat {
    BitXor(ALL_ONES, ShiftRight(ALL_ONES, prefix))
  }

  /** The netmask as the daemon derives it, with prefix 0 apart because shifting by the full width
      is undefined in C++. */
  function ShiftMask(prefix: nat): Addr
    requires prefix <= 32
  {
    if prefix == 0 then 0 else ShiftLeft32(ALL_ONES, 32 - prefix)
  }

  /** What `ip_network` accepts: a prefix of at most 32 and no host bits set. */
  predicate IsNetwork(s: Subnet) {
    s.prefix <= 32 && BitAnd(s.network, NetMask(s.prefix)) == s.network
  }

  function Broadcast(s: Subnet): nat
    requires s.prefix <= 32
  {
    s.network + Pow2(32 - s.prefix) - 1
  }

  /** `addr in subnet`. */
  predicate Contains(s: Subnet, a: nat) {
    BitAnd(a, NetMask(s.prefix)) == s.network
  }

  /** `s.overlaps(o)`: four end-point tests. */
  predicate Overlaps(s: Subnet, o: Subnet)
    requires s.prefix <= 32 && o.prefix <= 32
  {
    Contains(s, o.network) || Contains(s, Broadcast(o)) || Contains(o, s.network) || Contains(o, Broadcast(s))
  }

  // --- What they mean --------------------------------------------------------------------------

  /** The start of the block of size 2^k that holds `x`. */
  function BlockStart(x: nat, k: nat): nat {
    if k == 0 then x else 2 * BlockStart(x / 2, k - 1)
  }

  lemma {:induction false} Pow2Monotone(j: nat, k: nat)
    requires j <= k
    ensures Pow2(j) <= Pow2(k)
  {
    if j < k {
      Pow2Monotone(j, k - 1);
    }
  }

  lemma {:induction false} AndWithHighOnes(x: nat, k: nat, width: nat)
    requires k <= width && x < Pow2(width)
    ensures Pow2(k) <= Pow2(width) && BitAnd(x, Pow2(width) - Pow2(k)) == BlockStart(x, k)
  {
    Pow2Monotone(k, width);
    if width == 0 {
    } else if k == 0 {
      AndWithHighOnes(x / 2, 0, width - 1);
      assert (Pow2(width) - 1) / 2 == Pow2(width - 1) - 1;
    } else {
      Pow2Monotone(k - 1, width - 1);
      AndWithHighOnes(x / 2, k - 1, width - 1);
      assert (Pow2(width) - Pow2(k)) / 2 == Pow2(width - 1) - Pow2(k - 1);
      if x == 0 {
        AndWithHighOnes(0, k - 1, width - 1);
      }
    }
  }

  lemma {:induction false} ShiftedOnes(width: nat, k: nat)
    requires k <= width
    ensures ShiftRight(Pow2(width) - 1, k) == Pow2(width - k) - 1
  {
    if k > 0 {
      assert (Pow2(width) - 1) / 2 == Pow2(width - 1) - 1;
      ShiftedOnes(width - 1, k - 1);
    }
  }

  lemma {:induction false} XorZero(x: nat)
    ensures BitXor(x, 0) == x
  {
    if x > 0 {
      XorZero(x / 2);
    }
  }

  lemma XorOfOdds(x: nat, y: nat)
    ensures BitXor(2 * x + 1, 2 * y + 1) == 2 * BitXor(x, y)
  {
    assert (2 * x + 1) / 2 == x && (2 * y + 1) / 2 == y;
  }

  lemma {:induction false} XorOfOnes(width: nat, k: nat)
    requires k <= width
    ensures BitXor(Pow2(width) - 1, Pow2(k) - 1) == Pow2(width) - Pow2(k)
  {
    if k == 0 {
      XorZero(Pow2(width) - 1);
    } else {
      XorOfOnes(width - 1, k - 1);
      XorOfOdds(Pow2(width - 1) - 1, Pow2(k - 1) - 1);
    }
  }

  lemma DoublingDropsTheCarry(p: nat)
    requires 1 <= p && 2 * p <= WORD
    ensures 2 * (WORD - p) % WORD == WORD - 2 * p
  {
  }

  lemma Pow2FitsAWord(j: nat)
    requires j <= 32
    ensures Pow2(j) <= WORD
  {
    Pow2Monotone(j, 32);
    WordIsPow2();
  }

  lemma {:induction false} ShiftLeftOfHighOnes(j: nat, k: nat)
    requires j + k <= 32 && Pow2(j) <= WORD
    ensures ShiftLeft32(WORD - Pow2(j), k) == WORD - Pow2(j + k)
    decreases k
  {
    if k > 0 {
      Pow2FitsAWord(j + 1);
      DoublingDropsTheCarry(Pow2(j));
      ShiftLeftOfHighOnes(j + 1, k - 1);
    }
  }

  lemma WordIsPow2()
    ensures Pow2(32) == WORD
  {
    assert Pow2(8) == 0x100;
    assert Pow2(16) == 0x1_0000;
    assert Pow2(24) == 0x100_0000;
  }

  /** Python's netmask and the daemon's shifted mask are the same word, at every prefix from 0 to 32. */
  lemma MasksAgree(prefix: nat)
    requires prefix <= 32
    ensures Pow2(32 - prefix) <= WORD
    ensures NetMask(prefix) == ShiftMask(prefix) == WORD - Pow2(32 - prefix)
  {
    WordIsPow2();
    ShiftedOnes(32, prefix);
    XorOfOnes(32, 32 - prefix);
    ShiftLeftOfHighOnes(0, 32 - prefix);
  }

  lemma {:induction false} BlockStartIsFloor(x: nat, k: nat)
    ensures BlockStart(x, k) <= x < BlockStart(x, k) + Pow2(k)
    ensures BlockStart(BlockStart(x, k), k) == BlockStart(x, k)
  {
    if k > 0 {
      BlockStartIsFloor(x / 2, k - 1);
    }
  }

  lemma {:induction false} BlockStartIsInterval(n: nat, x: nat, k: nat)
    requires BlockStart(n, k) == n
    ensures BlockStart(x, k) == n <==> n <= x < n + Pow2(k)
  {
    if k > 0 {
      assert n == 2 * BlockStart(n / 2, k - 1);
      BlockStartIsInterval(n / 2, x / 2, k - 1);
    }
  }

  lemma MaskingIsBlockStart(prefix: nat, a: Addr)
    requires prefix <= 32
    ensures BitAnd(a, NetMask(prefix)) == BlockStart(a, 32 - prefix)
  {
    MasksAgree(prefix);
    WordIsPow2();
    AndWithHighOnes(a, 32 - prefix, 32);
  }

  /** Membership by mask is membership in the interval from the network to the broadcast address. */
  lemma ContainsIsInterval(s: Subnet, a: Addr)
    requires IsNetwork(s)
    ensures Contains(s, a) <==> s.network <= a <= Broadcast(s)
  {
    MaskingIsBlockStart(s.prefix, a);
    MaskingIsBlockStart(s.prefix, s.network);
    BlockStartIsInterval(s.network, a, 32 - s.prefix);
  }

  lemma {:induction false} BlockEndInside(n: nat, k: nat, width: nat)
    requires k <= width && BlockStart(n, k) == n && n < Pow2(width)
    ensures n + Pow2(k) <= Pow2(width)
  {
    if k > 0 {
      BlockEndInside(n / 2, k - 1, width - 1);
    }
  }

  lemma EndsAreMembers(s: Subnet)
    requires IsNetwork(s)
    ensures Broadcast(s) < WORD && s.network <= Broadcast(s)
    ensures Contains(s, s.network) && Contains(s, Broadcast(s))
  {
    MaskingIsBlockStart(s.prefix, s.network);
    WordIsPow2();
    BlockEndInside(s.network, 32 - s.prefix, 32);
    Pow2Monotone(0, 32 - s.prefix);
    ContainsIsInterval(s, Broadcast(s));
  }

  ghost predicate Disjoint(s: Subnet, o: Subnet) {
    forall a: Addr :: !(Contains(s, a) && Contains(o, a))
  }

  /** The four end-point tests find a common address exactly when there is one. */
  lemma OverlapsIsExact(s: Subnet, o: Subnet)
    requires IsNetwork(s) && IsNetwork(o)
    ensures Overlaps(s, o) <==> !Disjoint(s, o)
  {
    EndsAreMembers(s);
    EndsAreMembers(o);
    forall a: Addr | Contains(s, a) && Contains(o, a)
      ensures Overlaps(s, o)
    {
      ContainsIsInterval(s, a);
      ContainsIsInterval(o, a);
      ContainsIsInterval(s, o.network);
      ContainsIsInterval(o, s.network);
    }
  }

  lemma {:induction false} CoarserBlock(x: nat, y: nat, k: nat, j: nat)
    requires k <= j && BlockStart(x, k) == BlockStart(y, k)
    ensures BlockStart(x, j) == BlockStart(y, j)
  {
    if k > 0 {
      CoarserBlock(x / 2, y / 2, k - 1, j - 1);
    } else {
      assert x == y;
    }
  }

  /** CIDR blocks are nested or disjoint: a block sharing any address with one of a shorter or
      equal prefix lies inside it. */
  lemma NestedOrDisjoint(s: Subnet, o: Subnet, common: Addr, a: Addr)
    requires IsNetwork(s) && IsNetwork(o) && s.prefix <= o.prefix
    requires Contains(s, common) && Contains(o, common)
    ensures Contains(o, a) ==> Contains(s, a)
  {
    MaskingIsBlockStart(s.prefix, common);
    MaskingIsBlockStart(o.prefix, common);
    MaskingIsBlockStart(s.prefix, a);
    MaskingIsBlockStart(o.prefix, a);
    if Contains(o, a) {
      CoarserBlock(a, common, 32 - o.prefix, 32 - s.prefix);
    }
  }

  /** The daemon's test `(ip & mask) == (network & mask)`. */
  predicate MaskEqual(s: Subnet, a: Addr)
    requires s.prefix <= 32
  {
    BitAnd(a, ShiftMask(s.prefix)) == BitAnd(s.network, ShiftMask(s.prefix))
  }

  /** The daemon's mask test is membership in the block. */
  lemma MaskEqualIsContains(s: Subnet, a: Addr)
    requires IsNetwork(s)
    ensures MaskEqual(s, a) <==> Contains(s, a)
  {
    MasksAgree(s.prefix);
  }
}
