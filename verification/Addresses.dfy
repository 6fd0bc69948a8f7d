/**
 IP addresses and prefixes as numbers, in the way net/netip treats them: a
 prefix contains an address of the same family, without a zone, whose leading
 bits are the prefix's own.
 */
module Addresses {

  datatype Address = Address(width: nat, value: nat, zoned: bool)

  /** `base` is the address the prefix was written with. */
  datatype Prefix = Prefix(width: nat, base: nat, bits: nat)

  predicate ValidPrefix(p: Prefix) { (p.width == 32 || p.width == 128) && p.base < Pow2(p.width) && p.bits <= p.width }

  /** What the parser returns. */
  type IPPrefix = p: Prefix | ValidPrefix(p) witness Prefix(32, 0, 0)

  function Pow2(k: nat): (r: nat)
    ensures r > 0
  {
    if k == 0 then 1 else 2 * Pow2(k - 1)
  }

  /** The number without its last k bits. */
  function Shift(x: nat, k: nat): nat {
    if k == 0 then x else Shift(x / 2, k - 1)
  }

  function HostBits(p: Prefix): nat
    requires p.bits <= p.width
  {
    p.width - p.bits
  }

  predicate Contains(p: Prefix, a: Address)
    requires p.bits <= p.width
  {
    !a.zoned && a.width == p.width && Shift(a.value, HostBits(p)) == Shift(p.base, HostBits(p))
  }

  function BaseOf(p: Prefix): Address { Address(p.width, p.base, false) }

  lemma {:induction false} ShiftAdds(x: nat, j: nat, k: nat)
    ensures Shift(Shift(x, j), k) == Shift(x, j + k)
  {
    if j > 0 {
      ShiftAdds(x / 2, j - 1, k);
    }
  }

  /** Numbers that agree on their leading bits agree on fewer leading bits. */
  lemma ShiftFurther(x: nat, y: nat, j: nat, k: nat)
    requires j <= k && Shift(x, j) == Shift(y, j)
    ensures Shift(x, k) == Shift(y, k)
  {
    ShiftAdds(x, j, k - j);
    ShiftAdds(y, j, k - j);
  }

  ghost predicate Overlap(p: Prefix, q: Prefix)
    requires p.bits <= p.width && q.bits <= q.width
  {
    exists a :: Contains(p, a) && Contains(q, a)
  }

  /** A shorter prefix that contains a longer one's base contains all of it. */
  lemma Covers(p: Prefix, q: Prefix, a: Address)
    requires p.bits <= q.bits <= q.width && p.width == q.width && Contains(p, BaseOf(q)) && Contains(q, a)
    ensures Contains(p, a)
  {
    ShiftFurther(a.value, q.base, HostBits(q), HostBits(p));
  }

  lemma CommonAddress(p: Prefix, q: Prefix, a: Address)
    requires p.bits <= q.bits <= q.width && p.width == q.width && Contains(p, a) && Contains(q, a)
    ensures Contains(p, BaseOf(q))
  {
    ShiftFurther(a.value, q.base, HostBits(q), HostBits(p));
  }

  /** Looking at the two base addresses detects every overlap of two prefixes, and nothing else. */
  lemma BasesDetectOverlap(p: Prefix, q: Prefix)
    requires p.bits <= p.width && q.bits <= q.width
    ensures Overlap(p, q) <==> Contains(p, BaseOf(q)) || Contains(q, BaseOf(p))
  {
    assert Contains(p, BaseOf(p)) && Contains(q, BaseOf(q));
    if Overlap(p, q) {
      var a :| Contains(p, a) && Contains(q, a);
      if p.bits <= q.bits {
        CommonAddress(p, q, a);
      } else {
        CommonAddress(q, p, a);
      }
    }
  }

  // ---------------------------------------------------------------------
  // First and last address of a prefix
  // ---------------------------------------------------------------------

  predicate Aligned(p: Prefix)
    requires p.bits <= p.width
  {
    p.base % Pow2(HostBits(p)) == 0
  }

  lemma {:induction false} ShiftDivides(x: nat, k: nat)
    ensures Shift(x, k) * Pow2(k) <= x < (Shift(x, k) + 1) * Pow2(k)
  {
    if k > 0 {
      ShiftDivides(x / 2, k - 1);
      var s, p := Shift(x, k), Pow2(k - 1);
      assert s * Pow2(k) == 2 * (s * p) && (s + 1) * Pow2(k) == 2 * ((s + 1) * p) by {
        DoubleProduct(s, p);
        DoubleProduct(s + 1, p);
      }
    }
  }

  lemma DoubleProduct(s: nat, p: nat)
    ensures s * (2 * p) == 2 * (s * p)
  {
  }

  lemma NextBlock(s: nat, t: nat, m: nat)
    requires s < t
    ensures (s + 1) * m <= t * m
  {
  }

  lemma BlocksAreDisjoint(s: nat, t: nat, m: nat, x: nat)
    requires m > 0 && s * m <= x < (s + 1) * m && t * m <= x < (t + 1) * m
    ensures s == t
  {
    if s < t {
      NextBlock(s, t, m);
    } else if t < s {
      NextBlock(t, s, m);
    }
  }

  lemma FourMoreBits(k: nat)
    ensures Pow2(k + 4) == 16 * Pow2(k)
  {
    assert Pow2(k + 4) == 2 * Pow2(k + 3) && Pow2(k + 3) == 2 * Pow2(k + 2) && Pow2(k + 2) == 2 * Pow2(k + 1);
  }

  lemma ShiftIsBlock(x: nat, k: nat, s: nat)
    ensures Shift(x, k) == s <==> s * Pow2(k) <= x < (s + 1) * Pow2(k)
  {
    ShiftDivides(x, k);
    if s * Pow2(k) <= x < (s + 1) * Pow2(k) {
      BlocksAreDisjoint(Shift(x, k), s, Pow2(k), x);
    }
  }

  /** The addresses of an aligned prefix are those from its base to its base with all host bits set. */
  lemma PrefixIsInterval(p: Prefix, a: Address)
    requires p.bits <= p.width && Aligned(p) && !a.zoned && a.width == p.width
    ensures Contains(p, a) <==> p.base <= a.value <= p.base + Pow2(HostBits(p)) - 1
  {
    var k, m := HostBits(p), Pow2(HostBits(p));
    var s, t := Shift(a.value, k), Shift(p.base, k);
    ShiftDivides(a.value, k);
    ShiftDivides(p.base, k);
    AlignedBase(p.base, t, m);
    assert (t + 1) * m == t * m + m;
    if p.base <= a.value <= p.base + m - 1 {
      BlocksAreDisjoint(s, t, m, a.value);
    }
  }

  lemma AlignedBase(base: nat, t: nat, m: nat)
    requires m > 0 && base % m == 0 && t * m <= base < (t + 1) * m
    ensures base == t * m
  {
    var q := base / m;
    assert base == q * m;
    BlocksAreDisjoint(q, t, m, base);
  }

  // ---------------------------------------------------------------------
  // Halves of a prefix
  // ---------------------------------------------------------------------

  lemma MultipleOf(s: nat, m: nat)
    requires m > 0
    ensures (s * m) % m == 0
  {
    var q := s * m / m;
    assert s * m == q * m + (s * m) % m;
    assert (q + 1) * m == q * m + m && (s + 1) * m == s * m + m;
    BlocksAreDisjoint(q, s, m, s * m);
  }

  lemma ShiftOfBlock(s: nat, k: nat)
    ensures Shift(s * Pow2(k), k) == s
  {
    var x, m := s * Pow2(k), Pow2(k);
    ShiftDivides(x, k);
    assert (s + 1) * m == s * m + m;
    BlocksAreDisjoint(Shift(x, k), s, m, x);
  }

  lemma {:induction false} ShiftPlus(x: nat, k: nat)
    ensures Shift(x + Pow2(k), k) == Shift(x, k) + 1
  {
    if k > 0 {
      assert (x + Pow2(k)) / 2 == x / 2 + Pow2(k - 1);
      ShiftPlus(x / 2, k - 1);
    }
  }

  /** A number that agrees with an address on its leading bits fits its width too. */
  lemma SameWidth(x: nat, y: nat, k: nat, width: nat)
    requires k <= width && Shift(x, k) == Shift(y, k) && x < Pow2(width)
    ensures y < Pow2(width)
  {
    ShiftFurther(x, y, k, width);
    ShiftDivides(x, width);
    ShiftDivides(y, width);
    if Shift(x, width) > 0 {
      NextBlock(0, Shift(x, width), Pow2(width));
    }
  }

  /** The prefix that is one bit shorter, without host bits. */
  function Parent(p: IPPrefix): (parent: IPPrefix)
    requires p.bits > 0
    ensures parent.width == p.width && parent.bits == p.bits - 1 && Aligned(parent) && Contains(parent, BaseOf(p))
  {
    var k := HostBits(p) + 1;
    ParentBase(p.base, k, p.width);
    Prefix(p.width, Shift(p.base, k) * Pow2(k), p.bits - 1)
  }

  lemma ParentBase(base: nat, k: nat, width: nat)
    requires k <= width && base < Pow2(width)
    ensures var parent := Shift(base, k) * Pow2(k);
      parent < Pow2(width) && parent % Pow2(k) == 0 && Shift(parent, k) == Shift(base, k)
  {
    ShiftOfBlock(Shift(base, k), k);
    MultipleOf(Shift(base, k), Pow2(k));
    SameWidth(base, Shift(base, k) * Pow2(k), k, width);
  }

  /** The two prefixes are the halves of one. */
  predicate Siblings(p: IPPrefix, q: IPPrefix) {
    && p.bits > 0 && p.width == q.width && p.bits == q.bits
    && Contains(Parent(p), BaseOf(q)) && !Contains(p, BaseOf(q))
  }

  lemma SiblingsMakeParent(p: IPPrefix, q: IPPrefix, a: Address)
    requires Siblings(p, q) && Contains(Parent(p), a)
    ensures Contains(p, a) || Contains(q, a)
  {
    var k := HostBits(p);
    OneBitLess(a.value, k);
    OneBitLess(p.base, k);
    OneBitLess(q.base, k);
  }

  lemma OneBitLess(x: nat, k: nat)
    ensures Shift(x, k + 1) == Shift(x, k) / 2
  {
    ShiftAdds(x, k, 1);
    assert Shift(Shift(x, k), 1) == Shift(x, k) / 2;
  }

  /** The number with bit k turned over. */
  lemma OtherBit(x: nat, k: nat) returns (other: nat)
    ensures Shift(other, k) != Shift(x, k) && Shift(other, k) / 2 == Shift(x, k) / 2
  {
    if Shift(x, k) % 2 == 0 {
      other := x + Pow2(k);
      ShiftPlus(x, k);
    } else {
      ShiftDivides(x, k);
      NextBlock(0, Shift(x, k), Pow2(k));
      other := x - Pow2(k);
      ShiftPlus(other, k);
    }
  }

  /** The prefix's first half is written with the same base; this is a base of the other half. */
  lemma OtherHalf(p: IPPrefix) returns (first: IPPrefix, second: IPPrefix)
    requires p.bits < p.width
    ensures first == p.(bits := p.bits + 1) && second.width == p.width && second.bits == p.bits + 1
    ensures Contains(p, BaseOf(second)) && !Contains(first, BaseOf(second))
  {
    var k := HostBits(p) - 1;
    var other := OtherBit(p.base, k);
    OneBitLess(p.base, k);
    OneBitLess(other, k);
    SameWidth(p.base, other, k + 1, p.width);
    first, second := p.(bits := p.bits + 1), Prefix(p.width, other, p.bits + 1);
  }

  lemma DifferInOneBit(left: IPPrefix, right: IPPrefix)
    requires left.bits > 0 && left.width == right.width && left.bits == right.bits
    requires Shift(left.base, HostBits(left) + 1) == Shift(right.base, HostBits(left) + 1)
    requires Shift(left.base, HostBits(left)) != Shift(right.base, HostBits(left))
    ensures Siblings(left, right)
  {
    assert Contains(Parent(left), BaseOf(left));
  }

  /** Two prefixes that are as long as the halves of another and have a base in each are its halves. */
  lemma HalvesAreSiblings(p: IPPrefix, left: IPPrefix, right: IPPrefix, first: IPPrefix, second: IPPrefix)
    requires p.bits < p.width && first == p.(bits := p.bits + 1)
    requires second.width == p.width && second.bits == p.bits + 1
    requires Contains(p, BaseOf(second)) && !Contains(first, BaseOf(second))
    requires left.bits == right.bits == p.bits + 1
    requires Contains(left, BaseOf(first)) && Contains(right, BaseOf(second))
    ensures Siblings(left, right)
  {
    var k := HostBits(left);
    ShiftFurther(left.base, p.base, k, k + 1);
    ShiftFurther(right.base, second.base, k, k + 1);
    DifferInOneBit(left, right);
  }
}
