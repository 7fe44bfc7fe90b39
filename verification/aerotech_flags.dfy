/**
 * The bit-layout enumerations of the Aerotech headers come in twins: a
 * mask enumeration whose members are (1u << k), and a *BITS enumeration
 * that gives each member's k. This module states what such a pair
 * promises and proves that a word built from the masks decodes back into
 * the flags it was built from. Words are unsigned integers, so a mask
 * (1u << k) is 2^k and the test word & mask != 0 is bit k of the word.
 */
module AerotechFlags {

  /** 2^n, the value of (1u << n) for n < 32. */
  function Pow2(n: nat): (p: nat)
    ensures p >= 1
  {
    if n == 0 then 1 else 2 * Pow2(n - 1)
  }

  /** A member of a mask enumeration beside its twin in the *BITS enumeration. */
  datatype Flag = Flag(mask: int, bit: int)

  /** Every mask is 1 shifted left by its twin's bit index, within a 32-bit word. */
  predicate Twinned(t: seq<Flag>)
  {
    forall k :: 0 <= k < |t| ==> 0 <= t[k].bit < 32 && t[k].mask == Pow2(t[k].bit)
  }

  /** The bit indices rise strictly in declaration order. */
  predicate Rising(t: seq<Flag>)
  {
    forall k :: 0 < k < |t| ==> t[k - 1].bit < t[k].bit
  }

  /** No bit index of the table is b. */
  predicate Unused(t: seq<Flag>, b: int)
  {
    forall k :: 0 <= k < |t| ==> t[k].bit != b
  }

  /** Bit b of word w: (w & (1u << b)) != 0. */
  predicate Test(w: nat, b: nat)
  {
    if b == 0 then w % 2 == 1 else Test(w / 2, b - 1)
  }

  /** The word whose set bits are the masks of the flags that are on. */
  function Encode(on: seq<bool>, t: seq<Flag>): (w: nat)
    requires |on| == |t| && Twinned(t)
  {
    if |t| == 0 then 0
    else (if on[0] then t[0].mask else 0) + Encode(on[1..], t[1..])
  }

  /** The flags a word reports: member k is on when its mask is set in the word. */
  function Decode(w: nat, t: seq<Flag>): (on: seq<bool>)
    requires Twinned(t)
    ensures |on| == |t|
    ensures forall k :: 0 <= k < |t| ==> on[k] == Test(w, t[k].bit)
  {
    if |t| == 0 then [] else [Test(w, t[0].bit)] + Decode(w, t[1..])
  }

  /** Shifting by a + c is shifting by a, then by c. */
  lemma {:induction false} Pow2Add(a: nat, c: nat)
    ensures Pow2(a + c) == Pow2(a) * Pow2(c)
  {
    if a > 0 {
      Pow2Add(a - 1, c);
      assert Pow2(a + c) == 2 * Pow2(a - 1 + c);
      assert 2 * (Pow2(a - 1) * Pow2(c)) == (2 * Pow2(a - 1)) * Pow2(c);
    }
  }

  /**
   * Below bit b the low part L is invisible: bit c >= b of L + 2^b * m is
   * bit c - b of m.
   */
  lemma {:induction false} TestAbove(low: nat, m: nat, b: nat, c: nat)
    requires low < Pow2(b) && b <= c
    ensures Test(low + Pow2(b) * m, c) == Test(m, c - b)
  {
    if b > 0 {
      var half := Pow2(b - 1);
      assert Pow2(b) * m == 2 * (half * m);
      assert (low + 2 * (half * m)) / 2 == low / 2 + half * m;
      TestAbove(low / 2, m, b - 1, c - 1);
    }
  }

  /** A table's flags, with every bit index lowered by lo. */
  function Lowered(t: seq<Flag>, lo: nat): (r: seq<Flag>)
    requires Twinned(t) && forall k :: 0 <= k < |t| ==> lo <= t[k].bit
    ensures |r| == |t| && Twinned(r)
    ensures forall k :: 0 <= k < |t| ==> r[k].bit == t[k].bit - lo
  {
    if |t| == 0 then []
    else [Flag(Pow2(t[0].bit - lo), t[0].bit - lo)] + Lowered(t[1..], lo)
  }

  lemma Distribute(p: int, a: int, b: int)
    ensures p * a + p * b == p * (a + b)
  {
  }

  /** A word built from masks at or above bit lo is 2^lo times the word of the lowered masks. */
  lemma {:induction false} EncodeLowered(on: seq<bool>, t: seq<Flag>, lo: nat)
    requires |on| == |t| && Twinned(t) && forall k :: 0 <= k < |t| ==> lo <= t[k].bit
    ensures Encode(on, t) == Pow2(lo) * Encode(on, Lowered(t, lo))
  {
    if |t| > 0 {
      var r := Lowered(t, lo);
      var p := Pow2(lo);
      assert r[1..] == Lowered(t[1..], lo);
      EncodeLowered(on[1..], t[1..], lo);
      var rest := Encode(on[1..], r[1..]);
      assert Encode(on[1..], t[1..]) == p * rest;
      Pow2Add(lo, t[0].bit - lo);
      var f0 := if on[0] then r[0].mask else 0;
      assert (if on[0] then t[0].mask else 0) == p * f0;
      assert Encode(on, r) == f0 + rest;
      Distribute(p, f0, rest);
    }
  }

  /**
   * Decoding undoes encoding: when the bit indices rise strictly, the word
   * built from a set of flags reports exactly those flags, so each flag of
   * a status word can be read independently of the others.
   */
  lemma {:induction false} DecodeEncode(on: seq<bool>, t: seq<Flag>)
    requires |on| == |t| && Twinned(t) && Rising(t)
    ensures Decode(Encode(on, t), t) == on
  {
    forall k | 0 <= k < |t|
      ensures Decode(Encode(on, t), t)[k] == on[k]
    {
      FlagOf(on, t, k);
    }
  }

  /** The word of the flags after the first, as a multiple of the next bit up. */
  function Above(on: seq<bool>, t: seq<Flag>): nat
    requires |on| == |t| > 0 && Twinned(t) && Rising(t)
  {
    RisingAbove(t);
    Encode(on[1..], Lowered(t[1..], t[0].bit + 1))
  }

  /** In a rising table every later bit lies above the first. */
  lemma RisingAbove(t: seq<Flag>)
    requires Rising(t) && |t| > 0
    ensures forall j :: 0 <= j < |t[1..]| ==> t[0].bit + 1 <= t[1..][j].bit
  {
    forall j | 0 <= j < |t[1..]|
      ensures t[0].bit + 1 <= t[1..][j].bit
    {
      RisingOrdered(t, 0, j + 1);
    }
  }

  /** The encoded word splits at the first flag's bit. */
  lemma EncodeHead(on: seq<bool>, t: seq<Flag>)
    requires |on| == |t| > 0 && Twinned(t) && Rising(t)
    ensures Encode(on[1..], t[1..]) == Pow2(t[0].bit + 1) * Above(on, t)
    ensures Encode(on, t) == (if on[0] then t[0].mask else 0) + Pow2(t[0].bit + 1) * Above(on, t)
  {
    RisingAbove(t);
    EncodeLowered(on[1..], t[1..], t[0].bit + 1);
  }

  /** Bit b of p * x + 2p * q, with p = 2^b and x a single bit, is x. */
  lemma LowBit(p: nat, b: nat, x: nat, q: nat)
    requires p == Pow2(b) && x < 2
    ensures Test(p * x + (2 * p) * q, b) == (x == 1)
  {
    Distribute(p, x, 2 * q);
    assert p * (2 * q) == (2 * p) * q;
    TestAbove(0, x + 2 * q, b, b);
    assert Test(x + 2 * q, 0) == ((x + 2 * q) % 2 == 1);
  }

  /** The first flag's bit of the encoded word is the first flag. */
  lemma FlagOfFirst(on: seq<bool>, t: seq<Flag>)
    requires |on| == |t| > 0 && Twinned(t) && Rising(t)
    ensures Test(Encode(on, t), t[0].bit) == on[0]
  {
    var b0 := t[0].bit;
    var x := if on[0] then 1 else 0;
    var p, q := Pow2(b0), Above(on, t);
    EncodeHead(on, t);
    assert Pow2(b0 + 1) == 2 * p;
    assert (if on[0] then t[0].mask else 0) == p * x;
    assert Encode(on, t) == p * x + (2 * p) * q;
    LowBit(p, b0, x, q);
  }

  /** Two words that differ only below bit b agree on every bit from b up. */
  lemma SameHigh(w1: nat, w2: nat, low1: nat, low2: nat, m: nat, b: nat, c: nat)
    requires low1 < Pow2(b) && low2 < Pow2(b) && b <= c
    requires w1 == low1 + Pow2(b) * m && w2 == low2 + Pow2(b) * m
    ensures Test(w1, c) == Test(w2, c)
  {
    TestAbove(low1, m, b, c);
    TestAbove(low2, m, b, c);
  }

  /** A later flag's bit does not see the first flag. */
  lemma FlagOfLater(on: seq<bool>, t: seq<Flag>, k: nat)
    requires |on| == |t| && Twinned(t) && Rising(t) && 0 < k < |t|
    ensures Test(Encode(on, t), t[k].bit) == Test(Encode(on[1..], t[1..]), t[k].bit)
  {
    var b0 := t[0].bit;
    var head := if on[0] then t[0].mask else 0;
    EncodeHead(on, t);
    RisingOrdered(t, 0, k);
    assert t[0].mask == Pow2(b0) && Pow2(b0 + 1) == 2 * Pow2(b0);
    SameHigh(Encode(on, t), Encode(on[1..], t[1..]), head, 0, Above(on, t), b0 + 1, t[k].bit);
  }

  /** Bit t[k].bit of the encoded word is flag k. */
  lemma {:induction false} FlagOf(on: seq<bool>, t: seq<Flag>, k: nat)
    requires |on| == |t| && Twinned(t) && Rising(t) && k < |t|
    ensures Test(Encode(on, t), t[k].bit) == on[k]
    decreases |t|
  {
    if k == 0 {
      FlagOfFirst(on, t);
    } else {
      FlagOfLater(on, t, k);
      FlagOf(on[1..], t[1..], k - 1);
    }
  }

  /** In a rising table every bit index lies below every later one. */
  lemma {:induction false} RisingOrdered(t: seq<Flag>, i: nat, j: nat)
    requires Rising(t) && i < j < |t|
    ensures t[i].bit < t[j].bit
    decreases j - i
  {
    if i + 1 < j {
      RisingOrdered(t, i + 1, j);
    }
  }

  /** A bit strictly between two neighbouring members of a rising table is unused. */
  lemma Gap(t: seq<Flag>, k: nat, b: int)
    requires Rising(t) && k + 1 < |t| && t[k].bit < b < t[k + 1].bit
    ensures Unused(t, b)
  {
    forall j | 0 <= j < |t|
      ensures t[j].bit != b
    {
      if j < k {
        RisingOrdered(t, j, k);
      } else if j > k + 1 {
        RisingOrdered(t, k + 1, j);
      }
    }
  }

  /** A bit below the first member of a rising table is unused. */
  lemma BelowFirst(t: seq<Flag>, b: int)
    requires Rising(t) && |t| > 0 && b < t[0].bit
    ensures Unused(t, b)
  {
    forall j | 0 < j < |t|
      ensures t[j].bit != b
    {
      RisingOrdered(t, 0, j);
    }
  }

  /** A bit above the last member of a rising table is unused. */
  lemma AboveLast(t: seq<Flag>, b: int)
    requires Rising(t) && |t| > 0 && t[|t| - 1].bit < b
    ensures Unused(t, b)
  {
    forall j | 0 <= j < |t| - 1
      ensures t[j].bit != b
    {
      RisingOrdered(t, j, |t| - 1);
    }
  }

  /** Distinct bit indices give distinct masks: the masks are distinct powers of two. */
  lemma DistinctMasks(t: seq<Flag>)
    requires Twinned(t) && Rising(t)
    ensures forall i, j :: 0 <= i < j < |t| ==> t[i].mask < t[j].mask
  {
    forall i, j | 0 <= i < j < |t|
      ensures t[i].mask < t[j].mask
    {
      RisingOrdered(t, i, j);
      Pow2Grows(t[i].bit, t[j].bit);
    }
  }

  /** Shifting further gives a larger mask. */
  lemma {:induction false} Pow2Grows(a: nat, c: nat)
    requires a < c
    ensures Pow2(a) < Pow2(c)
  {
    if a + 1 < c {
      Pow2Grows(a, c - 1);
    }
  }

  /**
   * A rising table of 32 bit indices within a 32-bit word uses every bit:
   * member k is bit k.
   */
  lemma FullWord(t: seq<Flag>)
    requires Twinned(t) && Rising(t) && |t| == 32
    ensures forall k :: 0 <= k < 32 ==> t[k].bit == k
  {
    forall k | 0 <= k < 32
      ensures t[k].bit == k
    {
      AtLeast(t, k);
      AtMost(t, k);
    }
  }

  /** In a rising table of bits from 0, member k is at least bit k. */
  lemma {:induction false} AtLeast(t: seq<Flag>, k: nat)
    requires Twinned(t) && Rising(t) && k < |t|
    ensures t[k].bit >= k
  {
    if k > 0 {
      AtLeast(t, k - 1);
    }
  }

  /** In a rising table of bits below 32, member k is at most bit 32 - |t| + k. */
  lemma {:induction false} AtMost(t: seq<Flag>, k: nat)
    requires Twinned(t) && Rising(t) && k < |t| <= 32
    ensures t[k].bit <= 32 - |t| + k
    decreases |t| - k
  {
    if k + 1 < |t| {
      AtMost(t, k + 1);
    }
  }
}
