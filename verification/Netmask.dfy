/**
 The netmask validator of snmp.c: four parsed numbers are packed into an unsigned
 32-bit word, and the word is accepted when the two's complement of it is zero or a
 single bit.  Unsigned arithmetic is modelled on naturals with explicit wrap-around at
 width w; the bit trick is justified for every w and then used at w = 32.
 */
module Netmask {

  /** The number of values of the C type `unsigned int`. */
  const WORD: nat := 0x1_0000_0000

  function Pow2(n: nat): (r: nat)
    ensures r >= 1
  {
    if n == 0 then 1 else 2 * Pow2(n - 1)
  }

  /** Bit i of x, bit 0 being the least significant. */
  predicate Bit(x: nat, i: nat) {
    if i == 0 then x % 2 == 1 else Bit(x / 2, i - 1)
  }

  /** The machine operator `&` on unsigned words of any width. */
  function And(x: nat, y: nat): nat {
    if x == 0 || y == 0 then 0 else (x % 2) * (y % 2) + 2 * And(x / 2, y / 2)
  }

  /** Complement, increment and decrement of a w-bit unsigned word. */
  function Complement(x: nat, w: nat): nat
    requires x < Pow2(w)
  {
    Pow2(w) - 1 - x
  }

  function Increment(x: nat, w: nat): nat {
    if x + 1 == Pow2(w) then 0 else x + 1
  }

  function Decrement(x: nat, w: nat): nat {
    if x == 0 then Pow2(w) - 1 else x - 1
  }

  /** A contiguous prefix mask: the top p of the w bits are ones, the rest are zeros. */
  ghost predicate IsPrefixMask(v: nat, p: nat, w: nat)
    requires p <= w
  {
    v < Pow2(w) && forall i: nat :: i < w ==> (Bit(v, i) <==> w - p <= i)
  }

  // -------------------------------------------------------------------- bits

  lemma {:induction false} ZeroHasNoBits(i: nat)
    ensures !Bit(0, i)
  {
    if i > 0 {
      ZeroHasNoBits(i - 1);
    }
  }

  lemma {:induction false} AndBits(x: nat, y: nat, i: nat)
    ensures Bit(And(x, y), i) <==> Bit(x, i) && Bit(y, i)
  {
    if x == 0 || y == 0 {
      ZeroHasNoBits(i);
    } else {
      var low := (x % 2) * (y % 2);
      assert low == if x % 2 == 1 && y % 2 == 1 then 1 else 0;
      assert And(x, y) % 2 == low && And(x, y) / 2 == And(x / 2, y / 2);
      if i > 0 {
        AndBits(x / 2, y / 2, i - 1);
      }
    }
  }

  lemma BitSquared(b: nat)
    requires b <= 1
    ensures b * b == b
  {
    assert b == 0 || b == 1;
  }

  lemma {:induction false} AndSelf(x: nat)
    ensures And(x, x) == x
  {
    if x > 0 {
      AndSelf(x / 2);
      BitSquared(x % 2);
    }
  }

  lemma {:induction false} PowerHasOneBit(k: nat)
    ensures And(Pow2(k), Pow2(k) - 1) == 0
  {
    if k > 0 {
      var half := Pow2(k - 1);
      PowerHasOneBit(k - 1);
      assert (2 * half - 1) / 2 == half - 1;
      assert And(2 * half, 2 * half - 1) == 2 * And(half, half - 1);
    }
  }

  lemma OddKeepsBits(x: nat)
    requires x > 1 && x % 2 == 1
    ensures And(x, x - 1) != 0
  {
    AndSelf(x / 2);
    assert And(x, x - 1) == 2 * And(x / 2, x / 2);
  }

  lemma {:induction false} OneBitIsPower(x: nat) returns (k: nat)
    requires x > 0 && And(x, x - 1) == 0
    ensures x == Pow2(k)
  {
    k := 0;
    if x % 2 == 1 {
      if x > 1 {
        OddKeepsBits(x);
      }
    } else {
      var half := x / 2;
      assert (x - 1) / 2 == half - 1;
      assert And(x, x - 1) == 2 * And(half, half - 1);
      k := OneBitIsPower(half);
      k := k + 1;
    }
  }

  /** Clearing the lowest set bit leaves nothing exactly when there is only one bit. */
  lemma ClearLowestBit(x: nat)
    requires x > 0
    ensures And(x, x - 1) == 0 <==> exists k: nat :: x == Pow2(k)
  {
    if And(x, x - 1) == 0 {
      var k := OneBitIsPower(x);
    }
    if k: nat :| x == Pow2(k) {
      PowerHasOneBit(k);
    }
  }

  lemma {:induction false} Pow2Mono(k: nat, w: nat)
    requires k <= w
    ensures Pow2(k) <= Pow2(w)
    ensures k < w ==> Pow2(k) < Pow2(w)
    decreases w
  {
    if k < w {
      Pow2Mono(k, w - 1);
    }
  }

  lemma {:induction false} BitsDetermine(u: nat, v: nat, w: nat)
    requires u < Pow2(w) && v < Pow2(w)
    requires forall i: nat :: i < w ==> (Bit(u, i) <==> Bit(v, i))
    ensures u == v
  {
    if w > 0 {
      assert Bit(u, 0) <==> Bit(v, 0);
      forall i: nat | i < w - 1
        ensures Bit(u / 2, i) <==> Bit(v / 2, i)
      {
        assert Bit(u, i + 1) <==> Bit(v, i + 1);
      }
      BitsDetermine(u / 2, v / 2, w - 1);
    }
  }

  lemma {:induction false} PrefixValueBits(k: nat, w: nat, i: nat)
    requires k <= w && i < w
    ensures Pow2(k) <= Pow2(w)
    ensures Bit(Pow2(w) - Pow2(k), i) <==> k <= i
  {
    Pow2Mono(k, w);
    var v := Pow2(w) - Pow2(k);
    if k == 0 {
      assert v % 2 == 1;
      if i > 0 {
        PrefixValueBits(0, w - 1, i - 1);
        assert v / 2 == Pow2(w - 1) - 1;
      }
    } else {
      assert v == 2 * (Pow2(w - 1) - Pow2(k - 1));
      if i > 0 {
        PrefixValueBits(k - 1, w - 1, i - 1);
      }
    }
  }

  /** The arithmetic and the bitwise reading of "contiguous prefix mask" agree. */
  lemma PrefixMaskValue(v: nat, p: nat, w: nat)
    requires p <= w
    ensures IsPrefixMask(v, p, w) <==> v == Pow2(w) - Pow2(w - p)
  {
    Pow2Mono(w - p, w);
    var m := Pow2(w) - Pow2(w - p);
    forall i: nat | i < w
      ensures Bit(m, i) <==> w - p <= i
    {
      PrefixValueBits(w - p, w, i);
    }
    if IsPrefixMask(v, p, w) {
      BitsDetermine(v, m, w);
    }
  }

  // --------------------------------------------------------------- validator

  /** What the validator tests on a w-bit word. */
  predicate TrickAccepts(b: nat, w: nat)
    requires b < Pow2(w)
  {
    var x := Increment(Complement(b, w), w);
    And(x, Decrement(x, w)) == 0
  }

  lemma {:induction false} PowerBelow(k: nat, w: nat)
    requires Pow2(k) < Pow2(w)
    ensures k < w
  {
    if w <= k {
      Pow2Mono(w, k);
    }
  }

  /** The bit trick accepts exactly the contiguous prefix masks, at every width. */
  lemma TrickIsPrefixTest(b: nat, w: nat)
    requires b < Pow2(w)
    ensures TrickAccepts(b, w) <==> exists p: nat :: p <= w && IsPrefixMask(b, p, w)
  {
    if b == 0 {
      assert Increment(Complement(b, w), w) == 0;
      PrefixMaskValue(0, 0, w);
      assert IsPrefixMask(b, 0, w);
    } else {
      var x := Pow2(w) - b;
      ClearLowestBit(x);
      if k: nat :| x == Pow2(k) {
        PowerBelow(k, w);
        PrefixMaskValue(b, w - k, w);
        assert IsPrefixMask(b, w - k, w);
      }
      if p: nat :| p <= w && IsPrefixMask(b, p, w) {
        PrefixMaskValue(b, p, w);
        assert x == Pow2(w - p);
      }
    }
  }

  lemma WordSizes()
    ensures Pow2(0) == 1 && Pow2(8) == 0x100 && Pow2(16) == 0x1_0000
    ensures Pow2(24) == 0x100_0000 && Pow2(32) == WORD
  {
  }

  // --------------------------------------------------------------- validator

  /** A 32-bit word that is a prefix mask for some prefix length, 0 and 32 included. */
  ghost predicate IsMaskWord(v: nat) {
    exists p: nat :: p <= 32 && IsPrefixMask(v, p, 32)
  }

  /** The number the dotted quad denotes, most significant part first. */
  function Positional(a: seq<nat>): nat
    requires |a| == 4
  {
    a[0] * 0x100_0000 + a[1] * 0x1_0000 + a[2] * 0x100 + a[3]
  }

  /** For octets that is the word whose bytes they are, the first one topmost. */
  lemma PositionalBytes(a: seq<nat>)
    requires |a| == 4
    requires forall i :: 0 <= i < 4 ==> a[i] <= 255
    ensures var v := Positional(a);
            && v / 0x100_0000 == a[0] && v / 0x1_0000 % 0x100 == a[1]
            && v / 0x100 % 0x100 == a[2] && v % 0x100 == a[3]
  {
    Quotient24(a[0], a[1] * 0x1_0000 + a[2] * 0x100 + a[3]);
    Quotient16(a[0] * 0x100 + a[1], a[2] * 0x100 + a[3]);
    Quotient8(a[0], a[1]);
    Quotient8(a[0] * 0x100 + a[1], a[2]);
    Quotient8((a[0] * 0x100 + a[1]) * 0x100 + a[2], a[3]);
  }

  lemma Quotient8(q: nat, r: nat)
    requires r < 0x100
    ensures (q * 0x100 + r) / 0x100 == q && (q * 0x100 + r) % 0x100 == r
  {
  }

  lemma Quotient16(q: nat, r: nat)
    requires r < 0x1_0000
    ensures (q * 0x1_0000 + r) / 0x1_0000 == q
  {
  }

  lemma Quotient24(q: nat, r: nat)
    requires r < 0x100_0000
    ensures (q * 0x100_0000 + r) / 0x100_0000 == q
  {
  }

  /** The first i terms of the packing sum, least significant part first, unwrapped. */
  function PartialSum(a: seq<nat>, i: nat): nat
    requires |a| == 4 && i <= 4
  {
    if i == 0 then 0 else PartialSum(a, i - 1) + a[4 - i] * Pow2((i - 1) * 8)
  }

  lemma PartialSumIsPositional(a: seq<nat>)
    requires |a| == 4
    ensures PartialSum(a, 4) == Positional(a)
  {
    WordSizes();
    assert PartialSum(a, 1) == a[3];
    assert PartialSum(a, 2) == a[3] + a[2] * 0x100;
    assert PartialSum(a, 3) == a[3] + a[2] * 0x100 + a[1] * 0x1_0000;
  }

  /** Wrapping each addition is wrapping the sum once. */
  lemma WrapAdd(x: nat, y: nat)
    ensures (x % WORD + y % WORD) % WORD == (x + y) % WORD
  {
  }

  /** is_valid_netmask, from the point where inet_aton has answered and sscanf has
      filled its four unsigned variables; `parsed` lists them in textual order. */
  method IsValidNetmask(isIp: bool, parsed: seq<nat>) returns (ret: int)
    requires |parsed| == 4
    requires forall i :: 0 <= i < 4 ==> parsed[i] < WORD
    ensures ret == 0 || ret == -1
    ensures ret == 0 <==> isIp && IsMaskWord(Positional(parsed) % WORD)
  {
    if isIp {
      var n := new nat[4];
      n[3], n[2], n[1], n[0] := parsed[0], parsed[1], parsed[2], parsed[3];
      var b := 0;
      var i := 0;
      while i < 4
        invariant 0 <= i <= 4
        invariant n[3] == parsed[0] && n[2] == parsed[1] && n[1] == parsed[2] && n[0] == parsed[3]
        invariant b == PartialSum(parsed, i) % WORD
      {
        var term := n[i] * Pow2(i * 8);
        assert n[i] == parsed[3 - i];
        WrapAdd(PartialSum(parsed, i), term);
        b := (b + term % WORD) % WORD;
        i := i + 1;
      }
      PartialSumIsPositional(parsed);
      WordSizes();
      TrickIsPrefixTest(b, 32);
      b := Increment(Complement(b, 32), 32);
      if And(b, Decrement(b, 32)) == 0 {
        return 0;
      }
    }
    return -1;
  }

  /** With octets the packing cannot overflow, and the accepted values are
      2^32 - 2^(32-p) for the prefix lengths p = 0..32. */
  lemma OctetMasks(parsed: seq<nat>)
    requires |parsed| == 4
    requires forall i :: 0 <= i < 4 ==> parsed[i] <= 255
    ensures Positional(parsed) < WORD
    ensures IsMaskWord(Positional(parsed) % WORD)
            <==> exists k: nat :: k <= 32 && Pow2(k) == WORD - Positional(parsed)
  {
    WordSizes();
    assert parsed[0] <= 255 && parsed[1] <= 255 && parsed[2] <= 255 && parsed[3] <= 255;
    var v := Positional(parsed);
    assert v % WORD == v;
    MaskWordValue(v);
  }

  lemma MaskWordValue(v: nat)
    requires v < WORD
    ensures IsMaskWord(v) <==> exists k: nat :: k <= 32 && Pow2(k) == WORD - v
  {
    WordSizes();
    if p: nat :| p <= 32 && IsPrefixMask(v, p, 32) {
      PrefixMaskValue(v, p, 32);
      assert Pow2(32 - p) == WORD - v;
    }
    if k: nat :| k <= 32 && Pow2(k) == WORD - v {
      PrefixMaskValue(v, 32 - k, 32);
      assert IsPrefixMask(v, 32 - k, 32);
    }
  }

  /** set_netmask: validate, then hand the mask to the interface. */
  method SetNetmask(isIp: bool, parsed: seq<nat>, interfaceRet: int) returns (ret: int)
    requires |parsed| == 4
    requires forall i :: 0 <= i < 4 ==> parsed[i] < WORD
    ensures ret == if isIp && IsMaskWord(Positional(parsed) % WORD) then interfaceRet else -1
  {
    ret := IsValidNetmask(isIp, parsed);
    if ret != 0 {
      return -1;
    }
    return interfaceRet;
  }
}
