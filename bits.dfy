/** Unsigned machine integers and the bit operations the cache engine uses,
    stated over mathematical integers.

    A value of Rust's `u8`, `u32` or `u64` is an `int` in the matching range.
    Shifts and truncating casts are division, multiplication and remainder by
    powers of two; `&` and `|` are defined bit by bit, lowest bit first. */
module Bits {

  type U8 = x: int | 0 <= x < 0x100
  type U32 = x: int | 0 <= x < 0x1_0000_0000
  type U64 = x: int | 0 <= x < 0x1_0000_0000_0000_0000

  /** 2 to the power n. */
  function Pow2(n: nat): (r: nat)
    ensures r >= 1
    ensures n >= 1 ==> r % 2 == 0
  {
    if n == 0 then 1 else 2 * Pow2(n - 1)
  }

  /** `x >> n` on an unsigned value. */
  function Shr(x: nat, n: nat): nat {
    var d := Pow2(n);
    DivNonNegative(x, d);
    x / d
  }

  /** `x as u32`: keeps the low 32 bits. */
  function AsU32(x: nat): U32 {
    x % 0x1_0000_0000
  }

  /** `x << n` on a `u32`: bits shifted past bit 31 are lost. */
  function Shl32(x: U32, n: nat): U32 {
    (x * Pow2(n)) % 0x1_0000_0000
  }

  /** `x << n` on a `u64`: bits shifted past bit 63 are lost. */
  function Shl64(x: U64, n: nat): U64 {
    (x * Pow2(n)) % 0x1_0000_0000_0000_0000
  }

  /** `!x` on a `u64`. */
  function Not64(x: U64): U64 {
    0xFFFF_FFFF_FFFF_FFFF - x
  }

  /** Bitwise `a & b`. */
  function And(a: nat, b: nat): nat
    decreases a
  {
    if a == 0 || b == 0 then 0
    else 2 * And(a / 2, b / 2) + (if a % 2 == 1 && b % 2 == 1 then 1 else 0)
  }

  /** Bitwise `a | b`. */
  function Or(a: nat, b: nat): nat
    decreases a + b
  {
    if a == 0 then b
    else if b == 0 then a
    else 2 * Or(a / 2, b / 2) + (if a % 2 == 1 || b % 2 == 1 then 1 else 0)
  }

  /** Wrapping increment of a `u32` counter, what `fetch_add(1)` leaves behind. */
  function WrappingInc(x: U32): (r: U32)
    ensures r == (x + 1) % 0x1_0000_0000
    ensures x < 0xFFFF_FFFF ==> r == x + 1
    ensures x == 0xFFFF_FFFF ==> r == 0
  {
    if x == 0xFFFF_FFFF then 0 else x + 1
  }

  /** Unsigned 32-bit addition with wrap-around. */
  function WrappingAdd(a: U32, b: U32): (r: U32)
    ensures r == (a + b) % 0x1_0000_0000
  {
    if a + b >= 0x1_0000_0000 then a + b - 0x1_0000_0000 else a + b
  }

  /** Incrementing either summand increments the wrapped sum. */
  lemma {:induction false} WrappingAddInc(a: U32, b: U32)
    ensures WrappingAdd(WrappingInc(a), b) == WrappingInc(WrappingAdd(a, b))
    ensures WrappingAdd(a, WrappingInc(b)) == WrappingInc(WrappingAdd(a, b))
  {
  }

  /** Adding `n` after one wrapping increment is adding `n + 1`, modulo 2^32. */
  lemma {:induction false} WrappingIncThenAdd(e: U32, n: nat, total: nat)
    requires total == e + 1 + n
    ensures (WrappingInc(e) + n) % 0x1_0000_0000 == total % 0x1_0000_0000
  {
    if e == 0xFFFF_FFFF {
      DivModUnique(total, 0x1_0000_0000, total / 0x1_0000_0000, total % 0x1_0000_0000);
      DivModUnique(n, 0x1_0000_0000, total / 0x1_0000_0000 - 1, total % 0x1_0000_0000);
    }
  }

  /** The counter after `n` wrapping increments. */
  function Advance(e: U32, n: nat): U32
    decreases n
  {
    if n == 0 then e else Advance(WrappingInc(e), n - 1)
  }

  /** `n` wrapping increments add `n` modulo 2^32. */
  lemma {:induction false} AdvanceMod(e: U32, n: nat)
    ensures Advance(e, n) == (e + n) % 0x1_0000_0000
    decreases n
  {
    if n == 0 {
      DivModUnique(e, 0x1_0000_0000, 0, e);
    } else {
      AdvanceMod(WrappingInc(e), n - 1);
      WrappingIncThenAdd(e, n - 1, e + n);
    }
  }

  lemma {:induction false} Pow2Add(a: nat, b: nat)
    ensures Pow2(a + b) == Pow2(a) * Pow2(b)
  {
    if a > 0 {
      Pow2Add(a - 1, b);
      assert Pow2(a + b) == 2 * Pow2(a - 1 + b);
      MulDouble(Pow2(a), Pow2(a - 1), Pow2(b));
    }
  }

  lemma {:induction false} Pow2Monotone(a: nat, b: nat)
    requires a <= b
    ensures Pow2(a) <= Pow2(b)
  {
    if a < b {
      Pow2Monotone(a, b - 1);
    }
  }

  /** The powers of two that the fixed-width code relies on. */
  lemma {:induction false} Pow2Constants()
    ensures Pow2(1) == 2 && Pow2(2) == 4 && Pow2(5) == 32 && Pow2(7) == 128
    ensures Pow2(12) == 0x1000 && Pow2(16) == 0x1_0000
    ensures Pow2(31) == 0x8000_0000 && Pow2(32) == 0x1_0000_0000
    ensures Pow2(64) == 0x1_0000_0000_0000_0000
  {
    Pow2Small();
    Pow2Times(16, 15, 0x1_0000, 0x8000);
    Pow2Times(16, 16, 0x1_0000, 0x1_0000);
    Pow2Times(32, 32, 0x1_0000_0000, 0x1_0000_0000);
  }

  lemma {:induction false} Pow2Small()
    ensures Pow2(1) == 2 && Pow2(2) == 4 && Pow2(5) == 32 && Pow2(7) == 128
    ensures Pow2(12) == 0x1000 && Pow2(15) == 0x8000 && Pow2(16) == 0x1_0000
  {
  }

  lemma {:induction false} Pow2Times(a: nat, b: nat, x: nat, y: nat)
    requires Pow2(a) == x && Pow2(b) == y
    ensures Pow2(a + b) == x * y
  {
    Pow2Add(a, b);
  }

  /** Halving a number written as h * big + l with big = 2p and l < big. */
  lemma {:induction false} Halve(h: nat, l: nat, p: nat, big: nat)
    requires p >= 1 && big == 2 * p && l < big
    ensures h * p >= 0 && h * big >= 0 && h * big == 2 * (h * p)
    ensures (h * big + l) / 2 == h * p + l / 2
    ensures (h * big + l) % 2 == l % 2
    ensures l / 2 < p
  {
    MulNonNegative(h, p);
    MulDouble(big, p, h);
    DivModUnique(h * big + l, 2, h * p + l / 2, l % 2);
  }

  /** Quotient and remainder are unique. */
  lemma {:induction false} DivModUnique(x: int, d: int, q: int, r: int)
    requires d > 0 && 0 <= r < d && x == q * d + r
    ensures x / d == q && x % d == r
  {
    var q', r' := x / d, x % d;
    if q' > q {
      MulAtLeast(q' - q, d, q', q);
      assert false;
    } else if q' < q {
      MulAtLeast(q - q', d, q, q');
      assert false;
    }
  }

  lemma {:induction false} MulAtLeast(k: int, d: int, a: int, b: int)
    requires k >= 1 && d > 0 && k == a - b
    ensures a * d - b * d >= d
  {
    assert a * d - b * d == k * d;
  }

  /** `|` of equal arguments. */
  lemma {:induction false} OrCongruent(a: nat, b: nat, a': nat, b': nat)
    requires a == a' && b == b'
    ensures Or(a, b) == Or(a', b')
  {
  }

  /** `&` of equal arguments. */
  lemma {:induction false} AndCongruent(a: nat, b: nat, a': nat, b': nat)
    requires a == a' && b == b'
    ensures And(a, b) == And(a', b')
  {
  }

  /** A product with a known power of two is a product with that constant. */
  lemma {:induction false} MulPow2(x: int, n: nat, c: int)
    requires Pow2(n) == c
    ensures x * Pow2(n) == x * c
  {
  }

  lemma {:induction false} MulOne(h: int)
    ensures h * 1 == h
  {
  }

  lemma {:induction false} MulTwice(h: nat, p: nat, big: nat)
    requires big == 2 * p
    ensures h * p >= 0 && h * big >= 0 && h * big == 2 * (h * p)
  {
    MulNonNegative(h, p);
  }

  lemma {:induction false} MulDouble(big: int, x: int, y: int)
    requires big == 2 * x
    ensures big * y == 2 * (x * y)
  {
  }

  lemma {:induction false} DivNonNegative(x: nat, d: int)
    requires d >= 1
    ensures 0 <= x / d <= x
  {
  }

  lemma {:induction false} MulNonNegative(x: int, y: int)
    requires x >= 0 && y >= 0
    ensures x * y >= 0
  {
  }

  /** The recursive step of `|` holds also when an operand is zero. */
  lemma {:induction false} OrStep(a: nat, b: nat)
    ensures Or(a, b) == 2 * Or(a / 2, b / 2) + (if a % 2 == 1 || b % 2 == 1 then 1 else 0)
  {
    if a == 0 {
      assert Or(a / 2, b / 2) == b / 2;
    } else if b == 0 {
      assert Or(a / 2, b / 2) == a / 2;
    }
  }

  /** The recursive step of `&` holds also when an operand is zero. */
  lemma {:induction false} AndStep(a: nat, b: nat)
    ensures And(a, b) == 2 * And(a / 2, b / 2) + (if a % 2 == 1 && b % 2 == 1 then 1 else 0)
  {
    if a == 0 || b == 0 {
      assert And(a / 2, b / 2) == 0;
    }
  }

  /** `|` works bit by bit: at bit position n, the high and the low parts of
      `a | b` are the `|` of the operands' high and low parts. */
  lemma {:induction false} OrSplit(ah: nat, al: nat, bh: nat, bl: nat, n: nat)
    requires al < Pow2(n) && bl < Pow2(n)
    ensures Or(ah * Pow2(n) + al, bh * Pow2(n) + bl) == Or(ah, bh) * Pow2(n) + Or(al, bl)
  {
    if n > 0 {
      var p, big := Pow2(n - 1), Pow2(n);
      assert big == 2 * p;
      assert al / 2 < p && bl / 2 < p;
      OrSplit(ah, al / 2, bh, bl / 2, n - 1);
      Halve(ah, al, p, big);
      Halve(bh, bl, p, big);
      var hi := Or(ah, bh);
      MulTwice(hi, p, big);
      OrSplitStep(ah * big + al, bh * big + bl, al, bl, ah * p + al / 2, bh * p + bl / 2, hi * p, hi * big);
    } else {
      assert Pow2(n) == 1 && al == 0 && bl == 0;
      MulOne(ah);
      MulOne(bh);
      MulOne(Or(ah, bh));
    }
  }

  /** One bit of OrSplit, on values: `a` and `b` are their halves `a2`,
      `b2` doubled plus the low bits of `al` and `bl`, and the high part of
      the halves' `|` is half the high part of the whole. */
  lemma {:induction false} OrSplitStep(a: nat, b: nat, al: nat, bl: nat, a2: nat, b2: nat, hp: nat, hbig: nat)
    requires a2 == a / 2 && b2 == b / 2 && a % 2 == al % 2 && b % 2 == bl % 2
    requires hbig == 2 * hp && Or(a2, b2) == hp + Or(al / 2, bl / 2)
    ensures Or(a, b) == hbig + Or(al, bl)
  {
    OrHalves(a, b, a2, b2, al % 2, bl % 2);
    OrHalves(al, bl, al / 2, bl / 2, al % 2, bl % 2);
  }

  lemma {:induction false} OrHalves(a: nat, b: nat, a2: nat, b2: nat, a0: nat, b0: nat)
    requires a2 == a / 2 && b2 == b / 2 && a0 == a % 2 && b0 == b % 2
    ensures Or(a, b) == 2 * Or(a2, b2) + (if a0 == 1 || b0 == 1 then 1 else 0)
  {
    OrStep(a, b);
  }

  lemma {:induction false} AndHalves(a: nat, b: nat, a2: nat, b2: nat, a0: nat, b0: nat)
    requires a2 == a / 2 && b2 == b / 2 && a0 == a % 2 && b0 == b % 2
    ensures And(a, b) == 2 * And(a2, b2) + (if a0 == 1 && b0 == 1 then 1 else 0)
  {
    AndStep(a, b);
  }

  /** `&` works bit by bit, as `|` does. */
  lemma {:induction false} AndSplit(ah: nat, al: nat, bh: nat, bl: nat, n: nat)
    requires al < Pow2(n) && bl < Pow2(n)
    ensures And(ah * Pow2(n) + al, bh * Pow2(n) + bl) == And(ah, bh) * Pow2(n) + And(al, bl)
  {
    if n > 0 {
      var p, big := Pow2(n - 1), Pow2(n);
      assert big == 2 * p;
      assert al / 2 < p && bl / 2 < p;
      AndSplit(ah, al / 2, bh, bl / 2, n - 1);
      Halve(ah, al, p, big);
      Halve(bh, bl, p, big);
      var hi := And(ah, bh);
      MulTwice(hi, p, big);
      AndSplitStep(ah * big + al, bh * big + bl, al, bl, ah * p + al / 2, bh * p + bl / 2, hi * p, hi * big);
    } else {
      assert Pow2(n) == 1 && al == 0 && bl == 0;
      MulOne(ah);
      MulOne(bh);
      MulOne(And(ah, bh));
    }
  }

  /** One bit of AndSplit, on values, as OrSplitStep. */
  lemma {:induction false} AndSplitStep(a: nat, b: nat, al: nat, bl: nat, a2: nat, b2: nat, hp: nat, hbig: nat)
    requires a2 == a / 2 && b2 == b / 2 && a % 2 == al % 2 && b % 2 == bl % 2
    requires hbig == 2 * hp && And(a2, b2) == hp + And(al / 2, bl / 2)
    ensures And(a, b) == hbig + And(al, bl)
  {
    AndHalves(a, b, a2, b2, al % 2, bl % 2);
    AndHalves(al, bl, al / 2, bl / 2, al % 2, bl % 2);
  }

  /** Masking with `2^n - 1` keeps the low n bits. */
  lemma {:induction false} AndLowMask(h: nat, l: nat, n: nat)
    requires l < Pow2(n)
    ensures And(h * Pow2(n) + l, Pow2(n) - 1) == l
  {
    if n > 0 {
      var p, big := Pow2(n - 1), Pow2(n);
      assert big == 2 * p;
      Halve(h, l, p, big);
      AndLowMask(h, l / 2, n - 1);
      AndLowMaskStep(h * big + l, h * p + l / 2, l, p, big);
    } else {
      assert Pow2(n) == 1 && l == 0;
      MulOne(h);
    }
  }

  /** One bit of AndLowMask, on values: `x` is its half `x2` doubled plus
      the low bit of `l`, and the mask `2p - 1` is the mask `p - 1` with
      one more bit set. */
  lemma {:induction false} AndLowMaskStep(x: nat, x2: nat, l: nat, p: nat, big: nat)
    requires p >= 1 && big == 2 * p
    requires x2 == x / 2 && x % 2 == l % 2 && And(x2, p - 1) == l / 2
    ensures And(x, big - 1) == l
  {
    DivModUnique(big - 1, 2, p - 1, 1);
    AndHalves(x, big - 1, x2, p - 1, l % 2, 1);
    HalfAndBit(l);
  }

  /** A number is twice its half plus its low bit. */
  lemma {:induction false} HalfAndBit(l: nat)
    ensures 2 * (l / 2) + (if l % 2 == 1 then 1 else 0) == l
  {
  }

  /** Masking with `2^n - 1` is the remainder modulo 2^n. */
  lemma {:induction false} AndMask(x: nat, n: nat)
    ensures And(x, Pow2(n) - 1) == x % Pow2(n)
  {
    var p := Pow2(n);
    DivNonNegative(x, p);
    var h, l := x / p, x % p;
    assert x == h * p + l;
    AndLowMask(h, l, n);
  }

  /** Setting bit 0: `t | 1`. */
  lemma {:induction false} OrOne(t: nat)
    ensures Or(t, 1) == (if t % 2 == 0 then t + 1 else t)
  {
    OrStep(t, 1);
  }

  /** `|` with a value of disjoint bits below bit 1: an even number or'ed with 0 or 1. */
  lemma {:induction false} OrLowBit(e: nat, v: nat)
    requires e % 2 == 0 && v <= 1
    ensures Or(e, v) == e + v && Or(v, e) == e + v
  {
    OrStep(e, v);
    OrStep(v, e);
  }
}
