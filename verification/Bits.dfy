/** Machine words as sets of bit positions, and the numbers they stand for. */
module Bits {
  import opened Blocks

  lemma {:induction false} ValueBound(w: Word, n: nat)
    ensures Value(w, n) < Pow2(n)
  {
    if n > 0 {
      ValueBound(w, n - 1);
    }
  }

  /** Words that stand for the same number have the same bits. */
  lemma {:induction false} ValueInjective(v: Word, w: Word, n: nat)
    requires Value(v, n) == Value(w, n)
    ensures forall b: nat | b < n :: b in v <==> b in w
  {
    if n > 0 {
      ValueBound(v, n - 1);
      ValueBound(w, n - 1);
      ValueInjective(v, w, n - 1);
    }
  }

  /** Only bits below `n` matter. */
  lemma {:induction false} ValueSame(v: Word, w: Word, n: nat)
    requires forall b: nat | b < n :: b in v <==> b in w
    ensures Value(v, n) == Value(w, n)
  {
    if n > 0 {
      ValueSame(v, w, n - 1);
    }
  }

  lemma {:induction false} ValueEmpty(n: nat)
    ensures Value({}, n) == 0
  {
    if n > 0 {
      ValueEmpty(n - 1);
    }
  }

  /** One more bit adds its power of two. */
  lemma {:induction false} ValueAdd(w: Word, b: nat, n: nat)
    requires b !in w
    ensures Value(w + {b}, n) == Value(w, n) + if b < n then Pow2(b) else 0
  {
    if n > 0 {
      ValueAdd(w, b, n - 1);
    }
  }

  lemma {:induction false} PowAdd(a: nat, b: nat)
    ensures Pow2(a + b) == Pow2(a) * Pow2(b)
  {
    if b > 0 {
      PowAdd(a, b - 1);
    }
  }

  /** A 32-bit hash and the number it travels as determine each other. */
  lemma NumInjective(v: Word, w: Word)
    requires forall b | b in v + w :: b < 32
    ensures Num(v) == Num(w) <==> v == w
  {
    if Num(v) == Num(w) {
      ValueInjective(v, w, 32);
      assert forall b: nat | b in v + w :: b in v <==> b in w;
      assert v == w;
    }
  }

  // ---- Numbers as words ----

  /** The low 64 bits of a number, as the set of their positions. */
  function Bits64(n: nat): Word { set b | 0 <= b < 64 && n / Pow2(b) % 2 == 1 }

  /** The bits of a number below `k` add up to its remainder by the `k`th power of two. */
  lemma {:induction false} BitsAddUp(n: nat, k: nat)
    requires k <= 64
    ensures Value(Bits64(n), k) == n % Pow2(k)
  {
    if k > 0 {
      BitsAddUp(n, k - 1);
      OneMoreBit(n, Pow2(k - 1));
      assert k - 1 in Bits64(n) <==> n / Pow2(k - 1) % 2 == 1;
    }
  }

  lemma OneMoreBit(n: nat, p: nat)
    requires p > 0
    ensures n % (2 * p) == n % p + if n / p % 2 == 1 then p else 0
  {
    var h, b := n / p / 2, n / p % 2;
    Twice(p, n / p, h, b);
    Remainder(n, 2 * p, h, n % p + if b == 1 then p else 0);
  }

  lemma Twice(p: nat, q: nat, h: nat, b: nat)
    requires q == 2 * h + b && b < 2
    ensures p * q == 2 * p * h + if b == 1 then p else 0
  {
  }

  lemma Remainder(n: nat, m: nat, h: nat, r: nat)
    requires m > 0 && n == m * h + r && r < m
    ensures n % m == r && n / m == h
  {
    Product(m, n / m, h, n % m - r);
    Product(m, n / m, h, 0);
    SameFactor(m, n / m, h);
  }

  lemma {:induction false} SameFactor(m: nat, a: nat, b: nat)
    requires m > 0 && m * a == m * b
    ensures a == b
    decreases a + b
  {
    Multiple(m, a);
    Multiple(m, b);
    if a > 0 && b > 0 {
      SameFactor(m, a - 1, b - 1);
    }
  }

  predicate Fits64(w: Word) { forall b | b in w :: b < 64 }

  /** A 64-bit word is the word of its own number. */
  lemma BitsOfValue(w: Word)
    requires Fits64(w)
    ensures Bits64(Value(w, 64)) == w
  {
    var n := Value(w, 64);
    ValueBound(w, 64);
    BitsAddUp(n, 64);
    Remainder(n, Pow2(64), 0, n);
    ValueInjective(Bits64(n), w, 64);
  }

  // ---- Shifts ----

  function ShiftRight(w: Word, k: nat): Word { set b | b in w && b >= k :: b - k }

  function ShiftLeft(w: Word, k: nat): Word { set b | b in w && b + k < 64 :: b + k }

  /** The bits below `k` and those above, as two numbers. */
  lemma {:induction false} ShiftSplit(w: Word, k: nat, n: nat)
    ensures Value(w, n + k) == Value(w, k) + Pow2(k) * Value(ShiftRight(w, k), n)
  {
    if n > 0 {
      ShiftSplit(w, k, n - 1);
      PowAdd(k, n - 1);
      var r := ShiftRight(w, k);
      assert n - 1 in r <==> n - 1 + k in w by {
        assert n - 1 + k in w ==> n - 1 == (n - 1 + k) - k;
      }
      Distribute(Pow2(k), Value(r, n - 1), Pow2(n - 1));
    }
  }

  lemma Distribute(p: nat, a: nat, b: nat)
    ensures p * (a + b) == p * a + p * b
  {
  }

  /** A shift to the right divides. */
  lemma ShiftRightDivides(w: Word, k: nat)
    requires Fits64(w) && k <= 64
    ensures Value(ShiftRight(w, k), 64) == Value(w, 64) / Pow2(k)
  {
    var r := ShiftRight(w, k);
    ShiftSplit(w, k, 64 - k);
    ValueBound(w, k);
    Remainder(Value(w, 64), Pow2(k), Value(r, 64 - k), Value(w, k));
    NoHighBits(w, k);
  }

  lemma NoHighBits(w: Word, k: nat)
    requires Fits64(w) && k <= 64
    ensures Value(ShiftRight(w, k), 64) == Value(ShiftRight(w, k), 64 - k)
  {
    var r := ShiftRight(w, k);
    ShiftSplit(r, 64 - k, k);
    assert ShiftRight(r, 64 - k) == {};
    ValueEmpty(k);
  }

  /** A shift to the left multiplies, in 64 bits. */
  lemma ShiftLeftMultiplies(w: Word, k: nat)
    requires Fits64(w) && k <= 64
    ensures Value(ShiftLeft(w, k), 64) == Value(w, 64) * Pow2(k) % Pow2(64)
  {
    hide Value, Pow2, ShiftLeft, ShiftRight;
    var l, j := ShiftLeft(w, k), 64 - k;
    ShiftSplit(l, k, j);
    NoLowBits(w, k);
    var v, u := Value(w, j), Value(ShiftRight(w, j), k);
    ShiftSplit(w, j, k);
    PowAdd(j, k);
    ValueBound(w, j);
    Scaled(v, u, Pow2(j), Pow2(k));
    Remainder(Value(w, 64) * Pow2(k), Pow2(64), u, Pow2(k) * v);
  }

  lemma NoLowBits(w: Word, k: nat)
    requires Fits64(w) && k <= 64
    ensures Value(ShiftLeft(w, k), k) == 0
    ensures Value(ShiftRight(ShiftLeft(w, k), k), 64 - k) == Value(w, 64 - k)
  {
    var l := ShiftLeft(w, k);
    ValueEmpty(k);
    ValueSame(l, {}, k);
    forall b: nat | b < 64 - k
      ensures b in ShiftRight(l, k) <==> b in w
    {
      assert b in w ==> b + k in l;
      assert b + k in l ==> b == (b + k) - k;
    }
    ValueSame(ShiftRight(l, k), w, 64 - k);
  }

  lemma Scaled(v: nat, u: nat, a: nat, b: nat)
    requires v < a && b > 0
    ensures (v + a * u) * b == (a * b) * u + b * v && b * v < a * b
  {
    assert b * v < b * a;
  }

  /** The two shifts of the generator, on numbers. */
  lemma ShiftLaws(n: nat, k: nat)
    requires k <= 64
    ensures Value(ShiftRight(Bits64(n), k), 64) == n % Pow2(64) / Pow2(k)
    ensures Value(ShiftLeft(Bits64(n), k), 64) == n % Pow2(64) * Pow2(k) % Pow2(64)
  {
    BitsFit(n);
    hide Bits64, Value, Pow2, ShiftLeft, ShiftRight;
    BitsAddUp(n, 64);
    ShiftRightDivides(Bits64(n), k);
    ShiftLeftMultiplies(Bits64(n), k);
  }

  lemma BitsFit(n: nat)
    ensures Fits64(Bits64(n))
  {
  }
}
