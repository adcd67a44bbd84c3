/** The pseudo-random walk on which a file number is looked for in the open-file table. */
module Probing {
  import opened Blocks
  import opened Bits

  /** xorshift64s: one step of the generator, then the multiplication in 64 bits. */
  function Scramble(n: nat): nat {
    var x := Bits64(n);
    var a := Xor(x, ShiftRight(x, 12));
    var b := Xor(a, ShiftLeft(a, 25));
    var d := Xor(b, ShiftRight(b, 27));
    Value(d, 64) * 0x2545_F491_4F6C_DD1D % 0x1_0000_0000_0000_0000
  }

  function Seed(f: nat, i: nat): nat {
    if i == 0 then f else Scramble(Seed(f, i - 1))
  }

  /** The slot tried in round `i` for file `f`. */
  function Probe(f: nat, i: nat): (j: nat)
    ensures j < 2048
  {
    Seed(f, i + 1) % 2048
  }

  /** Each round goes on from the number the round before made. */
  lemma {:induction false} WalkGoesOn(f: nat, i: nat)
    ensures Probe(f, 0) == Scramble(f) % 2048 && Probe(f, i + 1) == Probe(Scramble(f), i)
    ensures Seed(f, i + 1) == Seed(Scramble(f), i)
  {
    hide Scramble;
    if i > 0 {
      WalkGoesOn(f, i - 1);
    }
    assert Seed(f, 0) == f;
    assert Seed(f, i + 2) == Scramble(Seed(f, i + 1)) && Seed(Scramble(f), i + 1) == Scramble(Seed(Scramble(f), i));
  }

  // ---- The generator loses nothing ----

  /** A word folded onto its own shift. */
  function Right(w: Word, k: nat): Word { Xor(w, ShiftRight(w, k)) }

  function Left(w: Word, k: nat): Word { Xor(w, ShiftLeft(w, k)) }

  /** The way back: the inverse of the multiplier modulo 2^64, then the folds by 27, 25 and 12 undone,
      each by folds of twice the distance until nothing is left to shift. */
  function Unscramble(y: nat): nat {
    var d := Bits64(y * 0x5907_1D96_D81E_CD35 % 0x1_0000_0000_0000_0000);
    var b := Right(Right(d, 27), 54);
    var a := Left(Left(b, 25), 50);
    var x := Right(Right(Right(a, 12), 24), 48);
    Value(x, 64)
  }

  lemma RightBit(w: Word, k: nat, b: nat)
    ensures b in Right(w, k) <==> (b in w) != (b + k in w)
  {
    assert b in ShiftRight(w, k) <==> b + k in w by {
      assert b + k in w ==> b == (b + k) - k;
    }
  }

  lemma LeftBit(w: Word, k: nat, b: nat)
    ensures b in Left(w, k) <==> (b in w) != (k <= b < 64 && b - k in w)
  {
    assert b in ShiftLeft(w, k) <==> k <= b < 64 && b - k in w by {
      assert b >= k && b - k in w ==> b == (b - k) + k;
    }
  }

  /** Folding again by the same distance leaves a fold by twice the distance. */
  lemma RightTwice(w: Word, k: nat)
    ensures Right(Right(w, k), k) == Right(w, 2 * k)
  {
    hide Right;
    var r := Right(w, k);
    forall b: nat
      ensures b in Right(r, k) <==> b in Right(w, 2 * k)
    {
      RightBit(r, k, b);
      RightBit(w, k, b);
      RightBit(w, k, b + k);
      RightBit(w, 2 * k, b);
    }
  }

  lemma LeftTwice(w: Word, k: nat)
    ensures Left(Left(w, k), k) == Left(w, 2 * k)
  {
    hide Left;
    var r := Left(w, k);
    forall b: nat
      ensures b in Left(r, k) <==> b in Left(w, 2 * k)
    {
      LeftBit(r, k, b);
      LeftBit(w, k, b);
      LeftBit(w, 2 * k, b);
      if b >= k {
        LeftBit(w, k, b - k);
      }
    }
  }

  lemma FoldsFit(w: Word, k: nat)
    requires Fits64(w)
    ensures Fits64(Right(w, k)) && Fits64(Left(w, k))
  {
  }

  /** A fold by 64 or more changes nothing. */
  lemma FarFolds(w: Word, k: nat)
    requires Fits64(w) && k >= 64
    ensures Right(w, k) == w && Left(w, k) == w
  {
    assert ShiftRight(w, k) == {} && ShiftLeft(w, k) == {};
  }

  lemma Unfold27(b: Word)
    requires Fits64(b)
    ensures Right(Right(Right(b, 27), 27), 54) == b
  {
    RightTwice(b, 27);
    RightTwice(b, 54);
    FarFolds(b, 108);
    hide Right;
  }

  lemma Unfold25(a: Word)
    requires Fits64(a)
    ensures Left(Left(Left(a, 25), 25), 50) == a
  {
    LeftTwice(a, 25);
    LeftTwice(a, 50);
    FarFolds(a, 100);
    hide Left;
  }

  lemma Unfold12(x: Word)
    requires Fits64(x)
    ensures Right(Right(Right(Right(x, 12), 12), 24), 48) == x
  {
    RightTwice(x, 12);
    RightTwice(x, 24);
    RightTwice(x, 48);
    FarFolds(x, 96);
    hide Right;
  }

  /** The two constants are inverse to each other modulo 2^64. */
  lemma MultiplyBack(v: nat)
    requires v < 0x1_0000_0000_0000_0000
    ensures v * 0x2545_F491_4F6C_DD1D % 0x1_0000_0000_0000_0000 * 0x5907_1D96_D81E_CD35 % 0x1_0000_0000_0000_0000 == v
  {
    var p := v * 0x2545_F491_4F6C_DD1D;
    var m := 0x1_0000_0000_0000_0000;
    var q, r := p / m, p % m;
    var h := v * 0x0CF6_5B3F_17BF_4A6B - q * 0x5907_1D96_D81E_CD35;
    assert p == q * 0x1_0000_0000_0000_0000 + r;
    assert r * 0x5907_1D96_D81E_CD35 == 0x1_0000_0000_0000_0000 * h + v;
  }

  lemma Pow64()
    ensures Pow2(64) == 0x1_0000_0000_0000_0000
  {
    hide Pow2;
    SomePowers();
    PowAdd(36, 25);
    PowAdd(61, 3);
  }

  /** The word the generator multiplies. */
  lemma Folded(n: nat)
    ensures var d := Right(Left(Right(Bits64(n), 12), 25), 27);
            Scramble(n) == Value(d, 64) * 0x2545_F491_4F6C_DD1D % 0x1_0000_0000_0000_0000
  {
    hide Bits64, ShiftRight, ShiftLeft, Xor, Value;
  }

  /** Every step of the generator can be taken back, so no two numbers below 2^64 are confused. */
  lemma ScrambleInverts(n: nat)
    requires n < 0x1_0000_0000_0000_0000
    ensures Unscramble(Scramble(n)) == n
  {
    hide Bits64, Value, Pow2, Left, Right, Scramble;
    Folded(n);
    Pow64();
    var x := Bits64(n);
    var a := Right(x, 12);
    var b := Left(a, 25);
    var d := Right(b, 27);
    BitsFit(n);
    FoldsFit(x, 12);
    FoldsFit(a, 25);
    FoldsFit(b, 27);
    ValueBound(d, 64);
    MultiplyBack(Value(d, 64));
    BitsOfValue(d);
    Unfold27(b);
    Unfold25(a);
    Unfold12(x);
    BitsAddUp(n, 64);
  }

  /** The walks of files 1 and 2049 start at different slots, where the remainder by 2048 alone would
      start them at the same. */
  lemma FirstProbes()
    ensures Probe(1, 0) == 1309 && Probe(2049, 0) == 1821
  {
    ScrambleOf1();
    ScrambleOf2049();
    hide Scramble;
    assert Seed(1, 0) == 1 && Seed(2049, 0) == 2049;
  }

  lemma OneBit(i: nat)
    requires i < 64
    ensures Value({i}, 64) == Pow2(i)
  {
    ValueEmpty(64);
    ValueAdd({}, i, 64);
    hide Value, Pow2;
    assert {} + {i} == {i};
  }

  lemma TwoBits(i: nat, j: nat)
    requires i < j < 64
    ensures Value({i, j}, 64) == Pow2(i) + Pow2(j)
  {
    hide Value, Pow2;
    OneBit(i);
    ValueAdd({i}, j, 64);
    assert {i} + {j} == {i, j};
  }

  lemma SomePowers()
    ensures Pow2(0) == 1 && Pow2(3) == 8 && Pow2(9) == 512 && Pow2(11) == 2048
    ensures Pow2(25) == 33554432 && Pow2(36) == 68719476736
  {
    assert Pow2(9) == 512 && Pow2(11) == 2048;
    PowAdd(9, 9);
    PowAdd(18, 18);
    PowAdd(9, 5);
    PowAdd(11, 14);
  }

  lemma FoldsOf1()
    ensures Right({0}, 12) == {0} && Left({0}, 25) == {0, 25} && Right({0, 25}, 27) == {0, 25}
  {
    assert ShiftRight({0}, 12) == {};
    assert ShiftLeft({0}, 25) == {25};
    assert ShiftRight({0, 25}, 27) == {};
  }

  lemma ScrambleOf1()
    ensures Scramble(1) == 0x47E4_CE4B_896C_DD1D
  {
    FoldsOf1();
    hide Bits64, Value, Pow2, Left, Right, Scramble;
    SomePowers();
    OneBit(0);
    BitsOfValue({0});
    TwoBits(0, 25);
    assert Bits64(1) == {0};
    Folded(1);
  }

  lemma FirstFoldsOf2049()
    ensures Right({0, 11}, 12) == {0, 11} && Left({0, 11}, 25) == {0, 11, 25, 36}
  {
    assert ShiftRight({0, 11}, 12) == {};
    assert ShiftLeft({0, 11}, 25) == {25, 36};
  }

  lemma LastFoldOf2049()
    ensures Right({0, 11, 25, 36}, 27) == {0, 9, 11, 25, 36}
  {
    assert ShiftRight({0, 11, 25, 36}, 27) == {9};
  }

  lemma ScrambleOf2049()
    ensures Scramble(2049) == 0xFA40_4D35_CA0F_FF1D
  {
    FirstFoldsOf2049();
    LastFoldOf2049();
    hide Bits64, Value, Pow2, Left, Right, Scramble;
    SomePowers();
    TwoBits(0, 11);
    BitsOfValue({0, 11});
    FiveBits();
    assert Bits64(2049) == {0, 11};
    Folded(2049);
  }

  lemma FiveBits()
    ensures Value({0, 9, 11, 25, 36}, 64) == 1 + 512 + 2048 + 33554432 + 68719476736
  {
    hide Value, Pow2;
    SomePowers();
    TwoBits(0, 9);
    ValueAdd({0, 9}, 11, 64);
    ValueAdd({0, 9, 11}, 25, 64);
    ValueAdd({0, 9, 11, 25}, 36, 64);
    assert {0, 9} + {11} == {0, 9, 11} && {0, 9, 11} + {25} == {0, 9, 11, 25};
    assert {0, 9, 11, 25} + {36} == {0, 9, 11, 25, 36};
  }
}
