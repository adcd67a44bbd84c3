/** How a source file is cut into blocks, and what a set of processed blocks adds up to.

    A transfer reads each file in fixed-size blocks, hashes every block, and folds the
    hashes with exclusive or. Sender and receiver both keep three running totals per file:
    blocks counted, bytes counted and the folded hash. A `rank` sequence records, block by
    block, how many of the fixed processing stages the block has been through; the totals
    are folds over that sequence.
 */
module Blocks {

  /** The fixed facts of a transfer: the bytes of each numbered source file, the block size,
      and the 32-bit block hash (an arbitrary function; the constant zero when hashing is off). */
  datatype RawConfig = RawConfig(src: nat -> seq<Byte>, block: nat, hash: seq<Byte> -> Word)

  type Config = c: RawConfig | c.block > 0 witness RawConfig(_ => [], 1, _ => {})

  newtype Byte = x: int | 0 <= x < 256

  /** A machine word as the set of positions of its one bits. */
  type Word = set<nat>

  /** Exclusive or of two words. */
  function Xor(a: Word, b: Word): Word { (a - b) + (b - a) }

  lemma XorSwap(a: Word, b: Word, d: Word)
    ensures Xor(Xor(a, b), d) == Xor(Xor(a, d), b)
  {
  }

  /** The file numbers 1 to `n`. */
  function Range(n: nat): (r: set<nat>)
    ensures forall f: nat :: f in r <==> 1 <= f <= n
    ensures |r| == n
  {
    if n == 0 then {} else Range(n - 1) + {n}
  }

  function Pow2(n: nat): (r: nat)
    ensures r > 0
  {
    if n == 0 then 1 else 2 * Pow2(n - 1)
  }

  lemma Multiple(n: nat, a: nat)
    ensures a > 0 ==> n * a >= n && n * (a - 1) == n * a - n
  {
  }

  /** Two multiples of `n` that differ by less than `n` are equal. */
  lemma {:induction false} Product(n: nat, a: nat, b: nat, d: int)
    requires n * a + d == n * b && 0 < d + n < 2 * n
    ensures d == 0
    decreases a + b
  {
    Multiple(n, a);
    Multiple(n, b);
    if a > 0 && b > 0 {
      Product(n, a - 1, b - 1, d);
    }
  }

  /** The unsigned value of the bits of a word below position `n`. */
  function Value(w: Word, n: nat): nat {
    if n == 0 then 0 else Value(w, n - 1) + if n - 1 in w then Pow2(n - 1) else 0
  }

  /** The 32-bit number a folded hash travels as. */
  function Num(w: Word): nat { Value(w, 32) }

  /** A complete positional read: short only at end of file, empty past it. */
  function PRead(file: seq<Byte>, offset: nat, len: nat): (r: seq<Byte>)
    ensures |r| <= len
    ensures offset + len <= |file| ==> |r| == len
    ensures offset <= |file| < offset + len ==> |r| == |file| - offset
    ensures offset >= |file| ==> r == []
  {
    if offset >= |file| then []
    else if offset + len <= |file| then file[offset..offset + len]
    else file[offset..]
  }

  /** The byte offset of block `i`, kept as repeated addition. */
  function Offset(c: Config, i: nat): nat {
    if i == 0 then 0 else Offset(c, i - 1) + c.block
  }

  lemma {:induction false} OffsetIsProduct(c: Config, i: nat)
    ensures Offset(c, i) == i * c.block
  {
    if i > 0 {
      OffsetIsProduct(c, i - 1);
    }
  }

  /** What reading block `i` of file `f` yields; empty means end of file. */
  function Data(c: Config, f: nat, i: nat): seq<Byte> {
    PRead(c.src(f), Offset(c, i), c.block)
  }

  /** How many blocks a file of the given size has. */
  function Pieces(size: nat, block: nat): nat
    requires block > 0
  {
    if size == 0 then 0
    else if size <= block then 1
    else 1 + Pieces(size - block, block)
  }

  function BlockCount(c: Config, f: nat): nat {
    Pieces(|c.src(f)|, c.block)
  }

  lemma {:induction false} OffsetVsPieces(c: Config, size: nat, i: nat)
    ensures Offset(c, i) >= size <==> i >= Pieces(size, c.block)
    decreases i
  {
    if i > 0 && size > c.block {
      OffsetVsPieces(c, size - c.block, i - 1);
    } else if i > 1 {
      OffsetVsPieces(c, size, i - 1);
    }
  }

  /** The number of pieces is the size divided by the block size, rounded up: the least
      multiple of the block size that covers the file. */
  lemma PiecesIsCeiling(c: Config, size: nat)
    ensures size <= Pieces(size, c.block) * c.block
    ensures size > 0 ==> Pieces(size, c.block) > 0 && (Pieces(size, c.block) - 1) * c.block < size
  {
    var p := Pieces(size, c.block);
    OffsetVsPieces(c, size, p);
    OffsetIsProduct(c, p);
    if size > 0 {
      OffsetVsPieces(c, size, p - 1);
      OffsetIsProduct(c, p - 1);
    }
  }

  /** A read hits end of file exactly from index ceil(size / block) on. */
  lemma EofIndex(c: Config, f: nat, i: nat)
    ensures Data(c, f, i) == [] <==> i >= BlockCount(c, f)
    ensures Offset(c, i) >= |c.src(f)| <==> i >= BlockCount(c, f)
  {
    OffsetVsPieces(c, |c.src(f)|, i);
  }

  /** A block's contribution to the folded hash: nothing once past end of file. */
  function HashOf(c: Config, f: nat, i: nat): Word {
    if Data(c, f, i) == [] then {} else c.hash(Data(c, f, i))
  }

  function HashAt(c: Config, f: nat, rank: seq<nat>, i: nat, k: nat): Word
    requires i < |rank|
  {
    if rank[i] >= k then HashOf(c, f, i) else {}
  }

  function One(c: Config, f: nat, i: nat): nat {
    if Data(c, f, i) == [] then 0 else 1
  }

  // Totals over the blocks whose rank has reached k.

  function Crc(c: Config, f: nat, rank: seq<nat>, k: nat): Word {
    if rank == [] then {}
    else
      var i := |rank| - 1;
      Xor(Crc(c, f, rank[..i], k), HashAt(c, f, rank, i, k))
  }

  function Bytes(c: Config, f: nat, rank: seq<nat>, k: nat): nat {
    if rank == [] then 0
    else
      var i := |rank| - 1;
      Bytes(c, f, rank[..i], k) + (if rank[i] >= k then |Data(c, f, i)| else 0)
  }

  function Count(c: Config, f: nat, rank: seq<nat>, k: nat): nat {
    if rank == [] then 0
    else
      var i := |rank| - 1;
      Count(c, f, rank[..i], k) + (if rank[i] >= k then One(c, f, i) else 0)
  }

  /** The exclusive or of the hashes of the first `n` blocks. */
  function CrcUpTo(c: Config, f: nat, n: nat): Word {
    if n == 0 then {} else Xor(CrcUpTo(c, f, n - 1), HashOf(c, f, n - 1))
  }

  /** The exclusive or of the hashes of every block of the file. */
  function CrcAll(c: Config, f: nat): Word {
    CrcUpTo(c, f, BlockCount(c, f))
  }

  /** Raising the rank of one block changes exactly the totals whose threshold it crosses,
      and by exactly that block. */
  lemma RankStep(c: Config, f: nat, rank: seq<nat>, i: nat, r: nat, k: nat)
    requires i < |rank| && rank[i] <= r
    ensures Crc(c, f, rank[i := r], k) ==
            if rank[i] < k <= r then Xor(Crc(c, f, rank, k), HashOf(c, f, i)) else Crc(c, f, rank, k)
    ensures Bytes(c, f, rank[i := r], k) ==
            Bytes(c, f, rank, k) + if rank[i] < k <= r then |Data(c, f, i)| else 0
    ensures Count(c, f, rank[i := r], k) ==
            Count(c, f, rank, k) + if rank[i] < k <= r then One(c, f, i) else 0
  {
    if rank[i] < k <= r {
      CrcStep(c, f, rank, i, r, k);
    } else {
      CrcSame(c, f, rank, i, r, k);
    }
    SumStep(c, f, rank, i, r, k);
  }

  lemma {:induction false} CrcStep(c: Config, f: nat, rank: seq<nat>, i: nat, r: nat, k: nat)
    requires i < |rank| && rank[i] < k <= r
    ensures Crc(c, f, rank[i := r], k) == Xor(Crc(c, f, rank, k), HashOf(c, f, i))
    decreases |rank|
  {
    var rank', m := rank[i := r], |rank| - 1;
    if i == m {
      assert rank'[..m] == rank[..m];
    } else {
      assert rank'[..m] == rank[..m][i := r];
      CrcStep(c, f, rank[..m], i, r, k);
      XorSwap(Crc(c, f, rank[..m], k), HashOf(c, f, i), HashAt(c, f, rank, m, k));
    }
  }

  lemma {:induction false} CrcSame(c: Config, f: nat, rank: seq<nat>, i: nat, r: nat, k: nat)
    requires i < |rank| && rank[i] <= r && !(rank[i] < k <= r)
    ensures Crc(c, f, rank[i := r], k) == Crc(c, f, rank, k)
    decreases |rank|
  {
    var rank', m := rank[i := r], |rank| - 1;
    if i == m {
      assert rank'[..m] == rank[..m];
    } else {
      assert rank'[..m] == rank[..m][i := r];
      CrcSame(c, f, rank[..m], i, r, k);
    }
  }

  lemma {:induction false} SumStep(c: Config, f: nat, rank: seq<nat>, i: nat, r: nat, k: nat)
    requires i < |rank| && rank[i] <= r
    ensures Bytes(c, f, rank[i := r], k) ==
            Bytes(c, f, rank, k) + if rank[i] < k <= r then |Data(c, f, i)| else 0
    ensures Count(c, f, rank[i := r], k) ==
            Count(c, f, rank, k) + if rank[i] < k <= r then One(c, f, i) else 0
    decreases |rank|
  {
    var rank', m := rank[i := r], |rank| - 1;
    if i == m {
      assert rank'[..m] == rank[..m];
    } else {
      assert rank'[..m] == rank[..m][i := r];
      SumStep(c, f, rank[..m], i, r, k);
    }
  }

  /** A freshly claimed block changes no total. */
  lemma RankAppend(c: Config, f: nat, rank: seq<nat>, k: nat)
    requires k > 0
    ensures Crc(c, f, rank + [0], k) == Crc(c, f, rank, k)
    ensures Bytes(c, f, rank + [0], k) == Bytes(c, f, rank, k)
    ensures Count(c, f, rank + [0], k) == Count(c, f, rank, k)
  {
    assert (rank + [0])[..|rank|] == rank;
  }

  function Min(a: nat, b: nat): nat { if a <= b then a else b }

  /** Totals over any prefix of processed blocks, counted without the rank bookkeeping. */
  lemma {:induction false} PrefixCrc(c: Config, f: nat, rank: seq<nat>, k: nat)
    requires forall i | 0 <= i < |rank| && i < BlockCount(c, f) :: rank[i] >= k
    ensures Crc(c, f, rank, k) == CrcUpTo(c, f, Min(|rank|, BlockCount(c, f)))
    decreases |rank|
  {
    if rank != [] {
      var m := |rank| - 1;
      PrefixCrc(c, f, rank[..m], k);
      EofIndex(c, f, m);
    }
  }

  lemma {:induction false} PrefixSums(c: Config, f: nat, rank: seq<nat>, k: nat)
    requires forall i | 0 <= i < |rank| && i < BlockCount(c, f) :: rank[i] >= k
    ensures Bytes(c, f, rank, k) == Min(Offset(c, |rank|), |c.src(f)|)
    ensures Count(c, f, rank, k) == Min(|rank|, BlockCount(c, f))
    decreases |rank|
  {
    if rank != [] {
      var m := |rank| - 1;
      PrefixSums(c, f, rank[..m], k);
      EofIndex(c, f, m);
    }
  }

  /** Once every block of the file has reached rank k, the totals are the file's own:
      ceil(size / block) blocks, size bytes, and the exclusive or of all block hashes. */
  lemma FullTotals(c: Config, f: nat, rank: seq<nat>, k: nat)
    requires |rank| >= BlockCount(c, f)
    requires forall i | 0 <= i < BlockCount(c, f) :: rank[i] >= k
    ensures Crc(c, f, rank, k) == CrcAll(c, f)
    ensures Bytes(c, f, rank, k) == |c.src(f)|
    ensures Count(c, f, rank, k) == BlockCount(c, f)
  {
    PrefixCrc(c, f, rank, k);
    PrefixSums(c, f, rank, k);
    EofIndex(c, f, |rank|);
  }

  /** The converse for the block count: a file's full count is reached only when every
      block has been counted. */
  lemma {:induction false} CountBound(c: Config, f: nat, rank: seq<nat>, k: nat)
    ensures Count(c, f, rank, k) <= |rank|
    ensures Count(c, f, rank, k) == |rank| ==> forall i | 0 <= i < |rank| :: rank[i] >= k
    decreases |rank|
  {
    if rank != [] {
      CountBound(c, f, rank[..|rank| - 1], k);
    }
  }

  // ---- What the folded hash is, over the bytes of the file ----

  /** The `i`th cut of `block` bytes; the last one may be shorter. */
  function Cut(s: seq<Byte>, block: nat, i: nat): seq<Byte>
    requires i * block <= |s|
  {
    if (i + 1) * block <= |s| then s[i * block..(i + 1) * block] else s[i * block..]
  }

  /** How many of the first `n` cuts of the file have bit `b` in their hash. */
  function Having(c: Config, f: nat, b: nat, n: nat): nat
    requires n <= BlockCount(c, f)
  {
    if n == 0 then 0
    else
      CutStarts(c, f, n - 1);
      Having(c, f, b, n - 1) + if b in c.hash(Cut(c.src(f), c.block, n - 1)) then 1 else 0
  }

  lemma CutStarts(c: Config, f: nat, i: nat)
    requires i < BlockCount(c, f)
    ensures i * c.block < |c.src(f)|
  {
    EofIndex(c, f, i);
    OffsetIsProduct(c, i);
  }

  /** Block `i` as it is read is cut `i` of the file. */
  lemma DataIsCut(c: Config, f: nat, i: nat)
    requires i < BlockCount(c, f)
    ensures i * c.block < |c.src(f)| && Data(c, f, i) == Cut(c.src(f), c.block, i) != []
  {
    CutStarts(c, f, i);
    EofIndex(c, f, i);
    OffsetIsProduct(c, i);
    OffsetIsProduct(c, i + 1);
  }

  lemma {:induction false} CrcParityUpTo(c: Config, f: nat, b: nat, n: nat)
    requires n <= BlockCount(c, f)
    ensures b in CrcUpTo(c, f, n) <==> Having(c, f, b, n) % 2 == 1
  {
    hide Data, Cut, BlockCount, Pieces;
    if n > 0 {
      CrcParityUpTo(c, f, b, n - 1);
      DataIsCut(c, f, n - 1);
    }
  }

  /** A bit of the file's hash is set exactly if it is set in the hashes of an odd number of its cuts. */
  lemma CrcParity(c: Config, f: nat, b: nat)
    ensures b in CrcAll(c, f) <==> Having(c, f, b, BlockCount(c, f)) % 2 == 1
  {
    CrcParityUpTo(c, f, b, BlockCount(c, f));
  }

  /** Two equal blocks leave no trace in the hash. */
  lemma EqualBlocksCancel(c: Config, f: nat)
    requires |c.src(f)| == 2 * c.block && c.src(f)[..c.block] == c.src(f)[c.block..]
    ensures CrcAll(c, f) == {}
  {
    PiecesIsCeiling(c, |c.src(f)|);
    assert BlockCount(c, f) == 2 by {
      assert Pieces(|c.src(f)| - c.block, c.block) == 1;
    }
    forall b: nat
      ensures b !in CrcAll(c, f)
    {
      CrcParity(c, f, b);
      var s := c.src(f);
      assert Cut(s, c.block, 0) == s[..c.block] && Cut(s, c.block, 1) == s[c.block..];
      assert Having(c, f, b, 0) == 0;
      assert Having(c, f, b, 1) == if b in c.hash(s[..c.block]) then 1 else 0;
      assert Having(c, f, b, 2) == Having(c, f, b, 1) + if b in c.hash(s[c.block..]) then 1 else 0;
    }
  }
}
