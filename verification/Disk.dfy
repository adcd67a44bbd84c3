/** Reassembling a file from blocks that arrive in any order.

    The receiver pads every write to a multiple of 4096 bytes with whatever the I/O buffer
    held before, skips all-zero writes in sparse mode, and truncates the file to its announced
    size at the end.
 */
module Disk {
  import opened Blocks

  /** The byte a read at position `p` would return, with holes and the space past the end
      reading as zero. */
  function At(d: seq<Byte>, p: nat): Byte {
    if p < |d| then d[p] else 0
  }

  function PWrite(d: seq<Byte>, offset: nat, data: seq<Byte>): (r: seq<Byte>)
    ensures forall p: nat :: At(r, p) == if offset <= p < offset + |data| then data[p - offset] else At(d, p)
  {
    var n := if |d| < offset + |data| then offset + |data| else |d|;
    seq(n, p requires 0 <= p => if offset <= p < offset + |data| then data[p - offset] else At(d, p))
  }

  function FTruncate(d: seq<Byte>, n: nat): (r: seq<Byte>)
    ensures |r| == n && forall p | 0 <= p < n :: r[p] == At(d, p)
  {
    seq(n, p requires 0 <= p => At(d, p))
  }

  predicate AllZero(b: seq<Byte>) { forall k | 0 <= k < |b| :: b[k] == 0 }

  /** `(n + 4095) & ~4095`: clearing the low twelve bits takes the remainder away. */
  function PadUp(n: nat): nat { (n + 4095) - (n + 4095) % 4096 }

  /** One write through the engine. */
  function Store(sparse: bool, d: seq<Byte>, offset: nat, buffer: seq<Byte>): seq<Byte> {
    if sparse && AllZero(buffer) then d else PWrite(d, offset, buffer)
  }

  /** The bytes beyond the payload that a padded write takes along. */
  predicate PadOk(payload: seq<Byte>, pad: seq<Byte>) {
    |payload| + |pad| == PadUp(|payload|)
  }

  function StoreBlock(c: Config, f: nat, sparse: bool, d: seq<Byte>, i: nat, pad: seq<Byte>): seq<Byte> {
    Store(sparse, d, Offset(c, i), Data(c, f, i) + pad)
  }

  // ---- What the file holds while blocks are still missing ----

  /** Block `i` reads back as in the source if `stored`, and as zeroes if not. */
  ghost predicate Reads(c: Config, f: nat, d: seq<Byte>, i: nat, stored: bool) {
    forall x: nat | x < |Data(c, f, i)| :: ReadsAt(c, f, d, i, stored, x)
  }

  predicate ReadsAt(c: Config, f: nat, d: seq<Byte>, i: nat, stored: bool, x: nat)
    requires x < |Data(c, f, i)|
  {
    At(d, Offset(c, i) + x) == if stored then Data(c, f, i)[x] else 0
  }

  /** Every block that reached rank `k` reads back as in the source; every other block still
      reads as zeroes. */
  ghost predicate Holds(c: Config, f: nat, d: seq<Byte>, rank: seq<nat>, k: nat) {
    |rank| == BlockCount(c, f) && forall i | 0 <= i < |rank| :: Reads(c, f, d, i, rank[i] >= k)
  }

  lemma {:induction false} OffsetMonotone(c: Config, i: nat, j: nat)
    requires i <= j
    ensures Offset(c, i) <= Offset(c, j)
    ensures i < j ==> Offset(c, i) + c.block <= Offset(c, j)
    decreases j
  {
    if i < j {
      OffsetMonotone(c, i, j - 1);
    }
  }

  /** With a block size that is a multiple of the page size, a padded write stays within its block. */
  lemma PadFits(c: Config, n: nat)
    requires c.block % 4096 == 0 && n <= c.block
    ensures n <= PadUp(n) <= c.block
  {
  }

  /** Padded writes of one block never reach a byte of another. */
  lemma Disjoint(c: Config, f: nat, i: nat, j: nat, x: nat)
    requires c.block % 4096 == 0 && i != j && x < |Data(c, f, j)|
    ensures !(Offset(c, i) <= Offset(c, j) + x < Offset(c, i) + PadUp(|Data(c, f, i)|))
  {
    PadFits(c, |Data(c, f, i)|);
    if i < j {
      OffsetMonotone(c, i, j);
    } else {
      OffsetMonotone(c, j, i);
    }
  }

  /** Storing one more block, whole or skipped as zero, padded with anything. */
  lemma StoreKeeps(c: Config, f: nat, sparse: bool, d: seq<Byte>, rank: seq<nat>, k: nat,
                   i: nat, pad: seq<Byte>, v: nat)
    requires c.block % 4096 == 0
    requires Holds(c, f, d, rank, k) && i < |rank| && rank[i] < k <= v
    requires PadOk(Data(c, f, i), pad)
    ensures Holds(c, f, StoreBlock(c, f, sparse, d, i, pad), rank[i := v], k)
  {
    var d', rank', buffer := StoreBlock(c, f, sparse, d, i, pad), rank[i := v], Data(c, f, i) + pad;
    forall j | 0 <= j < |rank'|
      ensures Reads(c, f, d', j, rank'[j] >= k)
    {
      var was, now := rank[j] >= k, rank'[j] >= k;
      assert Reads(c, f, d, j, was);
      forall x: nat | x < |Data(c, f, j)|
        ensures ReadsAt(c, f, d', j, now, x)
      {
        assert ReadsAt(c, f, d, j, was, x);
        if j != i {
          Disjoint(c, f, i, j, x);
        } else {
          assert buffer[x] == Data(c, f, i)[x];
        }
      }
    }
  }

  lemma EmptyHolds(c: Config, f: nat, rank: seq<nat>, k: nat)
    requires |rank| == BlockCount(c, f) && forall i | 0 <= i < |rank| :: rank[i] < k
    ensures Holds(c, f, [], rank, k)
  {
    forall i | 0 <= i < |rank|
      ensures Reads(c, f, [], i, rank[i] >= k)
    {
    }
  }

  /** Every position of the source lies in exactly one block. */
  lemma {:induction false} Locate(c: Config, f: nat, p: nat, n: nat) returns (i: nat, x: nat)
    requires p < |c.src(f)| && p < Offset(c, n)
    ensures p == Offset(c, i) + x && i < n && i < BlockCount(c, f) && x < |Data(c, f, i)|
  {
    if p >= Offset(c, n - 1) {
      i, x := n - 1, p - Offset(c, n - 1);
      EofIndex(c, f, i);
    } else {
      i, x := Locate(c, f, p, n - 1);
    }
  }

  /** Once every block has been stored, truncating to the announced size gives the source. */
  lemma WholeFile(c: Config, f: nat, d: seq<Byte>, rank: seq<nat>, k: nat)
    requires Holds(c, f, d, rank, k) && forall i | 0 <= i < |rank| :: rank[i] >= k
    ensures FTruncate(d, |c.src(f)|) == c.src(f)
  {
    EofIndex(c, f, BlockCount(c, f));
    forall p | 0 <= p < |c.src(f)|
      ensures At(d, p) == c.src(f)[p]
    {
      var i, x := Locate(c, f, p, BlockCount(c, f));
      assert Reads(c, f, d, i, rank[i] >= k);
      assert ReadsAt(c, f, d, i, rank[i] >= k, x);
      assert Data(c, f, i)[x] == c.src(f)[p];
    }
  }

  // ---- Any arrival order, and exactly which block sizes survive it ----

  function StoreAll(c: Config, f: nat, sparse: bool, d: seq<Byte>, order: seq<nat>, pads: seq<seq<Byte>>): seq<Byte>
    requires |pads| == |order|
    decreases |order|
  {
    if order == [] then d
    else
      StoreAll(c, f, sparse, StoreBlock(c, f, sparse, d, order[0], pads[0]), order[1..], pads[1..])
  }

  /** Each block of the file once, in any order. */
  ghost predicate ArrivalOrder(c: Config, f: nat, order: seq<nat>) {
    && (forall j | 0 <= j < |order| :: order[j] < BlockCount(c, f))
    && (forall i | 0 <= i < BlockCount(c, f) :: i in order)
    && (forall j, k | 0 <= j < k < |order| :: order[j] != order[k])
  }

  ghost predicate PadsOk(c: Config, f: nat, order: seq<nat>, pads: seq<seq<Byte>>) {
    |pads| == |order| && forall j | 0 <= j < |order| :: PadOk(Data(c, f, order[j]), pads[j])
  }

  /** The file comes out whole whatever the order and whatever the buffers held before. */
  ghost predicate Reassembles(c: Config, f: nat, sparse: bool) {
    forall order, pads | ArrivalOrder(c, f, order) && PadsOk(c, f, order, pads) ::
      FTruncate(StoreAll(c, f, sparse, [], order, pads), |c.src(f)|) == c.src(f)
  }

  lemma {:induction false} StoreAllKeeps(c: Config, f: nat, sparse: bool, d: seq<Byte>, rank: seq<nat>,
                                         order: seq<nat>, pads: seq<seq<Byte>>)
    returns (rank': seq<nat>)
    requires c.block % 4096 == 0 && PadsOk(c, f, order, pads) && Holds(c, f, d, rank, 1)
    requires forall j | 0 <= j < |order| :: order[j] < |rank| && rank[order[j]] == 0
    requires forall j, k | 0 <= j < k < |order| :: order[j] != order[k]
    ensures |rank'| == |rank| && Holds(c, f, StoreAll(c, f, sparse, d, order, pads), rank', 1)
    ensures forall i | 0 <= i < |rank| :: rank'[i] >= 1 <==> rank[i] >= 1 || i in order
    decreases |order|
  {
    if order == [] {
      rank' := rank;
    } else {
      StoreKeeps(c, f, sparse, d, rank, 1, order[0], pads[0], 1);
      rank' := StoreAllKeeps(c, f, sparse, StoreBlock(c, f, sparse, d, order[0], pads[0]),
                             rank[order[0] := 1], order[1..], pads[1..]);
    }
  }

  lemma AlignedReassembles(c: Config, f: nat, sparse: bool)
    requires c.block % 4096 == 0
    ensures Reassembles(c, f, sparse)
  {
    forall order, pads | ArrivalOrder(c, f, order) && PadsOk(c, f, order, pads)
      ensures FTruncate(StoreAll(c, f, sparse, [], order, pads), |c.src(f)|) == c.src(f)
    {
      var rank := seq(BlockCount(c, f), _ => 0);
      EmptyHolds(c, f, rank, 1);
      var rank' := StoreAllKeeps(c, f, sparse, [], rank, order, pads);
      WholeFile(c, f, StoreAll(c, f, sparse, [], order, pads), rank', 1);
    }
  }

  /** A later write of other blocks leaves a position before them alone. */
  lemma {:induction false} StoreAllFrame(c: Config, f: nat, sparse: bool, d: seq<Byte>,
                                         order: seq<nat>, pads: seq<seq<Byte>>, p: nat)
    requires |pads| == |order| && forall j | 0 <= j < |order| :: p < Offset(c, order[j])
    ensures At(StoreAll(c, f, sparse, d, order, pads), p) == At(d, p)
    decreases |order|
  {
    if order != [] {
      StoreAllFrame(c, f, sparse, StoreBlock(c, f, sparse, d, order[0], pads[0]), order[1..], pads[1..], p);
    }
  }

  /** Stale bytes of the right length, starting with `first` if there is room for it. */
  function Stale(payload: seq<Byte>, first: Byte): (pad: seq<Byte>)
    ensures PadOk(payload, pad)
    ensures |pad| > 0 ==> pad[0] == first
  {
    seq(PadUp(|payload|) - |payload|, _ => first)
  }

  /** A block size off the page grid loses data as soon as the second block lands before the
      first: the first block's padding overwrites the second block's first byte. */
  lemma UnalignedFails(c: Config, f: nat, sparse: bool)
    requires c.block % 4096 != 0 && BlockCount(c, f) >= 2
    ensures !Reassembles(c, f, sparse)
  {
    var p := Offset(c, 1);
    EofIndex(c, f, 1);
    var bad: Byte := if c.src(f)[p] == 1 then 2 else 1;
    var order, pads := BadOrder(c, f), BadPads(c, f, bad);
    BadOrderOk(c, f, bad);
    var d1 := StoreBlock(c, f, sparse, [], 1, pads[0]);
    var d0 := StoreBlock(c, f, sparse, d1, 0, pads[1]);
    assert order[1..][1..] == order[2..] && pads[1..][1..] == pads[2..];
    assert StoreAll(c, f, sparse, [], order, pads) == StoreAll(c, f, sparse, d0, order[2..], pads[2..]);
    UnalignedOverlap(c, f, sparse, d1, bad);
    forall j | 0 <= j < |order[2..]|
      ensures p < Offset(c, order[2..][j])
    {
      OffsetMonotone(c, 1, order[2..][j]);
    }
    StoreAllFrame(c, f, sparse, d0, order[2..], pads[2..], p);
    assert FTruncate(StoreAll(c, f, sparse, [], order, pads), |c.src(f)|)[p] == bad != c.src(f)[p];
  }

  /** Second block first, then the first, then the rest in order. */
  function BadOrder(c: Config, f: nat): seq<nat>
    requires BlockCount(c, f) >= 2
  {
    [1, 0] + seq(BlockCount(c, f) - 2, j requires 0 <= j => j + 2)
  }

  function BadPads(c: Config, f: nat, bad: Byte): seq<seq<Byte>>
    requires BlockCount(c, f) >= 2
  {
    [Stale(Data(c, f, 1), 0), Stale(Data(c, f, 0), bad)]
    + seq(BlockCount(c, f) - 2, j requires 0 <= j => Stale(Data(c, f, j + 2), 0))
  }

  lemma BadOrderOk(c: Config, f: nat, bad: Byte)
    requires BlockCount(c, f) >= 2
    ensures ArrivalOrder(c, f, BadOrder(c, f)) && PadsOk(c, f, BadOrder(c, f), BadPads(c, f, bad))
  {
    var order := BadOrder(c, f);
    forall i | 0 <= i < BlockCount(c, f)
      ensures i in order
    {
      assert order[if i == 1 then 0 else if i == 0 then 1 else i] == i;
    }
  }

  lemma UnalignedOverlap(c: Config, f: nat, sparse: bool, d: seq<Byte>, bad: Byte)
    requires c.block % 4096 != 0 && BlockCount(c, f) >= 2 && bad != 0
    ensures At(StoreBlock(c, f, sparse, d, 0, Stale(Data(c, f, 0), bad)), Offset(c, 1)) == bad
  {
    EofIndex(c, f, 1);
    var data, pad := Data(c, f, 0), Stale(Data(c, f, 0), bad);
    assert |data| == c.block == Offset(c, 1);
    assert |pad| > 0;
    assert (data + pad)[c.block] == bad;
    assert !AllZero(data + pad);
  }

  /** Exactly the page-multiple block sizes reassemble every file of two or more blocks. */
  lemma ReassemblesIff(c: Config, f: nat, sparse: bool)
    ensures Reassembles(c, f, sparse) <==> c.block % 4096 == 0 || BlockCount(c, f) < 2
  {
    if c.block % 4096 == 0 {
      AlignedReassembles(c, f, sparse);
    } else if BlockCount(c, f) >= 2 {
      UnalignedFails(c, f, sparse);
    } else {
      SmallReassembles(c, f, sparse);
    }
  }

  lemma ConstantOrder(order: seq<nat>)
    requires forall j | 0 <= j < |order| :: order[j] == 0
    ensures |order| <= 1 || order[0] == order[1]
  {
  }

  /** A file of at most one block is safe at any block size. */
  lemma SmallReassembles(c: Config, f: nat, sparse: bool)
    requires BlockCount(c, f) < 2
    ensures Reassembles(c, f, sparse)
  {
    EofIndex(c, f, 1);
    forall order, pads | ArrivalOrder(c, f, order) && PadsOk(c, f, order, pads)
      ensures FTruncate(StoreAll(c, f, sparse, [], order, pads), |c.src(f)|) == c.src(f)
    {
      EofIndex(c, f, 0);
      if BlockCount(c, f) == 1 {
        assert 0 in order;
        ConstantOrder(order);
        var buffer := Data(c, f, 0) + pads[0];
        assert StoreAll(c, f, sparse, [], order, pads) == StoreBlock(c, f, sparse, [], 0, pads[0]);
        forall p | 0 <= p < |c.src(f)|
          ensures At(StoreBlock(c, f, sparse, [], 0, pads[0]), p) == c.src(f)[p]
        {
          assert buffer[p] == c.src(f)[p];
        }
      }
    }
  }
}
