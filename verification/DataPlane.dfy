/** Blocks on their way from the sender's workers to the receiver's disk.

    The sender's side is the work-sharing machine; every frame it sends enters the network and
    is taken, in any order, by one of any number of receive workers. A receive worker looks the
    file up once and then keeps using the cached slot pointer and descriptor, folds the block's
    hash in, writes, counts bytes and counts the block. The receiver's main thread opens files
    and closes a file once its block count has reached the count the sender reported.

    `ever`, `got` and `holder` are history; `fault` records a use of a slot or descriptor
    after it was given up.
 */
module DataPlane {
  import opened Blocks
  import opened Disk
  import Share = SenderShare
  import opened SenderShare
  import W = StateWord

  datatype Slot = Slot(blockTotal: nat, bytesTotal: nat, crc: Word)

  /** A receive worker's frame in hand. Stages: 0 frame read, 1 file looked up, 2 hash folded in,
      3 block written, 4 bytes counted. */
  datatype Job = None | Block(key: Key, pad: seq<Byte>, stage: nat)

  datatype RxWorker = RxWorker(cached: nat, job: Job)

  datatype Closed = Closed(content: seq<Byte>, crc: Word, blocks: nat)

  /** The receiver's side. */
  datatype Rx = Rx(table: map<nat, Slot>, disk: map<nat, seq<Byte>>, workers: seq<RxWorker>, closed: map<nat, Closed>,
                   ever: set<nat>, got: map<nat, seq<nat>>, holder: map<Key, nat>, fault: bool)

  datatype Plane = Plane(tx: Share.State, net: set<Key>, rx: Rx)

  datatype Step =
    | Tx(a: Share.Action)
    | Take(w: nat, k: Key, pad: seq<Byte>)   // network_recv of a data frame
    | Lookup(w: nat)                         // file_wait, unless the file is the cached one
    | RxFold(w: nat)                         // fetch-xor of the block hash
    | Write(w: nat)                          // padded pwrite, or skipped when sparse
    | RxSize(w: nat)                         // fetch-add on bytes_total
    | RxTick(w: nat)                         // fetch-add on block_total
    | Open(f: nat)                           // add_file
    | Close(f: nat, blocks: nat, size: nat)  // one round of close_file

  function Start(n: nat, m: nat): Plane {
    Plane(Share.Init(n), {}, Rx(map[], map[], seq(m, _ => RxWorker(0, None)), map[], {}, map[], map[], false))
  }

  predicate HasJob(r: Rx, w: nat, stage: nat) {
    w < |r.workers| && r.workers[w].job.Block? && r.workers[w].job.stage == stage
  }

  /** The sender has reported the file complete with this many blocks. */
  predicate Reported(s: Plane, f: nat, blocks: nat) {
    exists d | d in s.tx.done :: d.file == f && d.blocks == blocks
  }

  predicate Can(c: Config, s: Plane, a: Step) {
    match a
    case Tx(t) => Share.Enabled(c, s.tx, t)
    case Take(w, k, pad) => k in s.net && CanTake(c, s.rx, w, k, pad)
    case Lookup(w) => CanLookup(s.rx, w)
    case RxFold(w) => HasJob(s.rx, w, 1)
    case Write(w) => HasJob(s.rx, w, 2)
    case RxSize(w) => HasJob(s.rx, w, 3)
    case RxTick(w) => HasJob(s.rx, w, 4)
    case Open(f) => f > 0 && f !in s.rx.ever
    case Close(f, blocks, size) => CanClose(s.rx, f, blocks) && Reported(s, f, blocks) && size == |c.src(f)|
  }

  predicate CanTake(c: Config, r: Rx, w: nat, k: Key, pad: seq<Byte>) {
    w < |r.workers| && r.workers[w].job.None? && PadOk(Data(c, k.file, k.index), pad)
  }

  predicate CanLookup(r: Rx, w: nat) {
    HasJob(r, w, 0) && (r.workers[w].cached == r.workers[w].job.key.file || r.workers[w].job.key.file in r.table)
  }

  predicate CanClose(r: Rx, f: nat, blocks: nat) {
    f in r.table && r.table[f].blockTotal >= blocks
  }

  function DoTx(c: Config, s: Plane, t: Share.Action): Plane
    requires Share.Enabled(c, s.tx, t)
  {
    var tx := Share.Apply(c, s.tx, t);
    s.(tx := tx, net := s.net + (tx.sent - s.tx.sent))
  }

  function DoTake(c: Config, r: Rx, w: nat, k: Key, pad: seq<Byte>): Rx
    requires CanTake(c, r, w, k, pad)
  {
    r.(holder := r.holder[k := w], workers := r.workers[w := r.workers[w].(job := Block(k, pad, 0))])
  }

  function DoLookup(c: Config, r: Rx, w: nat): Rx
    requires CanLookup(r, w)
  {
    r.(workers := r.workers[w := RxWorker(r.workers[w].job.key.file, r.workers[w].job.(stage := 1))])
  }

  function Raised(got: map<nat, seq<nat>>, k: Key, v: nat): map<nat, seq<nat>> {
    if k.file in got && k.index < |got[k.file]| then
      var g: seq<nat> := got[k.file][k.index := v];
      got[k.file := g]
    else got
  }

  /** Moves the frame in hand of worker `w` one stage on; ranks follow one behind the stage. */
  function Advance(r: Rx, w: nat, slot: Slot, d: seq<Byte>): Rx
    requires w < |r.workers| && r.workers[w].job.Block?
  {
    var j := r.workers[w].job;
    var f := j.key.file;
    if f in r.table then
      r.(table := r.table[f := slot], disk := r.disk[f := d], got := Raised(r.got, j.key, j.stage),
         workers := r.workers[w := r.workers[w].(job := if j.stage < 4 then j.(stage := j.stage + 1) else None)])
    else r.(fault := true)
  }

  function SlotOf(r: Rx, w: nat): Slot
    requires w < |r.workers| && r.workers[w].job.Block?
  {
    if r.workers[w].job.key.file in r.table then r.table[r.workers[w].job.key.file] else Slot(0, 0, {})
  }

  function DiskOf(r: Rx, f: nat): seq<Byte> {
    if f in r.disk then r.disk[f] else []
  }

  function DoRxFold(c: Config, r: Rx, w: nat): Rx
    requires HasJob(r, w, 1)
  {
    var k, slot := r.workers[w].job.key, SlotOf(r, w);
    Advance(r, w, slot.(crc := Xor(slot.crc, HashOf(c, k.file, k.index))), DiskOf(r, k.file))
  }

  function DoWrite(c: Config, sparse: bool, r: Rx, w: nat): Rx
    requires HasJob(r, w, 2)
  {
    var k := r.workers[w].job.key;
    Advance(r, w, SlotOf(r, w), StoreBlock(c, k.file, sparse, DiskOf(r, k.file), k.index, r.workers[w].job.pad))
  }

  function DoRxSize(c: Config, r: Rx, w: nat): Rx
    requires HasJob(r, w, 3)
  {
    var k, slot := r.workers[w].job.key, SlotOf(r, w);
    var n := |Data(c, k.file, k.index) + r.workers[w].job.pad|;
    Advance(r, w, slot.(bytesTotal := slot.bytesTotal + n), DiskOf(r, k.file))
  }

  function DoRxTick(c: Config, r: Rx, w: nat): Rx
    requires HasJob(r, w, 4)
  {
    var k, slot := r.workers[w].job.key, SlotOf(r, w);
    Advance(r, w, slot.(blockTotal := slot.blockTotal + 1), DiskOf(r, k.file))
  }

  function DoOpen(c: Config, r: Rx, f: nat): Rx {
    r.(table := r.table[f := Slot(0, 0, {})], disk := r.disk[f := []], ever := r.ever + {f},
       got := r.got[f := seq(BlockCount(c, f), _ => 0)])
  }

  function DoClose(c: Config, r: Rx, f: nat, size: nat): Rx
    requires f in r.table
  {
    r.(closed := r.closed[f := Closed(FTruncate(DiskOf(r, f), size), r.table[f].crc, r.table[f].blockTotal)],
       table := r.table - {f})
  }

  function Do(c: Config, sparse: bool, s: Plane, a: Step): Plane
    requires Can(c, s, a)
  {
    match a
    case Tx(t) => DoTx(c, s, t)
    case Take(w, k, pad) => s.(net := s.net - {k}, rx := DoTake(c, s.rx, w, k, pad))
    case Lookup(w) => s.(rx := DoLookup(c, s.rx, w))
    case RxFold(w) => s.(rx := DoRxFold(c, s.rx, w))
    case Write(w) => s.(rx := DoWrite(c, sparse, s.rx, w))
    case RxSize(w) => s.(rx := DoRxSize(c, s.rx, w))
    case RxTick(w) => s.(rx := DoRxTick(c, s.rx, w))
    case Open(f) => s.(rx := DoOpen(c, s.rx, f))
    case Close(f, blocks, size) => s.(rx := DoClose(c, s.rx, f, size))
  }

  // ---- Invariant ----

  /** A frame that was sent is either in the network or has been taken by a receive worker. */
  ghost predicate NetOk(s: Plane) {
    && s.tx.sent == s.net + s.rx.holder.Keys
    && s.net !! s.rx.holder.Keys
  }

  predicate Busy(x: RxWorker, k: Key) { x.job.Block? && x.job.key == k }

  /** How far the receiver got with a block, as its rank: one behind the worker's stage. */
  function RankAt(stage: nat): nat { if stage == 0 then 0 else stage - 1 }

  predicate GotAt(r: Rx, k: Key, v: nat) {
    k.file in r.got && k.index < |r.got[k.file]| && r.got[k.file][k.index] == v
  }

  ghost predicate WorkerOk(c: Config, r: Rx, w: nat)
    requires w < |r.workers|
  {
    var x := r.workers[w];
    && (x.cached > 0 ==> x.cached in r.ever)
    && (x.job.Block? ==>
          && x.job.stage <= 4
          && x.job.key in r.holder && r.holder[x.job.key] == w
          && PadOk(Data(c, x.job.key.file, x.job.key.index), x.job.pad)
          && (x.job.key.file in r.ever ==> GotAt(r, x.job.key, RankAt(x.job.stage)))
          && (x.job.stage > 0 ==> x.cached == x.job.key.file && x.cached in r.table))
  }

  ghost predicate HolderOk(c: Config, r: Rx, k: Key)
    requires k in r.holder
  {
    && k.file > 0 && k.index < BlockCount(c, k.file)
    && r.holder[k] < |r.workers| && (Busy(r.workers[r.holder[k]], k) || GotAt(r, k, 4))
  }

  ghost predicate EverOk(c: Config, r: Rx, f: nat) {
    && f > 0 && (f in r.table || f in r.closed)
    && f in r.got && |r.got[f]| == BlockCount(c, f)
    && (forall i | 0 <= i < |r.got[f]| :: r.got[f][i] > 0 ==> Key(f, i) in r.holder)
  }

  ghost predicate SlotOk(c: Config, r: Rx, f: nat)
    requires f in r.table
  {
    && f in r.ever && f in r.got && f in r.disk
    && r.table[f].crc == Crc(c, f, r.got[f], 1)
    && r.table[f].blockTotal == Count(c, f, r.got[f], 4)
    && Disk.Holds(c, f, r.disk[f], r.got[f], 2)
  }

  /** A closed file is the source, byte for byte, with the source's folded hash. */
  ghost predicate ClosedOk(c: Config, r: Rx, f: nat)
    requires f in r.closed
  {
    && f in r.ever && f !in r.table && f in r.got
    && r.closed[f] == Closed(c.src(f), CrcAll(c, f), BlockCount(c, f))
    && (forall i | 0 <= i < |r.got[f]| :: r.got[f][i] == 4)
  }

  ghost predicate WorkersOk(c: Config, r: Rx) {
    forall w | 0 <= w < |r.workers| :: WorkerOk(c, r, w)
  }

  ghost predicate HoldersOk(c: Config, r: Rx) {
    forall k | k in r.holder :: HolderOk(c, r, k)
  }

  ghost predicate FilesOk(c: Config, r: Rx) {
    && r.got.Keys == r.ever
    && (forall f | f in r.ever :: EverOk(c, r, f))
    && (forall f | f in r.table :: SlotOk(c, r, f))
    && (forall f | f in r.closed :: ClosedOk(c, r, f))
    && !r.fault
  }

  ghost predicate RxInv(c: Config, r: Rx) {
    WorkersOk(c, r) && HoldersOk(c, r) && FilesOk(c, r)
  }

  ghost predicate Inv(c: Config, s: Plane) {
    c.block % 4096 == 0 && Share.Inv(c, s.tx) && NetOk(s) && RxInv(c, s.rx)
  }

  // ---- Every step keeps the invariant ----

  lemma SentGrows(c: Config, s: Share.State, t: Share.Action)
    requires Share.Enabled(c, s, t)
    ensures s.sent <= Share.Apply(c, s, t).sent
    ensures s.done <= Share.Apply(c, s, t).done
    ensures s.added <= Share.Apply(c, s, t).added
  {
  }

  /** The sender's steps only add frames that were never sent before. */
  lemma TxKeeps(c: Config, s: Plane, t: Share.Action)
    requires Inv(c, s) && Share.Enabled(c, s.tx, t)
    ensures Inv(c, DoTx(c, s, t))
  {
    Share.ApplyKeeps(c, s.tx, t);
    SentGrows(c, s.tx, t);
  }

  lemma TakeKeeps(c: Config, r: Rx, w: nat, k: Key, pad: seq<Byte>)
    requires RxInv(c, r) && CanTake(c, r, w, k, pad) && k !in r.holder
    requires k.file > 0 && k.index < BlockCount(c, k.file)
    ensures RxInv(c, DoTake(c, r, w, k, pad))
  {
    var r' := DoTake(c, r, w, k, pad);
    forall v | 0 <= v < |r.workers|
      ensures WorkerOk(c, r', v)
    {
      assert WorkerOk(c, r, v);
      if v == w && k.file in r.ever {
        assert EverOk(c, r, k.file);
      }
    }
    forall l | l in r'.holder
      ensures HolderOk(c, r', l)
    {
      assert l != k ==> HolderOk(c, r, l);
    }
    SameFiles(c, r, r');
  }

  /** A cached slot is still the file's own slot whenever another frame of the file turns up. */
  lemma CachedSlotIsLive(c: Config, r: Rx, w: nat)
    requires RxInv(c, r) && CanLookup(r, w)
    ensures r.workers[w].job.key.file in r.table
  {
    var k := r.workers[w].job.key;
    assert WorkerOk(c, r, w) && HolderOk(c, r, k);
    if r.workers[w].cached == k.file {
      assert EverOk(c, r, k.file);
    }
  }

  lemma LookupKeeps(c: Config, r: Rx, w: nat)
    requires RxInv(c, r) && CanLookup(r, w)
    ensures RxInv(c, DoLookup(c, r, w))
  {
    CachedSlotIsLive(c, r, w);
    var r' := DoLookup(c, r, w);
    var k := r.workers[w].job.key;
    assert WorkerOk(c, r, w) && SlotOk(c, r, k.file);
    forall v | 0 <= v < |r.workers|
      ensures WorkerOk(c, r', v)
    {
      assert WorkerOk(c, r, v);
    }
    forall l | l in r'.holder
      ensures HolderOk(c, r', l)
    {
      assert HolderOk(c, r, l);
    }
    SameFiles(c, r, r');
  }

  /** Steps that touch no slot, no disk and no rank leave the files in order. */
  lemma SameFiles(c: Config, r: Rx, r': Rx)
    requires FilesOk(c, r)
    requires r'.table == r.table && r'.disk == r.disk && r'.closed == r.closed && r'.ever == r.ever && r'.got == r.got
    requires r.holder.Keys <= r'.holder.Keys && r'.fault == r.fault
    ensures FilesOk(c, r')
  {
    forall g | g in r.ever
      ensures EverOk(c, r', g)
    {
      assert EverOk(c, r, g);
    }
    forall g | g in r.table
      ensures SlotOk(c, r', g)
    {
      assert SlotOk(c, r, g);
    }
    forall g | g in r.closed
      ensures ClosedOk(c, r', g)
    {
      assert ClosedOk(c, r, g);
    }
  }

  /** Stage by stage, the frame in hand moves on; the slot and the disk must follow. */
  ghost predicate Follows(c: Config, r: Rx, w: nat, slot: Slot, d: seq<Byte>) {
    && w < |r.workers| && r.workers[w].job.Block? && 1 <= r.workers[w].job.stage <= 4
    && var k := r.workers[w].job.key;
       && k.file in r.got && k.index < |r.got[k.file]|
       && var g := r.got[k.file][k.index := r.workers[w].job.stage];
          && slot.crc == Crc(c, k.file, g, 1) && slot.blockTotal == Count(c, k.file, g, 4)
          && Disk.Holds(c, k.file, d, g, 2)
  }

  lemma AdvanceWorker(c: Config, r: Rx, w: nat, slot: Slot, d: seq<Byte>, v: nat)
    requires Follows(c, r, w, slot, d) && v < |r.workers| && WorkerOk(c, r, w) && WorkerOk(c, r, v)
    requires r.got.Keys == r.ever
    ensures WorkerOk(c, Advance(r, w, slot, d), v)
  {
  }

  lemma AdvanceHolder(c: Config, r: Rx, w: nat, slot: Slot, d: seq<Byte>, l: Key)
    requires Follows(c, r, w, slot, d) && l in r.holder && WorkerOk(c, r, w) && HolderOk(c, r, l)
    requires r.got.Keys == r.ever
    ensures HolderOk(c, Advance(r, w, slot, d), l)
  {
  }

  lemma AdvanceEver(c: Config, r: Rx, w: nat, slot: Slot, d: seq<Byte>, f: nat)
    requires Follows(c, r, w, slot, d) && WorkerOk(c, r, w) && EverOk(c, r, f)
    ensures EverOk(c, Advance(r, w, slot, d), f)
  {
  }

  lemma AdvanceSlot(c: Config, r: Rx, w: nat, slot: Slot, d: seq<Byte>, f: nat)
    requires Follows(c, r, w, slot, d) && WorkerOk(c, r, w) && f in r.table && SlotOk(c, r, f)
    ensures SlotOk(c, Advance(r, w, slot, d), f)
  {
  }

  lemma AdvanceClosed(c: Config, r: Rx, w: nat, slot: Slot, d: seq<Byte>, f: nat)
    requires Follows(c, r, w, slot, d) && WorkerOk(c, r, w) && f in r.closed && ClosedOk(c, r, f)
    ensures ClosedOk(c, Advance(r, w, slot, d), f)
  {
  }

  lemma AdvanceKeeps(c: Config, r: Rx, w: nat, slot: Slot, d: seq<Byte>)
    requires RxInv(c, r) && Follows(c, r, w, slot, d)
    ensures RxInv(c, Advance(r, w, slot, d))
  {
    hide HolderOk, EverOk, SlotOk, ClosedOk;
    var r' := Advance(r, w, slot, d);
    assert WorkerOk(c, r, w);
    forall v | 0 <= v < |r'.workers|
      ensures WorkerOk(c, r', v)
    {
      AdvanceWorker(c, r, w, slot, d, v);
    }
    forall l | l in r'.holder
      ensures HolderOk(c, r', l)
    {
      AdvanceHolder(c, r, w, slot, d, l);
    }
    forall f | f in r'.ever
      ensures EverOk(c, r', f)
    {
      AdvanceEver(c, r, w, slot, d, f);
    }
    forall f | f in r'.table
      ensures SlotOk(c, r', f)
    {
      AdvanceSlot(c, r, w, slot, d, f);
    }
    forall f | f in r'.closed
      ensures ClosedOk(c, r', f)
    {
      AdvanceClosed(c, r, w, slot, d, f);
    }
  }

  /** The frame in hand of a worker past the lookup: its file is open, its rank known. */
  lemma InHand(c: Config, r: Rx, w: nat, stage: nat) returns (f: nat, i: nat)
    requires RxInv(c, r) && HasJob(r, w, stage) && stage > 0
    ensures r.workers[w].job.key == Key(f, i) && stage <= 4
    ensures f in r.table && SlotOk(c, r, f) && i < |r.got[f]| == BlockCount(c, f) && r.got[f][i] == stage - 1
    ensures PadOk(Data(c, f, i), r.workers[w].job.pad)
  {
    f, i := r.workers[w].job.key.file, r.workers[w].job.key.index;
    assert WorkerOk(c, r, w);
    assert SlotOk(c, r, f) && EverOk(c, r, f);
  }

  lemma RxFoldKeeps(c: Config, r: Rx, w: nat)
    requires RxInv(c, r) && HasJob(r, w, 1)
    ensures RxInv(c, DoRxFold(c, r, w))
  {
    hide RxInv;
    var f, i := InHand(c, r, w, 1);
    var slot := r.table[f].(crc := Xor(r.table[f].crc, HashOf(c, f, i)));
    RankStep(c, f, r.got[f], i, 1, 1);
    RankStep(c, f, r.got[f], i, 1, 4);
    HoldsSame(c, f, r.disk[f], r.got[f], i, 1);
    AdvanceKeeps(c, r, w, slot, r.disk[f]);
  }

  /** A rank change on one side of the stored threshold says nothing new about the disk. */
  lemma HoldsSame(c: Config, f: nat, d: seq<Byte>, rank: seq<nat>, i: nat, v: nat)
    requires Disk.Holds(c, f, d, rank, 2) && i < |rank| && (rank[i] >= 2 <==> v >= 2)
    ensures Disk.Holds(c, f, d, rank[i := v], 2)
  {
  }

  lemma WriteKeeps(c: Config, sparse: bool, r: Rx, w: nat)
    requires c.block % 4096 == 0 && RxInv(c, r) && HasJob(r, w, 2)
    ensures RxInv(c, DoWrite(c, sparse, r, w))
  {
    hide RxInv;
    var f, i := InHand(c, r, w, 2);
    var pad := r.workers[w].job.pad;
    RankStep(c, f, r.got[f], i, 2, 1);
    RankStep(c, f, r.got[f], i, 2, 4);
    StoreKeeps(c, f, sparse, r.disk[f], r.got[f], 2, i, pad, 2);
    var d := StoreBlock(c, f, sparse, r.disk[f], i, pad);
    AdvanceKeeps(c, r, w, r.table[f], d);
  }

  lemma SizeIsAdvance(c: Config, r: Rx, w: nat, f: nat, i: nat) returns (slot: Slot)
    requires HasJob(r, w, 3) && r.workers[w].job.key == Key(f, i) && f in r.table && f in r.disk
    ensures DoRxSize(c, r, w) == Advance(r, w, slot, r.disk[f])
    ensures slot.crc == r.table[f].crc && slot.blockTotal == r.table[f].blockTotal
  {
    slot := r.table[f].(bytesTotal := r.table[f].bytesTotal + |Data(c, f, i) + r.workers[w].job.pad|);
  }

  lemma RxSizeKeeps(c: Config, r: Rx, w: nat)
    requires RxInv(c, r) && HasJob(r, w, 3)
    ensures RxInv(c, DoRxSize(c, r, w))
  {
    hide RxInv;
    var f, i := InHand(c, r, w, 3);
    RankStep(c, f, r.got[f], i, 3, 1);
    RankStep(c, f, r.got[f], i, 3, 4);
    HoldsSame(c, f, r.disk[f], r.got[f], i, 3);
    var slot := SizeIsAdvance(c, r, w, f, i);
    AdvanceKeeps(c, r, w, slot, r.disk[f]);
  }

  lemma RxTickKeeps(c: Config, r: Rx, w: nat)
    requires RxInv(c, r) && HasJob(r, w, 4)
    ensures RxInv(c, DoRxTick(c, r, w))
  {
    hide RxInv;
    var f, i := InHand(c, r, w, 4);
    var slot := r.table[f].(blockTotal := r.table[f].blockTotal + 1);
    EofIndex(c, f, i);
    RankStep(c, f, r.got[f], i, 4, 1);
    RankStep(c, f, r.got[f], i, 4, 4);
    HoldsSame(c, f, r.disk[f], r.got[f], i, 4);
    AdvanceKeeps(c, r, w, slot, r.disk[f]);
  }

  lemma OpenWorker(c: Config, r: Rx, f: nat, v: nat)
    requires HoldersOk(c, r) && f !in r.ever && v < |r.workers| && WorkerOk(c, r, v)
    ensures WorkerOk(c, DoOpen(c, r, f), v)
  {
    assert r.workers[v].job.Block? ==> HolderOk(c, r, r.workers[v].job.key);
  }

  lemma OpenHolder(c: Config, r: Rx, f: nat, l: Key)
    requires r.got.Keys == r.ever && f !in r.ever && l in r.holder && HolderOk(c, r, l)
    ensures HolderOk(c, DoOpen(c, r, f), l)
  {
  }

  lemma OpenFile(c: Config, r: Rx, f: nat, g: nat)
    requires g != f
    ensures EverOk(c, r, g) ==> EverOk(c, DoOpen(c, r, f), g)
    ensures g in r.table && SlotOk(c, r, g) ==> SlotOk(c, DoOpen(c, r, f), g)
    ensures g in r.closed && ClosedOk(c, r, g) ==> ClosedOk(c, DoOpen(c, r, f), g)
  {
  }

  lemma OpenKeeps(c: Config, r: Rx, f: nat)
    requires RxInv(c, r) && f > 0 && f !in r.ever
    ensures RxInv(c, DoOpen(c, r, f))
  {
    hide WorkerOk, HolderOk, EverOk, SlotOk;
    var r' := DoOpen(c, r, f);
    forall v | 0 <= v < |r.workers|
      ensures WorkerOk(c, r', v)
    {
      OpenWorker(c, r, f, v);
    }
    forall l | l in r'.holder
      ensures HolderOk(c, r', l)
    {
      OpenHolder(c, r, f, l);
    }
    OpenedSlot(c, r, f);
    forall g | g in r.ever
      ensures EverOk(c, r', g)
    {
      OpenFile(c, r, f, g);
    }
    forall g | g in r.table && g != f
      ensures SlotOk(c, r', g)
    {
      OpenFile(c, r, f, g);
    }
    forall g | g in r.closed
      ensures g != f && ClosedOk(c, r', g)
    {
      assert ClosedOk(c, r, g);
      OpenFile(c, r, f, g);
    }
  }

  lemma OpenedSlot(c: Config, r: Rx, f: nat)
    requires f > 0
    ensures EverOk(c, DoOpen(c, r, f), f) && SlotOk(c, DoOpen(c, r, f), f)
  {
    var rank := DoOpen(c, r, f).got[f];
    ZeroTotals(c, f, rank, 1);
    ZeroTotals(c, f, rank, 4);
    EmptyHolds(c, f, rank, 2);
  }

  lemma {:induction false} ZeroTotals(c: Config, f: nat, rank: seq<nat>, k: nat)
    requires k > 0 && forall i | 0 <= i < |rank| :: rank[i] == 0
    ensures Crc(c, f, rank, k) == {} && Count(c, f, rank, k) == 0
    decreases |rank|
  {
    if rank != [] {
      ZeroTotals(c, f, rank[..|rank| - 1], k);
    }
  }

  /** When the count is full, every block of the file has been counted and nobody holds one. */
  lemma FullCount(c: Config, r: Rx, f: nat)
    requires RxInv(c, r) && CanClose(r, f, BlockCount(c, f))
    ensures SlotOk(c, r, f) && EverOk(c, r, f) && forall i | 0 <= i < |r.got[f]| :: r.got[f][i] == 4
    ensures forall v | 0 <= v < |r.workers| && r.workers[v].job.Block? :: r.workers[v].job.key.file != f
  {
    assert SlotOk(c, r, f) && EverOk(c, r, f);
    CountBound(c, f, r.got[f], 4);
    forall i | 0 <= i < |r.got[f]|
      ensures r.got[f][i] == 4
    {
      assert HolderOk(c, r, Key(f, i));
      assert WorkerOk(c, r, r.holder[Key(f, i)]);
    }
    forall v | 0 <= v < |r.workers| && r.workers[v].job.Block?
      ensures r.workers[v].job.key.file != f
    {
      assert WorkerOk(c, r, v);
    }
  }

  /** What is closed with a full count is the source, byte for byte. */
  lemma ClosedIsWhole(c: Config, r: Rx, f: nat)
    requires RxInv(c, r) && CanClose(r, f, BlockCount(c, f))
    ensures SlotOk(c, r, f)
    ensures FTruncate(r.disk[f], |c.src(f)|) == c.src(f)
    ensures r.table[f].crc == CrcAll(c, f) && r.table[f].blockTotal == BlockCount(c, f)
  {
    FullCount(c, r, f);
    FullTotals(c, f, r.got[f], 1);
    FullTotals(c, f, r.got[f], 4);
    WholeFile(c, f, r.disk[f], r.got[f], 2);
  }

  lemma CloseKeeps(c: Config, r: Rx, f: nat)
    requires RxInv(c, r) && CanClose(r, f, BlockCount(c, f))
    ensures RxInv(c, DoClose(c, r, f, |c.src(f)|))
  {
    FullCount(c, r, f);
    ClosedIsWhole(c, r, f);
    var r' := DoClose(c, r, f, |c.src(f)|);
    forall v | 0 <= v < |r.workers|
      ensures WorkerOk(c, r', v)
    {
      assert WorkerOk(c, r, v);
    }
    forall l | l in r'.holder
      ensures HolderOk(c, r', l)
    {
      assert HolderOk(c, r, l);
    }
    assert ClosedOk(c, r', f);
    forall g | g in r.ever
      ensures EverOk(c, r', g)
    {
      assert EverOk(c, r, g);
    }
    forall g | g in r'.table
      ensures SlotOk(c, r', g)
    {
      assert SlotOk(c, r, g);
    }
    forall g | g in r.closed
      ensures ClosedOk(c, r', g)
    {
      assert ClosedOk(c, r, g);
    }
  }

  /** A receiver step that takes no frame concerns the receiver alone. */
  lemma RxOnly(c: Config, s: Plane, r: Rx)
    requires Inv(c, s) && RxInv(c, r) && r.holder == s.rx.holder
    ensures Inv(c, s.(rx := r))
  {
  }

  lemma TakeStep(c: Config, s: Plane, w: nat, k: Key, pad: seq<Byte>)
    requires Inv(c, s) && k in s.net && CanTake(c, s.rx, w, k, pad)
    ensures Inv(c, s.(net := s.net - {k}, rx := DoTake(c, s.rx, w, k, pad)))
  {
    assert Key(k.file, k.index) in s.tx.sent;
    TakeKeeps(c, s.rx, w, k, pad);
  }

  /** The stages of a frame in hand. */
  lemma StageKeeps(c: Config, sparse: bool, s: Plane, w: nat)
    requires Inv(c, s)
    ensures HasJob(s.rx, w, 1) ==> Inv(c, s.(rx := DoRxFold(c, s.rx, w)))
    ensures HasJob(s.rx, w, 2) ==> Inv(c, s.(rx := DoWrite(c, sparse, s.rx, w)))
    ensures HasJob(s.rx, w, 3) ==> Inv(c, s.(rx := DoRxSize(c, s.rx, w)))
    ensures HasJob(s.rx, w, 4) ==> Inv(c, s.(rx := DoRxTick(c, s.rx, w)))
  {
    hide RxInv, Share.Inv, Raised, SlotOf, DiskOf;
    if HasJob(s.rx, w, 1) {
      RxFoldKeeps(c, s.rx, w);
      RxOnly(c, s, DoRxFold(c, s.rx, w));
    } else if HasJob(s.rx, w, 2) {
      WriteKeeps(c, sparse, s.rx, w);
      RxOnly(c, s, DoWrite(c, sparse, s.rx, w));
    } else if HasJob(s.rx, w, 3) {
      RxSizeKeeps(c, s.rx, w);
      RxOnly(c, s, DoRxSize(c, s.rx, w));
    } else if HasJob(s.rx, w, 4) {
      RxTickKeeps(c, s.rx, w);
      RxOnly(c, s, DoRxTick(c, s.rx, w));
    }
  }

  lemma StepKeeps(c: Config, sparse: bool, s: Plane, a: Step)
    requires Inv(c, s) && Can(c, s, a)
    ensures Inv(c, Do(c, sparse, s, a))
  {
    hide RxInv, Share.Inv, NetOk, DoTx, DoRxFold, DoWrite, DoRxSize, DoRxTick;
    match a {
      case Tx(t) => TxKeeps(c, s, t);
      case Take(w, k, pad) => TakeStep(c, s, w, k, pad);
      case Lookup(w) =>
        LookupKeeps(c, s.rx, w);
        RxOnly(c, s, DoLookup(c, s.rx, w));
      case RxFold(w) => StageKeeps(c, sparse, s, w);
      case Write(w) => StageKeeps(c, sparse, s, w);
      case RxSize(w) => StageKeeps(c, sparse, s, w);
      case RxTick(w) => StageKeeps(c, sparse, s, w);
      case Open(f) =>
        OpenKeeps(c, s.rx, f);
        RxOnly(c, s, DoOpen(c, s.rx, f));
      case Close(f, blocks, size) =>
        ReportIsExact(c, s, f, blocks);
        CloseKeeps(c, s.rx, f);
        RxOnly(c, s, DoClose(c, s.rx, f, size));
    }
  }

  /** The block count the sender reports is the file's block count. */
  lemma ReportIsExact(c: Config, s: Plane, f: nat, blocks: nat)
    requires Share.Inv(c, s.tx) && Reported(s, f, blocks)
    ensures blocks == BlockCount(c, f)
  {
    var d :| d in s.tx.done && d.file == f && d.blocks == blocks;
    var j :| 0 <= j < |s.tx.done| && s.tx.done[j] == d;
  }

  // ---- Runs ----

  predicate Legal(c: Config, sparse: bool, s: Plane, run: seq<Step>)
    decreases |run|, 0
  {
    run == [] ||
    (Legal(c, sparse, s, run[..|run| - 1]) && Can(c, Exec(c, sparse, s, run[..|run| - 1]), run[|run| - 1]))
  }

  function Exec(c: Config, sparse: bool, s: Plane, run: seq<Step>): Plane
    requires Legal(c, sparse, s, run)
    decreases |run|, 1
  {
    if run == [] then s else Do(c, sparse, Exec(c, sparse, s, run[..|run| - 1]), run[|run| - 1])
  }

  lemma StartOk(c: Config, n: nat, m: nat)
    requires c.block % 4096 == 0 && n <= W.MAX_WORKERS
    ensures Inv(c, Start(n, m))
  {
    Share.InitOk(c, n);
  }

  lemma {:induction false} RunKeeps(c: Config, sparse: bool, n: nat, m: nat, run: seq<Step>)
    requires c.block % 4096 == 0 && n <= W.MAX_WORKERS && Legal(c, sparse, Start(n, m), run)
    ensures Inv(c, Exec(c, sparse, Start(n, m), run))
    decreases |run|
  {
    if run == [] {
      StartOk(c, n, m);
    } else {
      RunKeeps(c, sparse, n, m, run[..|run| - 1]);
      StepKeeps(c, sparse, Exec(c, sparse, Start(n, m), run[..|run| - 1]), run[|run| - 1]);
    }
  }

  /** However the sender's workers, the network and the receiver's workers interleave, every file
      the receiver closes is the source file byte for byte, carries the folded hash the sender
      reports, and was counted in full. */
  lemma ClosedFilesAreWhole(c: Config, sparse: bool, n: nat, m: nat, run: seq<Step>, f: nat)
    requires c.block % 4096 == 0 && n <= W.MAX_WORKERS && Legal(c, sparse, Start(n, m), run)
    requires f in Exec(c, sparse, Start(n, m), run).rx.closed
    ensures var got := Exec(c, sparse, Start(n, m), run).rx.closed[f];
            got.content == c.src(f) && got.crc == Share.Exact(c, f).crc && got.blocks == Share.Exact(c, f).blocks
  {
    RunKeeps(c, sparse, n, m, run);
    assert ClosedOk(c, Exec(c, sparse, Start(n, m), run).rx, f);
  }

  /** No receive worker ever uses a slot or a descriptor that has been given up. */
  lemma NoUseAfterWipe(c: Config, sparse: bool, n: nat, m: nat, run: seq<Step>)
    requires c.block % 4096 == 0 && n <= W.MAX_WORKERS && Legal(c, sparse, Start(n, m), run)
    ensures !Exec(c, sparse, Start(n, m), run).rx.fault
  {
    RunKeeps(c, sparse, n, m, run);
  }
}
