/** Sender work sharing: any number of workers, one shared record per open file.

    Every action below is one atomic operation on shared memory (a compare-and-swap on the
    state word, a fetch-add, a fetch-xor, a fetch-and) or one private step of a worker, so a
    run is any interleaving of the workers. File sizes, block size and hash come from the
    configuration; reads are complete except at end of file.

    The fields `owner`, `rank` and `published` of a record, and `added`, `sent` and `done` of
    the state, are history: no guard looks at them except that a file number is added once.
 */
module SenderShare {
  import opened Blocks
  import opened W = StateWord

  /** Block `index` of file `file`, as it travels to the receiver. */
  datatype Key = Key(file: nat, index: nat)

  /** What the last worker to leave a file hands to the completion ring. */
  datatype Done = Done(file: nat, bytes: nat, blocks: nat, crc: Word)

  /** One table record. `owner[i]` and `rank[i]` say who claimed block `i` and how far it got:
      0 claimed, 1 hash folded in, 2 frame sent, 3 bytes counted, 4 block counted (or end of file). */
  datatype Rec = Rec(word: W.State, blockOffset: nat, blockTotal: nat, bytesTotal: nat, crc: Word,
                     owner: seq<nat>, rank: seq<nat>, published: bool)

  /** A worker's private state. `queue` is the set of its I/O operations in flight and `eof`
      says that one of them came back empty, after which the worker only drains. */
  datatype Worker =
    | Idle
    | Working(file: nat, queue: set<nat>, eof: bool)
    | Sending(file: nat, queue: set<nat>, eof: bool, index: nat, stage: nat)
    | Leaving(file: nat)
    | Publishing(file: nat, record: Done)
    | Wiping(file: nat)

  datatype State = State(recs: map<nat, Rec>, workers: seq<Worker>,
                         added: set<nat>, sent: set<Key>, done: seq<Done>)

  datatype Action =
    | Add(f: nat)                // file_addfile publishes FS_INIT
    | First(w: nat, f: nat)      // compare-and-swap FS_INIT to FS_COMPLETE | FS_IO | bit
    | Attach(w: nat, f: nat)     // compare-and-swap in one more worker bit
    | Claim(w: nat)              // fetch-add on block_offset, operation queued
    | Reap(w: nat, i: nat)       // any queued operation completes
    | Fold(w: nat)               // fetch-xor of the block hash
    | Send(w: nat)               // both parts of the data frame
    | Size(w: nat)               // fetch-add on bytes_total
    | Tick(w: nat)               // fetch-add on block_total
    | Detach(w: nat)             // fetch-and removes the worker bit and FS_IO
    | Copy(w: nat)               // last one out copies the record
    | Publish(w: nat)            // fc_push
    | Wipe(w: nat)               // memset of the slot

  const FRESH: Rec := Rec(W.Init, 0, 0, 0, {}, [], [], false)

  function Init(n: nat): State {
    State(map[], seq(n, _ => Idle), {}, {}, [])
  }

  /** The record behind a worker's slot pointer; a wiped slot reads as zeroes. */
  function Look(s: State, f: nat): Rec {
    if f in s.recs then s.recs[f] else FRESH.(word := Free)
  }

  predicate Enabled(c: Config, s: State, a: Action) {
    match a
    case Add(f) => f > 0 && f !in s.added
    case First(w, f) => w < |s.workers| && s.workers[w].Idle? && f in s.recs && s.recs[f].word.Init?
    case Attach(w, f) => w < |s.workers| && s.workers[w].Idle? && f in s.recs && HasIo(s.recs[f].word)
    case Claim(w) => w < |s.workers| && s.workers[w].Working? && !s.workers[w].eof
    case Reap(w, i) => w < |s.workers| && s.workers[w].Working? && i in s.workers[w].queue
    case Fold(w) => w < |s.workers| && s.workers[w].Sending? && s.workers[w].stage == 0
    case Send(w) => w < |s.workers| && s.workers[w].Sending? && s.workers[w].stage == 1
    case Size(w) => w < |s.workers| && s.workers[w].Sending? && s.workers[w].stage == 2
    case Tick(w) => w < |s.workers| && s.workers[w].Sending? && s.workers[w].stage == 3
    case Detach(w) => w < |s.workers| && s.workers[w].Working? && s.workers[w].eof && s.workers[w].queue == {}
    case Copy(w) => w < |s.workers| && s.workers[w].Leaving?
    case Publish(w) => w < |s.workers| && s.workers[w].Publishing?
    case Wipe(w) => w < |s.workers| && s.workers[w].Wiping?
  }

  function With(s: State, w: nat, k: Worker, f: nat, r: Rec): State
    requires w < |s.workers|
  {
    s.(recs := s.recs[f := r], workers := s.workers[w := k])
  }

  /** Raises the rank of the block a worker is sending. */
  function Ranked(r: Rec, i: nat, v: nat): Rec {
    if i < |r.rank| then r.(rank := r.rank[i := v]) else r
  }

  function DoAdd(c: Config, s: State, f: nat): State
    requires Enabled(c, s, Add(f))
  {
    s.(recs := s.recs[f := FRESH], added := s.added + {f})
  }

  function DoFirst(c: Config, s: State, w: nat, f: nat): State
    requires Enabled(c, s, First(w, f))
  {
    With(s, w, Working(f, {}, false), f, s.recs[f].(word := Open(true, {w})))
  }

  function DoAttach(c: Config, s: State, w: nat, f: nat): State
    requires Enabled(c, s, Attach(w, f))
  {
    With(s, w, Working(f, {}, false), f, s.recs[f].(word := Joined(s.recs[f].word, w)))
  }

  function DoClaim(c: Config, s: State, w: nat): State
    requires Enabled(c, s, Claim(w))
  {
    var k := s.workers[w];
    var r := Look(s, k.file);
    With(s, w, Working(k.file, k.queue + {r.blockOffset}, k.eof), k.file,
         r.(blockOffset := r.blockOffset + 1, owner := r.owner + [w], rank := r.rank + [0]))
  }

  function DoReap(c: Config, s: State, w: nat, i: nat): State
    requires Enabled(c, s, Reap(w, i))
  {
    var k := s.workers[w];
    var r := Look(s, k.file);
    if Data(c, k.file, i) == [] then
      With(s, w, Working(k.file, k.queue - {i}, true), k.file, Ranked(r, i, 4))
    else
      With(s, w, Sending(k.file, k.queue - {i}, k.eof, i, 0), k.file, r)
  }

  function DoFold(c: Config, s: State, w: nat): State
    requires Enabled(c, s, Fold(w))
  {
    var k := s.workers[w];
    var r := Look(s, k.file);
    With(s, w, Sending(k.file, k.queue, k.eof, k.index, 1), k.file,
         Ranked(r.(crc := Xor(r.crc, HashOf(c, k.file, k.index))), k.index, 1))
  }

  function DoSend(c: Config, s: State, w: nat): State
    requires Enabled(c, s, Send(w))
  {
    var k := s.workers[w];
    var r := Look(s, k.file);
    With(s, w, Sending(k.file, k.queue, k.eof, k.index, 2), k.file, Ranked(r, k.index, 2))
    .(sent := s.sent + {Key(k.file, k.index)})
  }

  function DoSize(c: Config, s: State, w: nat): State
    requires Enabled(c, s, Size(w))
  {
    var k := s.workers[w];
    var r := Look(s, k.file);
    With(s, w, Sending(k.file, k.queue, k.eof, k.index, 3), k.file,
         Ranked(r.(bytesTotal := r.bytesTotal + |Data(c, k.file, k.index)|), k.index, 3))
  }

  function DoTick(c: Config, s: State, w: nat): State
    requires Enabled(c, s, Tick(w))
  {
    var k := s.workers[w];
    var r := Look(s, k.file);
    With(s, w, Working(k.file, k.queue, k.eof), k.file,
         Ranked(r.(blockTotal := r.blockTotal + 1), k.index, 4))
  }

  function DoDetach(c: Config, s: State, w: nat): State
    requires Enabled(c, s, Detach(w))
  {
    var k := s.workers[w];
    var r := Look(s, k.file);
    var left := Left(r.word, w);
    With(s, w, if left == COMPLETE then Leaving(k.file) else Idle, k.file, r.(word := left))
  }

  function DoCopy(c: Config, s: State, w: nat): State
    requires Enabled(c, s, Copy(w))
  {
    var k := s.workers[w];
    var r := Look(s, k.file);
    s.(workers := s.workers[w := Publishing(k.file, Done(k.file, r.bytesTotal, r.blockTotal, r.crc))])
  }

  function DoPublish(c: Config, s: State, w: nat): State
    requires Enabled(c, s, Publish(w))
  {
    var k := s.workers[w];
    With(s, w, Wiping(k.file), k.file, Look(s, k.file).(published := true)).(done := s.done + [k.record])
  }

  function DoWipe(c: Config, s: State, w: nat): State
    requires Enabled(c, s, Wipe(w))
  {
    var k := s.workers[w];
    s.(recs := map f | f in s.recs && f != k.file :: s.recs[f], workers := s.workers[w := Idle])
  }

  function Apply(c: Config, s: State, a: Action): State
    requires Enabled(c, s, a)
  {
    match a
    case Add(f) => DoAdd(c, s, f)
    case First(w, f) => DoFirst(c, s, w, f)
    case Attach(w, f) => DoAttach(c, s, w, f)
    case Claim(w) => DoClaim(c, s, w)
    case Reap(w, i) => DoReap(c, s, w, i)
    case Fold(w) => DoFold(c, s, w)
    case Send(w) => DoSend(c, s, w)
    case Size(w) => DoSize(c, s, w)
    case Tick(w) => DoTick(c, s, w)
    case Detach(w) => DoDetach(c, s, w)
    case Copy(w) => DoCopy(c, s, w)
    case Publish(w) => DoPublish(c, s, w)
    case Wipe(w) => DoWipe(c, s, w)
  }

  // ---- Runs ----

  predicate Legal(c: Config, s: State, run: seq<Action>)
    decreases |run|, 0
  {
    run == [] || (Legal(c, s, run[..|run| - 1]) && Enabled(c, Exec(c, s, run[..|run| - 1]), run[|run| - 1]))
  }

  function Exec(c: Config, s: State, run: seq<Action>): State
    requires Legal(c, s, run)
    decreases |run|, 1
  {
    if run == [] then s else Apply(c, Exec(c, s, run[..|run| - 1]), run[|run| - 1])
  }

  // ---- Invariant ----

  /** The record a file of this size must end with. */
  function Exact(c: Config, f: nat): Done {
    Done(f, |c.src(f)|, BlockCount(c, f), CrcAll(c, f))
  }

  predicate Attached(k: Worker, f: nat) {
    (k.Working? || k.Sending?) && k.file == f
  }

  predicate QueueOk(r: Rec, w: nat, q: set<nat>)
    requires |r.owner| == |r.rank|
  {
    forall i | i in q :: i < |r.rank| && r.rank[i] == 0 && r.owner[i] == w
  }

  ghost predicate WorkerOk(c: Config, s: State, w: nat)
    requires w < |s.workers|
  {
    var k := s.workers[w];
    k.Idle? || (
      && k.file in s.recs
      && var r := s.recs[k.file];
      && r.word.Open?
      && |r.owner| == |r.rank|
      && match k
         case Working(f, q, eof) =>
           w in r.word.ids && !r.published && QueueOk(r, w, q) && (eof ==> |r.rank| > BlockCount(c, f))
         case Sending(f, q, eof, i, st) =>
           && w in r.word.ids && !r.published && QueueOk(r, w, q) && (eof ==> |r.rank| > BlockCount(c, f))
           && i < |r.rank| && i !in q && r.owner[i] == w && r.rank[i] == st < 4 && i < BlockCount(c, f)
         case Leaving(f) => r.word == COMPLETE && !r.published
         case Publishing(f, d) => r.word == COMPLETE && !r.published && d == Exact(c, f)
         case Wiping(f) => r.word == COMPLETE && r.published)
  }

  /** Block `i` is with worker `k`, at the stage its rank says. */
  predicate Holds(k: Worker, f: nat, i: nat, rank: nat) {
    Attached(k, f) && ((rank == 0 && i in k.queue) || (k.Sending? && k.index == i && k.stage == rank))
  }

  ghost predicate BlockOk(c: Config, s: State, f: nat, r: Rec, i: nat)
    requires i < |r.rank| == |r.owner|
  {
    || r.rank[i] >= 4
    || (r.owner[i] < |s.workers| && r.word.Open? && r.owner[i] in r.word.ids &&
        Holds(s.workers[r.owner[i]], f, i, r.rank[i]))
  }

  ghost predicate WordOk(c: Config, s: State, f: nat, r: Rec) {
    if r.word.Open? then
      && (forall v | v in r.word.ids :: v < |s.workers| && Attached(s.workers[v], f))
      && (!r.word.io ==> |r.rank| > BlockCount(c, f))
    else
      r.word.Init? && r.rank == []
  }

  ghost predicate TotalsOk(c: Config, f: nat, r: Rec) {
    && |r.owner| == |r.rank| == r.blockOffset
    && r.crc == Crc(c, f, r.rank, 1)
    && r.bytesTotal == Bytes(c, f, r.rank, 3)
    && r.blockTotal == Count(c, f, r.rank, 4)
  }

  ghost predicate RecOk(c: Config, s: State, f: nat)
    requires f in s.recs
  {
    var r := s.recs[f];
    && TotalsOk(c, f, r)
    && WordOk(c, s, f, r)
    && (forall i | 0 <= i < |r.rank| :: BlockOk(c, s, f, r, i))
    && (r.published ==> r.word == COMPLETE)
  }

  /** Every frame sent is a real block of an added file; while the file is in the table exactly
      the blocks of rank 2 and more have been sent, and once it is gone all of them have. */
  ghost predicate SentOk(c: Config, s: State) {
    forall f: nat, i: nat :: Key(f, i) in s.sent <==>
      f in s.added && i < BlockCount(c, f) && (f in s.recs ==> i < |s.recs[f].rank| && s.recs[f].rank[i] >= 2)
  }

  predicate Finished(s: State, f: nat) {
    f in s.added && (f in s.recs ==> s.recs[f].published)
  }

  /** Exactly the finished files have a completion record, once each, and it is exact. */
  ghost predicate DoneOk(c: Config, s: State) {
    && (forall j | 0 <= j < |s.done| :: s.done[j] == Exact(c, s.done[j].file) && Finished(s, s.done[j].file))
    && (forall j, k | 0 <= j < k < |s.done| :: s.done[j].file != s.done[k].file)
    && (forall f | Finished(s, f) :: Exact(c, f) in s.done)
  }

  predicate Out(k: Worker) { k.Leaving? || k.Publishing? || k.Wiping? }

  ghost predicate WorkersOk(c: Config, s: State) {
    && |s.workers| <= MAX_WORKERS
    && (forall w | 0 <= w < |s.workers| :: WorkerOk(c, s, w))
    && (forall v, w | 0 <= v < w < |s.workers| && Out(s.workers[v]) && Out(s.workers[w]) ::
          s.workers[v].file != s.workers[w].file)
  }

  ghost predicate RecsOk(c: Config, s: State) {
    forall f | f in s.recs :: f in s.added && RecOk(c, s, f)
  }

  ghost predicate Inv(c: Config, s: State) {
    WorkersOk(c, s) && RecsOk(c, s) && SentOk(c, s) && DoneOk(c, s) && 0 !in s.added
  }

  // ---- Every action keeps the invariant ----

  /** What worker `w` may change in a record without disturbing the other attached workers. */
  predicate Compatible(r: Rec, r': Rec, w: nat) {
    && |r.owner| == |r.rank| <= |r'.rank| == |r'.owner|
    && r'.word.Open? && (r'.published == r.published || r.word == COMPLETE)
    && (r.word.Open? ==> r.word.ids - {w} <= r'.word.ids)
    && (forall i | 0 <= i < |r.rank| && r.owner[i] != w :: r'.rank[i] == r.rank[i] && r'.owner[i] == r.owner[i])
  }

  /** Worker `w` takes one step on record `f`, and nothing else changes. */
  ghost predicate OneStep(c: Config, s: State, s': State, w: nat, k': Worker, f: nat, r': Rec) {
    && w < |s.workers| && f in s.recs
    && s'.recs == s.recs[f := r'] && s'.workers == s.workers[w := k'] && s'.added == s.added
    && (s.workers[w].Idle? || s.workers[w].file == f)
    && (k'.Idle? || k'.file == f)
  }

  lemma OtherWorkerKeeps(c: Config, s: State, s': State, w: nat, k': Worker, f: nat, r': Rec, v: nat)
    requires OneStep(c, s, s', w, k', f, r') && Compatible(s.recs[f], r', w)
    requires v < |s.workers| && v != w && WorkerOk(c, s, v)
    requires Out(s.workers[v]) ==> s.workers[v].file != f
    requires v < MAX_WORKERS
    ensures WorkerOk(c, s', v)
  {
  }

  lemma OtherRecKeeps(c: Config, s: State, s': State, w: nat, k': Worker, f: nat, r': Rec, g: nat)
    requires OneStep(c, s, s', w, k', f, r')
    requires g in s.recs && g != f && RecOk(c, s, g)
    ensures RecOk(c, s', g)
  {
    var r := s.recs[g];
    forall i | 0 <= i < |r.rank|
      ensures BlockOk(c, s', g, r, i)
    {
      assert BlockOk(c, s, g, r, i);
    }
  }

  /** A step of one worker on one record keeps all the others in order. */
  lemma OneWorker(c: Config, s: State, s': State, w: nat, k': Worker, f: nat, r': Rec)
    requires WorkersOk(c, s) && RecsOk(c, s)
    requires OneStep(c, s, s', w, k', f, r') && Compatible(s.recs[f], r', w)
    requires forall v | 0 <= v < |s.workers| && v != w && Out(s.workers[v]) :: s.workers[v].file != f
    requires WorkerOk(c, s', w) && RecOk(c, s', f)
    ensures WorkersOk(c, s') && RecsOk(c, s')
  {
    forall v | 0 <= v < |s.workers|
      ensures WorkerOk(c, s', v)
    {
      if v != w {
        OtherWorkerKeeps(c, s, s', w, k', f, r', v);
      }
    }
    forall g | g in s'.recs && g != f
      ensures RecOk(c, s', g)
    {
      OtherRecKeeps(c, s, s', w, k', f, r', g);
    }
  }

  /** While a worker is attached to a file, nobody is on the way out of it. */
  lemma NoLeaver(c: Config, s: State, f: nat, v: nat)
    requires WorkersOk(c, s) && f in s.recs && v < |s.workers|
    requires s.recs[f].word != COMPLETE
    ensures Out(s.workers[v]) ==> s.workers[v].file != f
  {
    assert WorkerOk(c, s, v);
  }

  /** A step that sends and publishes nothing keeps the history in order. */
  lemma HistorySame(c: Config, s: State, s': State, w: nat, k': Worker, f: nat, r': Rec)
    requires SentOk(c, s) && DoneOk(c, s) && OneStep(c, s, s', w, k', f, r')
    requires s'.sent == s.sent && s'.done == s.done && r'.published == s.recs[f].published
    requires |s.recs[f].rank| <= |r'.rank|
    requires forall i | 0 <= i < |r'.rank| && i < BlockCount(c, f) ::
               r'.rank[i] >= 2 <==> i < |s.recs[f].rank| && s.recs[f].rank[i] >= 2
    ensures SentOk(c, s') && DoneOk(c, s')
  {
    assert forall g :: Finished(s', g) <==> Finished(s, g);
  }

  lemma AddKeeps(c: Config, s: State, f: nat)
    requires Inv(c, s) && Enabled(c, s, Add(f))
    ensures Inv(c, DoAdd(c, s, f))
  {
    var s' := DoAdd(c, s, f);
    forall w | 0 <= w < |s.workers|
      ensures WorkerOk(c, s', w)
    {
      assert WorkerOk(c, s, w);
    }
    forall g | g in s'.recs
      ensures RecOk(c, s', g)
    {
      if g != f {
        assert RecOk(c, s, g);
        forall i | 0 <= i < |s.recs[g].rank|
          ensures BlockOk(c, s', g, s.recs[g], i)
        {
          assert BlockOk(c, s, g, s.recs[g], i);
        }
      }
    }
    assert forall g :: Finished(s', g) <==> Finished(s, g);
  }

  /** One step of worker `w` on record `f` that publishes nothing and whose own outcome is in
      order keeps the whole invariant. */
  lemma StepKeeps(c: Config, s: State, s': State, w: nat, k': Worker, f: nat, r': Rec)
    requires Inv(c, s) && OneStep(c, s, s', w, k', f, r')
    requires s.recs[f].word != COMPLETE && Compatible(s.recs[f], r', w)
    requires WorkerOk(c, s', w) && RecOk(c, s', f)
    requires s'.sent == s.sent && s'.done == s.done
    requires forall i | 0 <= i < |r'.rank| && i < BlockCount(c, f) ::
               r'.rank[i] >= 2 <==> i < |s.recs[f].rank| && s.recs[f].rank[i] >= 2
    ensures Inv(c, s')
  {
    forall v | 0 <= v < |s.workers|
      ensures Out(s.workers[v]) ==> s.workers[v].file != f
    {
      NoLeaver(c, s, f, v);
    }
    OneWorker(c, s, s', w, k', f, r');
    HistorySame(c, s, s', w, k', f, r');
  }

  lemma FirstKeeps(c: Config, s: State, w: nat, f: nat)
    requires Inv(c, s) && Enabled(c, s, First(w, f))
    ensures Inv(c, DoFirst(c, s, w, f))
  {
    var s' := DoFirst(c, s, w, f);
    assert RecOk(c, s, f);
    StepKeeps(c, s, s', w, s'.workers[w], f, s'.recs[f]);
  }

  lemma AttachKeeps(c: Config, s: State, w: nat, f: nat)
    requires Inv(c, s) && Enabled(c, s, Attach(w, f))
    ensures Inv(c, DoAttach(c, s, w, f))
  {
    var s' := DoAttach(c, s, w, f);
    var r := s.recs[f];
    assert RecOk(c, s, f);
    forall i | 0 <= i < |r.rank|
      ensures BlockOk(c, s', f, s'.recs[f], i)
    {
      assert BlockOk(c, s, f, r, i);
    }
    StepKeeps(c, s, s', w, s'.workers[w], f, s'.recs[f]);
  }

  /** A claim appends one block at rank 0, owned by the claiming worker. */
  lemma ClaimRec(c: Config, s: State, w: nat)
    requires Inv(c, s) && Enabled(c, s, Claim(w))
    ensures s.workers[w].file in s.recs
    ensures RecOk(c, DoClaim(c, s, w), s.workers[w].file)
  {
    var s', f := DoClaim(c, s, w), s.workers[w].file;
    assert WorkerOk(c, s, w) && RecOk(c, s, f);
    var r, r' := s.recs[f], s'.recs[f];
    RankAppend(c, f, r.rank, 1);
    RankAppend(c, f, r.rank, 3);
    RankAppend(c, f, r.rank, 4);
    forall i | 0 <= i < |r'.rank|
      ensures BlockOk(c, s', f, r', i)
    {
      assert i < |r.rank| ==> BlockOk(c, s, f, r, i);
    }
  }

  lemma ClaimKeeps(c: Config, s: State, w: nat)
    requires Inv(c, s) && Enabled(c, s, Claim(w))
    ensures Inv(c, DoClaim(c, s, w))
  {
    var s', f := DoClaim(c, s, w), s.workers[w].file;
    ClaimRec(c, s, w);
    assert WorkerOk(c, s, w) && RecOk(c, s, f);
    StepKeeps(c, s, s', w, s'.workers[w], f, s'.recs[f]);
  }

  /** The block a worker is busy with moves on to rank `v`; the totals follow. */
  lemma BlockMoves(c: Config, s: State, s': State, w: nat, f: nat, i: nat, v: nat)
    requires Inv(c, s) && f in s.recs && f in s'.recs && w < |s.workers| == |s'.workers|
    requires OneStep(c, s, s', w, s'.workers[w], f, s'.recs[f])
    requires Attached(s.workers[w], f) && Attached(s'.workers[w], f)
    requires i < |s.recs[f].rank| == |s.recs[f].owner| && s.recs[f].owner[i] == w && s.recs[f].rank[i] < v <= 4
    requires s'.recs[f].rank == s.recs[f].rank[i := v] && s'.recs[f].owner == s.recs[f].owner
    requires s'.recs[f].word == s.recs[f].word && s'.recs[f].published == s.recs[f].published
    requires TotalsOk(c, f, s'.recs[f])
    requires v < 4 ==> Holds(s'.workers[w], f, i, v)
    requires forall j | 0 <= j < |s.recs[f].rank| && j != i && Holds(s.workers[w], f, j, s.recs[f].rank[j]) ::
               Holds(s'.workers[w], f, j, s.recs[f].rank[j])
    ensures RecOk(c, s', f) && Compatible(s.recs[f], s'.recs[f], w)
  {
    var r, r' := s.recs[f], s'.recs[f];
    assert RecOk(c, s, f) && WorkerOk(c, s, w);
    forall j | 0 <= j < |r'.rank|
      ensures BlockOk(c, s', f, r', j)
    {
      assert BlockOk(c, s, f, r, j);
    }
  }

  /** What one rank step does to the three totals of a record. */
  lemma TotalsMove(c: Config, f: nat, r: Rec, i: nat, v: nat)
    requires TotalsOk(c, f, r) && i < |r.rank| && r.rank[i] <= v
    ensures Crc(c, f, r.rank[i := v], 1) == if r.rank[i] < 1 <= v then Xor(r.crc, HashOf(c, f, i)) else r.crc
    ensures Bytes(c, f, r.rank[i := v], 3) == r.bytesTotal + if r.rank[i] < 3 <= v then |Data(c, f, i)| else 0
    ensures Count(c, f, r.rank[i := v], 4) == r.blockTotal + if r.rank[i] < 4 <= v then One(c, f, i) else 0
  {
    RankStep(c, f, r.rank, i, v, 1);
    RankStep(c, f, r.rank, i, v, 3);
    RankStep(c, f, r.rank, i, v, 4);
  }

  lemma ReapKeeps(c: Config, s: State, w: nat, i: nat)
    requires Inv(c, s) && Enabled(c, s, Reap(w, i))
    ensures Inv(c, DoReap(c, s, w, i))
  {
    var s', f := DoReap(c, s, w, i), s.workers[w].file;
    assert WorkerOk(c, s, w) && RecOk(c, s, f);
    EofIndex(c, f, i);
    var r := s.recs[f];
    if Data(c, f, i) == [] {
      TotalsMove(c, f, r, i, 4);
      BlockMoves(c, s, s', w, f, i, 4);
    } else {
      forall j | 0 <= j < |r.rank|
        ensures BlockOk(c, s', f, r, j)
      {
        assert BlockOk(c, s, f, r, j);
      }
    }
    StepKeeps(c, s, s', w, s'.workers[w], f, s'.recs[f]);
  }

  lemma FoldKeeps(c: Config, s: State, w: nat)
    requires Inv(c, s) && Enabled(c, s, Fold(w))
    ensures Inv(c, DoFold(c, s, w))
  {
    var s', f, i := DoFold(c, s, w), s.workers[w].file, s.workers[w].index;
    assert WorkerOk(c, s, w) && RecOk(c, s, f);
    TotalsMove(c, f, s.recs[f], i, 1);
    BlockMoves(c, s, s', w, f, i, 1);
    StepKeeps(c, s, s', w, s'.workers[w], f, s'.recs[f]);
  }

  lemma SizeKeeps(c: Config, s: State, w: nat)
    requires Inv(c, s) && Enabled(c, s, Size(w))
    ensures Inv(c, DoSize(c, s, w))
  {
    var s', f, i := DoSize(c, s, w), s.workers[w].file, s.workers[w].index;
    assert WorkerOk(c, s, w) && RecOk(c, s, f);
    TotalsMove(c, f, s.recs[f], i, 3);
    BlockMoves(c, s, s', w, f, i, 3);
    StepKeeps(c, s, s', w, s'.workers[w], f, s'.recs[f]);
  }

  lemma TickKeeps(c: Config, s: State, w: nat)
    requires Inv(c, s) && Enabled(c, s, Tick(w))
    ensures Inv(c, DoTick(c, s, w))
  {
    var s', f, i := DoTick(c, s, w), s.workers[w].file, s.workers[w].index;
    assert WorkerOk(c, s, w) && RecOk(c, s, f);
    EofIndex(c, f, i);
    TotalsMove(c, f, s.recs[f], i, 4);
    BlockMoves(c, s, s', w, f, i, 4);
    StepKeeps(c, s, s', w, s'.workers[w], f, s'.recs[f]);
  }

  /** A block is sent at most once: the frame of a sending worker was not sent before. */
  lemma SendIsFresh(c: Config, s: State, w: nat)
    requires Inv(c, s) && Enabled(c, s, Send(w))
    ensures Key(s.workers[w].file, s.workers[w].index) !in s.sent
    ensures s.workers[w].index < BlockCount(c, s.workers[w].file)
  {
    assert WorkerOk(c, s, w);
  }

  lemma SendKeeps(c: Config, s: State, w: nat)
    requires Inv(c, s) && Enabled(c, s, Send(w))
    ensures Inv(c, DoSend(c, s, w))
  {
    var s', f, i := DoSend(c, s, w), s.workers[w].file, s.workers[w].index;
    assert WorkerOk(c, s, w) && RecOk(c, s, f);
    TotalsMove(c, f, s.recs[f], i, 2);
    BlockMoves(c, s, s', w, f, i, 2);
    forall v | 0 <= v < |s.workers|
      ensures Out(s.workers[v]) ==> s.workers[v].file != f
    {
      NoLeaver(c, s, f, v);
    }
    OneWorker(c, s, s', w, s'.workers[w], f, s'.recs[f]);
    HistorySends(c, s, s', w, f, i);
  }

  lemma HistorySends(c: Config, s: State, s': State, w: nat, f: nat, i: nat)
    requires SentOk(c, s) && DoneOk(c, s) && f in s.added && i < BlockCount(c, f)
    requires f in s'.recs && w < |s'.workers| && OneStep(c, s, s', w, s'.workers[w], f, s'.recs[f])
    requires i < |s.recs[f].rank| && s.recs[f].rank[i] < 2 && s'.recs[f].rank == s.recs[f].rank[i := 2]
    requires s'.sent == s.sent + {Key(f, i)} && s'.done == s.done && s'.recs[f].published == s.recs[f].published
    ensures SentOk(c, s') && DoneOk(c, s')
  {
    assert forall g :: Finished(s', g) <==> Finished(s, g);
  }

  lemma DetachKeeps(c: Config, s: State, w: nat)
    requires Inv(c, s) && Enabled(c, s, Detach(w))
    ensures Inv(c, DoDetach(c, s, w))
  {
    var s', f := DoDetach(c, s, w), s.workers[w].file;
    assert WorkerOk(c, s, w) && RecOk(c, s, f);
    var r, r' := s.recs[f], s'.recs[f];
    forall i | 0 <= i < |r.rank|
      ensures BlockOk(c, s', f, r', i)
    {
      assert BlockOk(c, s, f, r, i);
    }
    StepKeeps(c, s, s', w, s'.workers[w], f, r');
  }

  /** When FS_COMPLETE is all that is left of a file's word, every block has been counted and
      the totals are exact. */
  lemma LastOutIsExact(c: Config, s: State, f: nat)
    requires Inv(c, s) && f in s.recs && s.recs[f].word == COMPLETE
    ensures forall i | 0 <= i < |s.recs[f].rank| :: s.recs[f].rank[i] >= 4
    ensures |s.recs[f].rank| > BlockCount(c, f)
    ensures Done(f, s.recs[f].bytesTotal, s.recs[f].blockTotal, s.recs[f].crc) == Exact(c, f)
  {
    var r := s.recs[f];
    assert RecOk(c, s, f);
    forall i | 0 <= i < |r.rank|
      ensures r.rank[i] >= 4
    {
      assert BlockOk(c, s, f, r, i);
    }
    FullTotals(c, f, r.rank, 1);
    FullTotals(c, f, r.rank, 3);
    FullTotals(c, f, r.rank, 4);
  }

  lemma CopyKeeps(c: Config, s: State, w: nat)
    requires Inv(c, s) && Enabled(c, s, Copy(w))
    ensures Inv(c, DoCopy(c, s, w))
  {
    var s', f := DoCopy(c, s, w), s.workers[w].file;
    assert WorkerOk(c, s, w) && RecOk(c, s, f);
    LastOutIsExact(c, s, f);
    assert s.recs == s.recs[f := s.recs[f]];
    OneWorker(c, s, s', w, s'.workers[w], f, s.recs[f]);
    HistorySame(c, s, s', w, s'.workers[w], f, s.recs[f]);
  }

  lemma PublishKeeps(c: Config, s: State, w: nat)
    requires Inv(c, s) && Enabled(c, s, Publish(w))
    ensures Inv(c, DoPublish(c, s, w))
  {
    var s', f := DoPublish(c, s, w), s.workers[w].file;
    assert WorkerOk(c, s, w) && RecOk(c, s, f);
    LastOutIsExact(c, s, f);
    var r, r' := s.recs[f], s'.recs[f];
    OneWorker(c, s, s', w, s'.workers[w], f, r');
    HistoryPublishes(c, s, s', w, f);
  }

  lemma HistoryPublishes(c: Config, s: State, s': State, w: nat, f: nat)
    requires SentOk(c, s) && DoneOk(c, s) && f in s.added
    requires f in s'.recs && w < |s'.workers| && OneStep(c, s, s', w, s'.workers[w], f, s'.recs[f])
    requires !s.recs[f].published && s'.recs[f] == s.recs[f].(published := true)
    requires s'.sent == s.sent && s'.done == s.done + [Exact(c, f)]
    ensures SentOk(c, s') && DoneOk(c, s')
  {
    assert forall g :: Finished(s', g) <==> (g == f || Finished(s, g));
    assert s'.done[|s.done|] == Exact(c, f);
    assert forall g | Finished(s, g) :: Exact(c, g) in s.done && Exact(c, g) in s'.done;
  }

  lemma WipeKeeps(c: Config, s: State, w: nat)
    requires Inv(c, s) && Enabled(c, s, Wipe(w))
    ensures Inv(c, DoWipe(c, s, w))
  {
    var s', f := DoWipe(c, s, w), s.workers[w].file;
    assert WorkerOk(c, s, w) && RecOk(c, s, f);
    LastOutIsExact(c, s, f);
    forall v | 0 <= v < |s.workers|
      ensures WorkerOk(c, s', v)
    {
      assert WorkerOk(c, s, v);
    }
    forall g | g in s'.recs
      ensures RecOk(c, s', g)
    {
      assert RecOk(c, s, g);
      forall i | 0 <= i < |s.recs[g].rank|
        ensures BlockOk(c, s', g, s.recs[g], i)
      {
        assert BlockOk(c, s, g, s.recs[g], i);
      }
    }
    assert forall g :: Finished(s', g) <==> Finished(s, g);
  }

  lemma ApplyKeeps(c: Config, s: State, a: Action)
    requires Inv(c, s) && Enabled(c, s, a)
    ensures Inv(c, Apply(c, s, a))
  {
    match a
    case Add(f) => AddKeeps(c, s, f);
    case First(w, f) => FirstKeeps(c, s, w, f);
    case Attach(w, f) => AttachKeeps(c, s, w, f);
    case Claim(w) => ClaimKeeps(c, s, w);
    case Reap(w, i) => ReapKeeps(c, s, w, i);
    case Fold(w) => FoldKeeps(c, s, w);
    case Send(w) => SendKeeps(c, s, w);
    case Size(w) => SizeKeeps(c, s, w);
    case Tick(w) => TickKeeps(c, s, w);
    case Detach(w) => DetachKeeps(c, s, w);
    case Copy(w) => CopyKeeps(c, s, w);
    case Publish(w) => PublishKeeps(c, s, w);
    case Wipe(w) => WipeKeeps(c, s, w);
  }

  lemma InitOk(c: Config, n: nat)
    requires n <= MAX_WORKERS
    ensures Inv(c, Init(n))
  {
  }

  /** The invariant holds after every run of every number of workers. */
  lemma {:induction false} RunKeeps(c: Config, n: nat, run: seq<Action>)
    requires n <= MAX_WORKERS && Legal(c, Init(n), run)
    ensures Inv(c, Exec(c, Init(n), run))
    decreases |run|
  {
    if run == [] {
      InitOk(c, n);
    } else {
      var m := |run| - 1;
      RunKeeps(c, n, run[..m]);
      ApplyKeeps(c, Exec(c, Init(n), run[..m]), run[m]);
    }
  }

  // ---- What the workers promise ----

  /** Exact totals: in every run, every completion record carries the file's block count, size
      and folded hash, no file is reported twice, and a file that has left the table has been
      reported. */
  lemma ExactTotals(c: Config, n: nat, run: seq<Action>)
    requires n <= MAX_WORKERS && Legal(c, Init(n), run)
    ensures var s := Exec(c, Init(n), run);
            && (forall j | 0 <= j < |s.done| :: s.done[j] == Exact(c, s.done[j].file))
            && (forall j, k | 0 <= j < k < |s.done| :: s.done[j].file != s.done[k].file)
            && (forall f | f in s.added && f !in s.recs :: Exact(c, f) in s.done)
  {
    RunKeeps(c, n, run);
    var s := Exec(c, Init(n), run);
    forall f | f in s.added && f !in s.recs
      ensures Exact(c, f) in s.done
    {
      assert Finished(s, f);
    }
  }

  /** Every block of every reported file has been sent, and nothing but blocks of added files. */
  lemma AllBlocksSent(c: Config, n: nat, run: seq<Action>)
    requires n <= MAX_WORKERS && Legal(c, Init(n), run)
    ensures var s := Exec(c, Init(n), run);
            && (forall j, i | 0 <= j < |s.done| && 0 <= i < BlockCount(c, s.done[j].file) ::
                  Key(s.done[j].file, i) in s.sent)
            && (forall k | k in s.sent :: k.file in s.added && k.index < BlockCount(c, k.file))
  {
    RunKeeps(c, n, run);
    var s := Exec(c, Init(n), run);
    forall j, i | 0 <= j < |s.done| && 0 <= i < BlockCount(c, s.done[j].file)
      ensures Key(s.done[j].file, i) in s.sent
    {
      var f := s.done[j].file;
      assert Finished(s, f);
      if f in s.recs {
        assert RecOk(c, s, f);
        LastOutIsExact(c, s, f);
      }
    }
    forall k | k in s.sent
      ensures k.file in s.added && k.index < BlockCount(c, k.file)
    {
      assert Key(k.file, k.index) in s.sent;
    }
  }

  /** No worker ever touches a slot it does not own: as long as it works on a file, the file is
      in the table with the worker's bit set. */
  lemma NoWildAccess(c: Config, n: nat, run: seq<Action>, w: nat)
    requires n <= MAX_WORKERS && Legal(c, Init(n), run)
    requires w < |Exec(c, Init(n), run).workers| && !Exec(c, Init(n), run).workers[w].Idle?
    ensures var s := Exec(c, Init(n), run);
            && s.workers[w].file in s.recs
            && (Attached(s.workers[w], s.workers[w].file) ==>
                  s.recs[s.workers[w].file].word.Open? && w in s.recs[s.workers[w].file].word.ids)
  {
    RunKeeps(c, n, run);
    assert WorkerOk(c, Exec(c, Init(n), run), w);
  }

  /** The hash in a completion record, bit by bit: set if an odd number of the blocks have it in theirs. */
  lemma ReportedHash(c: Config, n: nat, run: seq<Action>, j: nat, b: nat)
    requires n <= MAX_WORKERS && Legal(c, Init(n), run) && j < |Exec(c, Init(n), run).done|
    ensures var d := Exec(c, Init(n), run).done[j];
            b in d.crc <==> Having(c, d.file, b, BlockCount(c, d.file)) % 2 == 1
  {
    ExactTotals(c, n, run);
    CrcParity(c, Exec(c, Init(n), run).done[j].file, b);
  }

  // ---- All workers can share one file ----

  ghost predicate Leads(c: Config, s: State, run: seq<Action>, e: State) {
    Legal(c, s, run) && Exec(c, s, run) == e
  }

  lemma OneMore(c: Config, s: State, run: seq<Action>, e: State, a: Action)
    requires Leads(c, s, run, e) && Enabled(c, e, a)
    ensures Leads(c, s, run + [a], Apply(c, e, a))
  {
    assert (run + [a])[..|run|] == run;
  }

  ghost predicate Firsts(ids: set<nat>, k: nat) { forall i: nat :: i in ids <==> i < k }

  /** The first `k` workers are in file `f`, and worker `i` has sent block `i`. */
  ghost predicate Sharing(s: State, f: nat, k: nat) {
    && k <= |s.workers| && f in s.recs
    && HasIo(s.recs[f].word) && Firsts(s.recs[f].word.ids, k) && s.recs[f].blockOffset == k
    && (forall i: nat | i < k :: s.workers[i] == Sending(f, {}, false, i, 2) && Key(f, i) in s.sent)
    && (forall i: nat | k <= i < |s.workers| :: s.workers[i].Idle?)
  }

  /** Worker `k` has just come in. */
  ghost predicate Entered(s: State, f: nat, k: nat) {
    && k < |s.workers| && f in s.recs && s.workers[k] == Working(f, {}, false)
    && HasIo(s.recs[f].word) && Firsts(s.recs[f].word.ids, k + 1) && s.recs[f].blockOffset == k
    && (forall i: nat | i < k :: s.workers[i] == Sending(f, {}, false, i, 2) && Key(f, i) in s.sent)
    && (forall i: nat | k < i < |s.workers| :: s.workers[i].Idle?)
  }

  /** Worker `k` claims, reads, folds and sends block `k`. */
  lemma SendsOne(c: Config, s: State, run: seq<Action>, e: State, f: nat, k: nat)
    returns (run': seq<Action>, e': State)
    requires Leads(c, s, run, e) && Entered(e, f, k) && k < BlockCount(c, f)
    ensures Leads(c, s, run', e') && Sharing(e', f, k + 1) && |e'.workers| == |e.workers|
  {
    EofIndex(c, f, k);
    hide Leads, Data, HashOf, Xor, BlockCount, Pieces;
    var e1 := Apply(c, e, Claim(k));
    OneMore(c, s, run, e, Claim(k));
    assert e1.workers[k].queue == {k};
    var e2 := Apply(c, e1, Reap(k, k));
    OneMore(c, s, run + [Claim(k)], e1, Reap(k, k));
    var e3 := Apply(c, e2, Fold(k));
    OneMore(c, s, run + [Claim(k)] + [Reap(k, k)], e2, Fold(k));
    OneMore(c, s, run + [Claim(k)] + [Reap(k, k)] + [Fold(k)], e3, Send(k));
    e' := Apply(c, e3, Send(k));
    run' := run + [Claim(k)] + [Reap(k, k)] + [Fold(k)] + [Send(k)];
    assert e'.workers == e.workers[k := Sending(f, {}, false, k, 2)];
  }

  lemma FirstIn(c: Config, n: nat, f: nat) returns (run: seq<Action>, s: State)
    requires f > 0 && n > 0
    ensures Leads(c, Init(n), run, s) && |s.workers| == n && Entered(s, f, 0)
  {
    var i := Init(n);
    assert Leads(c, i, [], i);
    OneMore(c, i, [], i, Add(f));
    var m := Apply(c, i, Add(f));
    OneMore(c, i, [] + [Add(f)], m, First(0, f));
    run, s := [] + [Add(f)] + [First(0, f)], Apply(c, m, First(0, f));
    assert Firsts({0}, 1);
  }

  lemma NextIn(c: Config, s: State, run: seq<Action>, e: State, f: nat, k: nat)
    requires Leads(c, s, run, e) && Sharing(e, f, k) && k < |e.workers|
    ensures Enabled(c, e, Attach(k, f)) && Leads(c, s, run + [Attach(k, f)], Apply(c, e, Attach(k, f)))
    ensures Entered(Apply(c, e, Attach(k, f)), f, k) && |Apply(c, e, Attach(k, f)).workers| == |e.workers|
  {
    hide Leads;
    OneMore(c, s, run, e, Attach(k, f));
    assert Firsts(e.recs[f].word.ids + {k}, k + 1);
  }

  /** Any number of workers can be in one file at the same time, each sending a block of its own. */
  lemma {:induction false} AllCanShare(c: Config, n: nat, f: nat, k: nat) returns (run: seq<Action>, s: State)
    requires f > 0 && 1 <= k <= n && k <= BlockCount(c, f)
    ensures Leads(c, Init(n), run, s) && |s.workers| == n && Sharing(s, f, k)
    decreases k
  {
    hide Leads, Apply, Sharing, Entered;
    var m;
    if k == 1 {
      run, m := FirstIn(c, n, f);
    } else {
      run, m := AllCanShare(c, n, f, k - 1);
      NextIn(c, Init(n), run, m, f, k - 1);
      run, m := run + [Attach(k - 1, f)], Apply(c, m, Attach(k - 1, f));
    }
    run, s := SendsOne(c, Init(n), run, m, f, k - 1);
  }
}
