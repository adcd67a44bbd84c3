/** How much is left to do in a session: a number that every step of every thread lowers.

    Each queue entry, each stage of a frame, each block not yet claimed, each seat at a file not
    yet taken and each file not yet enumerated weighs as much as the steps it still stands for,
    here and further down the line. `depth` is the depth of the engines' queues: a worker claims a
    block only while it has fewer operations than that in flight. `drawn` files have been numbered.
 */
module Potential {
  import opened Blocks
  import D = DataPlane
  import Share = SenderShare
  import S = Session
  import W = StateWord

  // ---- Workers of the sender ----

  /** Operations in the queue that will come back empty. */
  function Empties(c: Config, f: nat, q: set<nat>): set<nat> { set i | i in q && Data(c, f, i) == [] }

  /** Claims that can still come back empty before the worker notices the end of the file. */
  function Blanks(c: Config, depth: nat, f: nat, q: set<nat>, eof: bool): nat {
    if eof || |Empties(c, f, q)| > depth then 0 else depth - |Empties(c, f, q)|
  }

  /** What is left of a block in hand: fold, send and what the frame causes, size, tick. */
  function StageWeight(stage: nat): nat {
    match stage
    case 0 => 10
    case 1 => 9
    case 2 => 2
    case 3 => 1
    case _ => 0
  }

  function WorkerWeight(c: Config, depth: nat, k: Share.Worker): nat {
    match k
    case Idle => 0
    case Working(f, q, eof) => 10 + 11 * |q| + 12 * Blanks(c, depth, f, q, eof)
    case Sending(f, q, eof, i, st) => 10 + 11 * |q| + 12 * Blanks(c, depth, f, q, eof) + StageWeight(st)
    case Leaving(f) => 9
    case Publishing(f, d) => 8
    case Wiping(f) => 1
  }

  function WorkerSum(c: Config, depth: nat, ws: seq<Share.Worker>): nat {
    if ws == [] then 0 else WorkerWeight(c, depth, ws[0]) + WorkerSum(c, depth, ws[1..])
  }

  lemma {:induction false} WorkerSumUpdate(c: Config, depth: nat, ws: seq<Share.Worker>, w: nat, k: Share.Worker)
    requires w < |ws|
    ensures WorkerSum(c, depth, ws[w := k]) + WorkerWeight(c, depth, ws[w])
            == WorkerSum(c, depth, ws) + WorkerWeight(c, depth, k)
    decreases |ws|
  {
    hide WorkerWeight;
    if w == 0 {
      assert ws[w := k][1..] == ws[1..];
    } else {
      assert ws[w := k][1..] == ws[1..][w - 1 := k];
      WorkerSumUpdate(c, depth, ws[1..], w - 1, k);
    }
  }

  // ---- Files of the sender ----

  /** What `k` more workers can do at a file besides the claims of its blocks. */
  function Seats(k: nat, depth: nat): nat {
    if k == 0 then 0 else Seats(k - 1, depth) + 11 + 12 * depth
  }

  /** Workers that may still join: all before the first claim, none after the first one has left. */
  function WordWeight(word: W.State, n: nat, depth: nat): nat {
    match word
    case Init => Seats(n, depth)
    case Open(io, ids) => if io && |ids| <= n then Seats(n - |ids|, depth) else 0
    case _ => 0
  }

  function Left(c: Config, f: nat, r: Share.Rec): nat {
    if r.blockOffset < BlockCount(c, f) then BlockCount(c, f) - r.blockOffset else 0
  }

  function FileWeight(c: Config, depth: nat, t: Share.State, f: nat): nat {
    if f !in t.added then 7 + Seats(|t.workers|, depth) + 12 * BlockCount(c, f)
    else if f in t.recs then 12 * Left(c, f, t.recs[f]) + WordWeight(t.recs[f].word, |t.workers|, depth)
    else 0
  }

  /** The files numbered 1 to `n`. */
  function FileSum(c: Config, depth: nat, t: Share.State, n: nat): nat {
    if n == 0 then 0 else FileSum(c, depth, t, n - 1) + FileWeight(c, depth, t, n)
  }

  /** Only file `f` weighs something else. */
  ghost predicate OnlyFile(c: Config, depth: nat, t: Share.State, t': Share.State, f: nat) {
    forall g: nat | g != f :: FileWeight(c, depth, t', g) == FileWeight(c, depth, t, g)
  }

  lemma {:induction false} FileSumUpdate(c: Config, depth: nat, t: Share.State, t': Share.State, n: nat, f: nat)
    requires OnlyFile(c, depth, t, t', f)
    ensures 1 <= f <= n ==> FileSum(c, depth, t', n) + FileWeight(c, depth, t, f)
                            == FileSum(c, depth, t, n) + FileWeight(c, depth, t', f)
    ensures f == 0 || n < f ==> FileSum(c, depth, t', n) == FileSum(c, depth, t, n)
  {
    hide FileWeight;
    if n > 0 {
      FileSumUpdate(c, depth, t, t', n - 1, f);
    }
  }

  function TxWeight(c: Config, depth: nat, t: Share.State, n: nat): nat {
    FileSum(c, depth, t, n) + WorkerSum(c, depth, t.workers)
  }

  /** Worker `w` took a step on its own file. */
  ghost predicate OwnStep(t: Share.State, t': Share.State, w: nat, f: nat) {
    && w < |t.workers| == |t'.workers| && t'.workers == t.workers[w := t'.workers[w]]
    && f in t.added && t'.added == t.added && t'.recs - {f} == t.recs - {f}
  }

  lemma OwnFile(c: Config, depth: nat, t: Share.State, t': Share.State, w: nat, f: nat)
    requires OwnStep(t, t', w, f)
    ensures OnlyFile(c, depth, t, t', f)
  {
    forall g: nat | g != f
      ensures FileWeight(c, depth, t', g) == FileWeight(c, depth, t, g)
    {
      assert g in t.recs - {f} <==> g in t'.recs - {f};
    }
  }

  /** The weight of the sender changes as those of the worker and its file do. */
  lemma OwnStepWeight(c: Config, depth: nat, t: Share.State, t': Share.State, w: nat, f: nat, n: nat)
    requires OwnStep(t, t', w, f) && 1 <= f <= n
    ensures TxWeight(c, depth, t', n) + FileWeight(c, depth, t, f) + WorkerWeight(c, depth, t.workers[w])
            == TxWeight(c, depth, t, n) + FileWeight(c, depth, t', f) + WorkerWeight(c, depth, t'.workers[w])
  {
    hide FileWeight, WorkerWeight, OnlyFile;
    OwnFile(c, depth, t, t', w, f);
    FileSumUpdate(c, depth, t, t', n, f);
    WorkerSumUpdate(c, depth, t.workers, w, t'.workers[w]);
  }

  // ---- What each step of a worker costs ----

  /** The file and the worker together weigh at least `d` less. */
  predicate Lighter(c: Config, depth: nat, t: Share.State, t': Share.State, w: nat, f: nat, d: nat) {
    && w < |t.workers| && w < |t'.workers|
    && FileWeight(c, depth, t', f) + WorkerWeight(c, depth, t'.workers[w]) + d
       <= FileWeight(c, depth, t, f) + WorkerWeight(c, depth, t.workers[w])
  }

  lemma FirstWeight(c: Config, depth: nat, t: Share.State, w: nat, f: nat)
    requires Share.Inv(c, t) && Share.Enabled(c, t, Share.First(w, f))
    ensures var t' := Share.DoFirst(c, t, w, f); OwnStep(t, t', w, f) && Lighter(c, depth, t, t', w, f, 1)
  {
    assert |{w}| == 1 && Empties(c, f, {}) == {};
  }

  /** The workers of a state word are workers, so there is a seat for one that is not among them. */
  lemma {:induction false} IdsBound(ids: set<nat>, n: nat)
    requires forall v | v in ids :: v < n
    ensures |ids| <= n
    decreases n
  {
    if n == 0 {
      assert ids == {};
    } else {
      IdsBound(ids - {n - 1}, n - 1);
      assert ids <= ids - {n - 1} + {n - 1};
    }
  }

  lemma AttachWeight(c: Config, depth: nat, t: Share.State, w: nat, f: nat)
    requires Share.Inv(c, t) && Share.Enabled(c, t, Share.Attach(w, f))
    ensures var t' := Share.DoAttach(c, t, w, f); OwnStep(t, t', w, f) && Lighter(c, depth, t, t', w, f, 1)
  {
    FreeSeat(c, t, w, f);
    var t' := Share.DoAttach(c, t, w, f);
    hide Share.Inv;
    UpdateOwn(t, t', w, t'.workers[w], f, t'.recs[f]);
    hide Data, BlockCount, OwnStep;
    assert Empties(c, f, {}) == {};
  }

  lemma FreeSeat(c: Config, t: Share.State, w: nat, f: nat)
    requires Share.Inv(c, t) && w < |t.workers| && t.workers[w].Idle? && f in t.recs && W.HasIo(t.recs[f].word)
    ensures f in t.added && |t.recs[f].word.ids + {w}| == |t.recs[f].word.ids| + 1 <= |t.workers|
  {
    assert Share.RecOk(c, t, f);
    var ids := t.recs[f].word.ids;
    assert w !in ids;
    IdsBound(ids + {w}, |t.workers|);
  }

  lemma UpdateOwn(t: Share.State, t': Share.State, w: nat, k: Share.Worker, f: nat, r: Share.Rec)
    requires w < |t.workers| && f in t.added && t'.added == t.added
    requires t'.workers == t.workers[w := k] && t'.recs == t.recs[f := r]
    ensures OwnStep(t, t', w, f)
  {
  }

  /** A claim uses up a block, or one of the claims that may come back empty. */
  lemma ClaimWeight(c: Config, depth: nat, t: Share.State, w: nat)
    requires Share.Inv(c, t) && Share.Enabled(c, t, Share.Claim(w)) && |t.workers[w].queue| < depth
    ensures var t', f := Share.DoClaim(c, t, w), t.workers[w].file;
            OwnStep(t, t', w, f) && Lighter(c, depth, t, t', w, f, 1)
  {
    assert Share.WorkerOk(c, t, w);
    var f, q := t.workers[w].file, t.workers[w].queue;
    var i := t.recs[f].blockOffset;
    assert Share.RecOk(c, t, f);
    EofIndex(c, f, i);
    assert i !in q;
    EmptiesAdd(c, f, q, i);
    EmptiesFew(c, f, q);
    hide Share.Inv, Data, BlockCount, Empties, WordWeight;
  }

  lemma EmptiesAdd(c: Config, f: nat, q: set<nat>, i: nat)
    requires i !in q
    ensures |q + {i}| == |q| + 1
    ensures |Empties(c, f, q + {i})| == |Empties(c, f, q)| + if Data(c, f, i) == [] then 1 else 0
  {
    var a, b := Empties(c, f, q), Empties(c, f, q + {i});
    assert b == if Data(c, f, i) == [] then a + {i} else a;
  }

  lemma EmptiesFew(c: Config, f: nat, q: set<nat>)
    ensures |Empties(c, f, q)| <= |q|
  {
    S.SubsetSmaller(Empties(c, f, q), q);
  }

  lemma ReapWeight(c: Config, depth: nat, t: Share.State, w: nat, i: nat)
    requires Share.Inv(c, t) && Share.Enabled(c, t, Share.Reap(w, i))
    ensures var t', f := Share.DoReap(c, t, w, i), t.workers[w].file;
            OwnStep(t, t', w, f) && Lighter(c, depth, t, t', w, f, 1)
  {
    assert Share.WorkerOk(c, t, w);
    var f, q := t.workers[w].file, t.workers[w].queue;
    assert q == (q - {i}) + {i};
    EmptiesAdd(c, f, q - {i}, i);
    hide Share.Inv, Data, BlockCount, Empties, WordWeight;
  }

  lemma StageStepWeight(c: Config, depth: nat, t: Share.State, a: Share.Action)
    requires Share.Inv(c, t) && Share.Enabled(c, t, a) && (a.Fold? || a.Send? || a.Size? || a.Tick?)
    ensures var t', f := Share.Apply(c, t, a), t.workers[a.w].file;
            OwnStep(t, t', a.w, f) && Lighter(c, depth, t, t', a.w, f, if a.Send? then 7 else 1)
  {
    assert Share.WorkerOk(c, t, a.w);
    var t', w, f := Share.Apply(c, t, a), a.w, t.workers[a.w].file;
    SameRec(c, t, a);
    hide Share.Inv, Share.Apply;
    UpdateOwn(t, t', w, t'.workers[w], f, t'.recs[f]);
    hide Data, BlockCount, Blanks, WordWeight, OwnStep;
  }

  /** A stage changes neither the word nor the claims of the file, and takes the block one further. */
  lemma SameRec(c: Config, t: Share.State, a: Share.Action)
    requires Share.Inv(c, t) && Share.Enabled(c, t, a) && (a.Fold? || a.Send? || a.Size? || a.Tick?)
    ensures var t', k := Share.Apply(c, t, a), t.workers[a.w];
            && k.file in t.recs && k.file in t'.recs && k.file in t.added && t'.added == t.added
            && t'.recs == t.recs[k.file := t'.recs[k.file]] && t'.workers == t.workers[a.w := t'.workers[a.w]]
            && t'.recs[k.file].word == t.recs[k.file].word && t'.recs[k.file].blockOffset == t.recs[k.file].blockOffset
            && t'.workers[a.w] == if a.Tick? then Share.Working(k.file, k.queue, k.eof)
                                  else Share.Sending(k.file, k.queue, k.eof, k.index, k.stage + 1)
  {
    assert Share.WorkerOk(c, t, a.w);
    hide Share.Inv, Data, BlockCount, HashOf;
  }

  lemma DetachWeight(c: Config, depth: nat, t: Share.State, w: nat)
    requires Share.Inv(c, t) && Share.Enabled(c, t, Share.Detach(w))
    ensures var t', f := Share.DoDetach(c, t, w), t.workers[w].file;
            OwnStep(t, t', w, f) && Lighter(c, depth, t, t', w, f, 1)
  {
    assert Share.WorkerOk(c, t, w);
    hide Share.Inv, Data, BlockCount;
  }

  lemma OutWeight(c: Config, depth: nat, t: Share.State, a: Share.Action)
    requires Share.Inv(c, t) && Share.Enabled(c, t, a) && (a.Copy? || a.Publish? || a.Wipe?)
    ensures var t', f := Share.Apply(c, t, a), t.workers[a.w].file;
            OwnStep(t, t', a.w, f) && Lighter(c, depth, t, t', a.w, f, if a.Publish? then 7 else 1)
  {
    assert Share.WorkerOk(c, t, a.w);
    var t', f := Share.Apply(c, t, a), t.workers[a.w].file;
    assert f in t.added;
    hide Share.Inv;
    assert t'.recs - {f} == t.recs - {f};
    assert t'.workers == t.workers[a.w := t'.workers[a.w]];
    hide Data, BlockCount, WordWeight;
  }

  /** The file a worker's action is about. */
  function FileOf(t: Share.State, a: Share.Action): nat
    requires a.Add? || a.w < |t.workers|
  {
    match a
    case Add(f) => f
    case First(_, f) => f
    case Attach(_, f) => f
    case _ => if t.workers[a.w].Idle? then 0 else t.workers[a.w].file
  }

  /** What a step hands on to the network and to the completion ring weighs less than what it
      takes from the sender. */
  function Price(a: Share.Action): nat { if a.Send? || a.Publish? then 7 else 1 }

  lemma ActionWeight(c: Config, depth: nat, t: Share.State, a: Share.Action)
    requires Share.Inv(c, t) && Share.Enabled(c, t, a) && !a.Add?
    requires a.Claim? ==> |t.workers[a.w].queue| < depth
    ensures a.w < |t.workers|
    ensures var t' := Share.Apply(c, t, a);
            OwnStep(t, t', a.w, FileOf(t, a)) && Lighter(c, depth, t, t', a.w, FileOf(t, a), Price(a))
  {
    hide Share.Inv, Lighter, OwnStep;
    match a
    case First(w, f) => FirstWeight(c, depth, t, w, f);
    case Attach(w, f) => AttachWeight(c, depth, t, w, f);
    case Claim(w) => ClaimWeight(c, depth, t, w);
    case Reap(w, i) => ReapWeight(c, depth, t, w, i);
    case Detach(w) => DetachWeight(c, depth, t, w);
    case Fold(_) => StageStepWeight(c, depth, t, a);
    case Send(_) => StageStepWeight(c, depth, t, a);
    case Size(_) => StageStepWeight(c, depth, t, a);
    case Tick(_) => StageStepWeight(c, depth, t, a);
    case Copy(_) => OutWeight(c, depth, t, a);
    case Publish(_) => OutWeight(c, depth, t, a);
    case Wipe(_) => OutWeight(c, depth, t, a);
  }

  /** Every step of a sender worker lowers the weight of the sender by its price. */
  lemma TxFalls(c: Config, depth: nat, t: Share.State, a: Share.Action, n: nat)
    requires Share.Inv(c, t) && Share.Enabled(c, t, a) && !a.Add? && t.added <= Range(n)
    requires a.Claim? ==> |t.workers[a.w].queue| < depth
    ensures TxWeight(c, depth, Share.Apply(c, t, a), n) + Price(a) <= TxWeight(c, depth, t, n)
  {
    hide Share.Inv, Share.Apply, TxWeight, FileWeight, WorkerWeight, Price;
    ActionWeight(c, depth, t, a);
    OwnStepWeight(c, depth, t, Share.Apply(c, t, a), a.w, FileOf(t, a), n);
  }

  // ---- The whole session ----

  function JobWeight(x: D.RxWorker): nat {
    if x.job.Block? && x.job.stage <= 4 then 5 - x.job.stage else 0
  }

  function JobSum(ws: seq<D.RxWorker>): nat {
    if ws == [] then 0 else JobWeight(ws[0]) + JobSum(ws[1..])
  }

  lemma {:induction false} JobSumUpdate(ws: seq<D.RxWorker>, w: nat, x: D.RxWorker)
    requires w < |ws|
    ensures JobSum(ws[w := x]) + JobWeight(ws[w]) == JobSum(ws) + JobWeight(x)
    decreases |ws|
  {
    hide JobWeight;
    if w == 0 {
      assert ws[w := x][1..] == ws[1..];
    } else {
      assert ws[w := x][1..] == ws[1..][w - 1 := x];
      JobSumUpdate(ws[1..], w - 1, x);
    }
  }

  /** Completions not yet reported. */
  function Unreported(done: seq<Share.Done>, reported: set<nat>): set<nat> {
    set j | 0 <= j < |done| && done[j].file !in reported
  }

  function Unentered(done: seq<Share.Done>, entered: nat): nat {
    if entered < |done| then |done| - entered else 0
  }

  function PlaneWeight(c: Config, depth: nat, p: D.Plane, drawn: nat): nat {
    TxWeight(c, depth, p.tx, drawn) + 6 * |p.net| + JobSum(p.rx.workers)
  }

  function WalkWeight(w: S.Walk): nat { 6 * |w.msgs| + 5 * |w.vec| + if w.over then 0 else 1 }

  function QueueWeight(s: S.State): nat {
    4 * |s.toRx| + |s.opening.addQ| + 3 * |s.closing.closeQ| + 2 * |s.doneQ| + |s.toTx| +
    (if s.complete then 0 else 5) + if s.finished then 0 else 1
  }

  function DoneWeight(done: seq<Share.Done>, reported: set<nat>, entered: nat): nat {
    5 * |Unreported(done, reported)| + Unentered(done, entered)
  }

  function Weight(c: Config, depth: nat, s: S.State): nat {
    PlaneWeight(c, depth, s.p, s.walk.drawn) + WalkWeight(s.walk) +
    DoneWeight(s.p.tx.done, s.reported, s.desk.entered) + QueueWeight(s)
  }

  /** The steps of the threads once numbering has stopped. The ends of the two loops are reached
      once, and a worker claims a block only while its queue has room. */
  predicate Proper(c: Config, depth: nat, s: S.State, a: S.Action) {
    && !a.Draw? && S.Can(c, s, a)
    && (a.WalkOver? ==> !s.walk.over) && (a.RxFinish? ==> !s.finished)
    && (a.Data? && a.a.Tx? && a.a.a.Claim? ==> |s.p.tx.workers[a.a.a.w].queue| < depth)
  }

  /** What a worker's step hands on. */
  lemma TxHandsOn(c: Config, t: Share.State, a: Share.Action)
    requires Share.Enabled(c, t, a) && !a.Add?
    ensures var t' := Share.Apply(c, t, a);
            && |t'.sent - t.sent| <= (if a.Send? then 1 else 0)
            && t.done <= t'.done && |t'.done| == |t.done| + if a.Publish? then 1 else 0
  {
    if a.Send? {
      var x := Share.Key(t.workers[a.w].file, t.workers[a.w].index);
      assert Share.Apply(c, t, a).sent - t.sent <= {x};
      SmallSet(Share.Apply(c, t, a).sent - t.sent, x);
    } else {
      assert Share.Apply(c, t, a).sent - t.sent == {};
    }
  }

  lemma SmallSet(q: set<Share.Key>, x: Share.Key)
    requires q <= {x}
    ensures |q| <= 1
  {
    assert q == {} || q == {x};
  }

  lemma DoneGrows(done: seq<Share.Done>, done': seq<Share.Done>, reported: set<nat>, entered: nat)
    requires done <= done' && |done'| <= |done| + 1
    ensures DoneWeight(done', reported, entered) <= DoneWeight(done, reported, entered) + 6 * (|done'| - |done|)
  {
    var a, b := Unreported(done, reported), Unreported(done', reported);
    if |done'| == |done| {
      assert done' == done;
    } else {
      assert b <= a + {|done|};
      S.SubsetSmaller(b, a + {|done|});
    }
  }

  lemma NetGrows(net: set<Share.Key>, more: set<Share.Key>)
    ensures |net + more| <= |net| + |more|
  {
  }

  lemma TxStepFalls(c: Config, depth: nat, s: S.State, a: Share.Action)
    requires Share.Inv(c, s.p.tx) && Share.Enabled(c, s.p.tx, a) && !a.Add? && s.p.tx.added <= Range(s.walk.drawn)
    requires a.Claim? ==> |s.p.tx.workers[a.w].queue| < depth
    ensures Weight(c, depth, s.(p := D.DoTx(c, s.p, a))) < Weight(c, depth, s)
  {
    hide Share.Inv, Share.Apply, Share.Enabled, TxWeight, DoneWeight, WalkWeight;
    var t, t' := s.p.tx, Share.Apply(c, s.p.tx, a);
    TxFalls(c, depth, t, a, s.walk.drawn);
    TxHandsOn(c, t, a);
    DoneGrows(t.done, t'.done, s.reported, s.desk.entered);
    NetGrows(s.p.net, t'.sent - t.sent);
  }

  /** A frame is taken from the network, or goes through a stage. */
  lemma RxStepFalls(c: Config, depth: nat, s: S.State, p: D.Plane, w: nat)
    requires p.tx == s.p.tx && w < |s.p.rx.workers| == |p.rx.workers|
    requires p.rx.workers == s.p.rx.workers[w := p.rx.workers[w]]
    requires 6 * |p.net| + JobWeight(p.rx.workers[w]) < 6 * |s.p.net| + JobWeight(s.p.rx.workers[w])
    ensures Weight(c, depth, s.(p := p)) < Weight(c, depth, s)
  {
    hide TxWeight, DoneWeight, WalkWeight, JobWeight;
    JobSumUpdate(s.p.rx.workers, w, p.rx.workers[w]);
  }

  /** The control loops move an entry on without touching the data plane. */
  lemma ControlFalls(c: Config, depth: nat, s: S.State, s': S.State)
    requires s'.p == s.p && s'.walk.drawn == s.walk.drawn
    requires WalkWeight(s'.walk) + DoneWeight(s'.p.tx.done, s'.reported, s'.desk.entered) + QueueWeight(s')
             < WalkWeight(s.walk) + DoneWeight(s.p.tx.done, s.reported, s.desk.entered) + QueueWeight(s)
    ensures Weight(c, depth, s') < Weight(c, depth, s)
  {
    hide PlaneWeight, DoneWeight, WalkWeight, QueueWeight;
  }

  /** A frame in hand goes through its next stage. */
  lemma StageFalls(c: Config, sparse: bool, depth: nat, s: S.State, w: nat)
    requires D.RxInv(c, s.p.rx) && w < |s.p.rx.workers| && s.p.rx.workers[w].job.Block?
    ensures D.CanLookup(s.p.rx, w) ==>
              Weight(c, depth, s.(p := s.p.(rx := D.DoLookup(c, s.p.rx, w)))) < Weight(c, depth, s)
    ensures D.HasJob(s.p.rx, w, 1) ==>
              Weight(c, depth, s.(p := s.p.(rx := D.DoRxFold(c, s.p.rx, w)))) < Weight(c, depth, s)
    ensures D.HasJob(s.p.rx, w, 2) ==>
              Weight(c, depth, s.(p := s.p.(rx := D.DoWrite(c, sparse, s.p.rx, w)))) < Weight(c, depth, s)
    ensures D.HasJob(s.p.rx, w, 3) ==>
              Weight(c, depth, s.(p := s.p.(rx := D.DoRxSize(c, s.p.rx, w)))) < Weight(c, depth, s)
    ensures D.HasJob(s.p.rx, w, 4) ==>
              Weight(c, depth, s.(p := s.p.(rx := D.DoRxTick(c, s.p.rx, w)))) < Weight(c, depth, s)
  {
    var r := s.p.rx;
    assert D.WorkerOk(c, r, w);
    hide D.RxInv, D.SlotOf, D.DiskOf, D.Raised, Weight;
    if D.CanLookup(r, w) {
      RxStepFalls(c, depth, s, s.p.(rx := D.DoLookup(c, r, w)), w);
    } else if D.HasJob(r, w, 1) {
      RxStepFalls(c, depth, s, s.p.(rx := D.DoRxFold(c, r, w)), w);
    } else if D.HasJob(r, w, 2) {
      RxStepFalls(c, depth, s, s.p.(rx := D.DoWrite(c, sparse, r, w)), w);
    } else if D.HasJob(r, w, 3) {
      RxStepFalls(c, depth, s, s.p.(rx := D.DoRxSize(c, r, w)), w);
    } else if D.HasJob(r, w, 4) {
      RxStepFalls(c, depth, s, s.p.(rx := D.DoRxTick(c, r, w)), w);
    }
  }

  lemma TakeFalls(c: Config, depth: nat, s: S.State, w: nat, k: Share.Key, pad: seq<Byte>)
    requires k in s.p.net && D.CanTake(c, s.p.rx, w, k, pad)
    ensures Weight(c, depth, s.(p := s.p.(net := s.p.net - {k}, rx := D.DoTake(c, s.p.rx, w, k, pad))))
            < Weight(c, depth, s)
  {
    hide Weight, Data;
    assert |s.p.net - {k}| == |s.p.net| - 1;
    RxStepFalls(c, depth, s, s.p.(net := s.p.net - {k}, rx := D.DoTake(c, s.p.rx, w, k, pad)), w);
  }

  lemma DataFalls(c: Config, names: nat -> string, sparse: bool, depth: nat, s: S.State, d: D.Step)
    requires D.Inv(c, s.p) && s.p.tx.added <= Range(s.walk.drawn) && Proper(c, depth, s, S.Data(d))
    ensures Weight(c, depth, S.Do(c, names, sparse, s, S.Data(d))) < Weight(c, depth, s)
  {
    hide D.RxInv, Share.Inv, D.NetOk, Weight, Share.Enabled, D.DoTx, D.DoTake, D.DoLookup, D.DoRxFold, D.DoWrite,
      D.DoRxSize, D.DoRxTick;
    match d
    case Tx(a) => TxStepFalls(c, depth, s, a);
    case Take(w, k, pad) => TakeFalls(c, depth, s, w, k, pad);
    case Lookup(w) => StageFalls(c, sparse, depth, s, w);
    case RxFold(w) => StageFalls(c, sparse, depth, s, w);
    case Write(w) => StageFalls(c, sparse, depth, s, w);
    case RxSize(w) => StageFalls(c, sparse, depth, s, w);
    case RxTick(w) => StageFalls(c, sparse, depth, s, w);
  }

  lemma EnumerateFalls(c: Config, depth: nat, s: S.State, f: nat)
    requires 1 <= f <= s.walk.drawn && f !in s.p.tx.added && f !in s.walk.msgs
    ensures Weight(c, depth, S.DoEnumerate(c, s, f)) < Weight(c, depth, s)
  {
    var t, t' := s.p.tx, Share.DoAdd(c, s.p.tx, f);
    assert t'.sent - t.sent == {} && s.p.net + (t'.sent - t.sent) == s.p.net;
    assert OnlyFile(c, depth, t, t', f);
    FileSumUpdate(c, depth, t, t', s.walk.drawn, f);
    hide FileSum, DoneWeight, Seats;
    assert FileWeight(c, depth, t', f) + 7 == FileWeight(c, depth, t, f);
    hide FileWeight;
    assert |s.walk.msgs + {f}| == |s.walk.msgs| + 1;
  }

  lemma ReceiveFalls(c: Config, names: nat -> string, depth: nat, s: S.State, f: nat)
    requires f in s.walk.msgs
    ensures Weight(c, depth, S.DoReceive(names, s, f)) < Weight(c, depth, s)
  {
    hide Weight, DoneWeight;
    assert |s.walk.msgs - {f}| == |s.walk.msgs| - 1 && |s.walk.vec + {f}| <= |s.walk.vec| + 1;
    ControlFalls(c, depth, s, S.DoReceive(names, s, f));
  }

  lemma AnnounceFalls(c: Config, names: nat -> string, depth: nat, s: S.State)
    requires s.walk.sent + 1 in s.walk.vec
    ensures Weight(c, depth, S.DoAnnounce(c, names, s)) < Weight(c, depth, s)
  {
    hide Weight, DoneWeight;
    ControlFalls(c, depth, s, S.DoAnnounce(c, names, s));
  }

  lemma ReportFalls(c: Config, depth: nat, s: S.State, j: nat)
    requires j < |s.p.tx.done| && s.p.tx.done[j].file !in s.reported
    ensures Weight(c, depth, S.DoReport(s, j)) < Weight(c, depth, s)
  {
    var done, f := s.p.tx.done, s.p.tx.done[j].file;
    var a, b := Unreported(done, s.reported + {f}), Unreported(done, s.reported);
    assert j in b && j !in a && a <= b - {j};
    S.SubsetSmaller(a, b - {j});
    hide Weight, Unreported, WalkWeight;
    ControlFalls(c, depth, s, S.DoReport(s, j));
  }

  lemma EnterFalls(c: Config, depth: nat, s: S.State)
    requires s.desk.entered < |s.p.tx.done|
    ensures Weight(c, depth, S.DoEnter(s)) < Weight(c, depth, s)
  {
    hide Weight, Unreported, WalkWeight;
    ControlFalls(c, depth, s, S.DoEnter(s));
  }

  lemma FlagsFall(c: Config, depth: nat, s: S.State)
    ensures !s.complete ==> Weight(c, depth, S.DoComplete(s)) < Weight(c, depth, s)
    ensures !s.walk.over ==> Weight(c, depth, s.(walk := s.walk.(over := true))) < Weight(c, depth, s)
    ensures !s.finished ==> Weight(c, depth, s.(finished := true)) < Weight(c, depth, s)
  {
    hide Weight, DoneWeight;
    if !s.complete {
      ControlFalls(c, depth, s, S.DoComplete(s));
    }
    if !s.walk.over {
      ControlFalls(c, depth, s, s.(walk := s.walk.(over := true)));
    }
    if !s.finished {
      ControlFalls(c, depth, s, s.(finished := true));
    }
  }

  lemma ConfirmFalls(c: Config, depth: nat, s: S.State)
    requires S.CanConfirm(s) && (S.DoConfirm(s).failed ==> s.failed) && !s.failed
    ensures Weight(c, depth, S.DoConfirm(s)) < Weight(c, depth, s)
  {
    hide Weight, DoneWeight, WalkWeight;
    ControlFalls(c, depth, s, S.DoConfirm(s));
  }

  lemma ItemFalls(c: Config, depth: nat, s: S.State)
    requires s.toRx != []
    ensures Weight(c, depth, S.DoRxItem(s)) < Weight(c, depth, s)
  {
    hide Weight, DoneWeight, WalkWeight;
    ControlFalls(c, depth, s, S.DoRxItem(s));
  }

  lemma SendFalls(c: Config, depth: nat, s: S.State)
    requires s.doneQ != []
    ensures Weight(c, depth, S.DoRxSend(s)) < Weight(c, depth, s)
  {
    hide Weight, DoneWeight, WalkWeight;
    ControlFalls(c, depth, s, S.DoRxSend(s));
  }

  lemma FilesFall(c: Config, depth: nat, s: S.State)
    ensures S.CanOpen(s) ==> Weight(c, depth, S.DoRxOpen(c, s)) < Weight(c, depth, s)
    ensures S.CanClose(s) ==> Weight(c, depth, S.DoRxClose(c, s)) < Weight(c, depth, s)
  {
    hide TxWeight, DoneWeight, JobSum;
  }

  /** The steps of the sender's control loop. */
  lemma SenderFalls(c: Config, names: nat -> string, sparse: bool, depth: nat, s: S.State, a: S.Action)
    requires a.Receive? || a.Announce? || a.WalkOver? || a.Report? || a.Enter? || a.Confirm? || a.Complete?
    requires S.Inv(c, names, s) && Proper(c, depth, s, a)
    ensures Weight(c, depth, S.Do(c, names, sparse, s, a)) < Weight(c, depth, s)
  {
    hide S.Inv, Weight, D.Can, D.Do, S.DoReceive, S.DoAnnounce, S.DoReport, S.DoEnter, S.DoComplete;
    match a
    case Receive(f) => ReceiveFalls(c, names, depth, s, f);
    case Announce => AnnounceFalls(c, names, depth, s);
    case Report(j) => ReportFalls(c, depth, s, j);
    case Enter => EnterFalls(c, depth, s);
    case Confirm =>
      ConfirmAgreed(c, names, s);
      hide S.DoConfirm, S.CanConfirm;
      ConfirmFalls(c, depth, s);
    case _ => FlagsFall(c, depth, s);
  }

  /** The steps of the receiver's main loop. */
  lemma ReceiverFalls(c: Config, names: nat -> string, sparse: bool, depth: nat, s: S.State, a: S.Action)
    requires a.RxItem? || a.RxOpen? || a.RxClose? || a.RxSend? || a.RxFinish?
    requires Proper(c, depth, s, a)
    ensures Weight(c, depth, S.Do(c, names, sparse, s, a)) < Weight(c, depth, s)
  {
    hide Weight, D.Can, D.Do, S.DoRxItem, S.DoRxOpen, S.DoRxClose, S.DoRxSend, S.CanOpen, S.CanClose;
    match a
    case RxItem => ItemFalls(c, depth, s);
    case RxSend => SendFalls(c, depth, s);
    case RxFinish => FlagsFall(c, depth, s);
    case _ => FilesFall(c, depth, s);
  }

  /** Every proper step of every thread lowers the weight of the session. */
  lemma EveryStepFalls(c: Config, names: nat -> string, sparse: bool, depth: nat, s: S.State, a: S.Action)
    requires S.Inv(c, names, s) && Proper(c, depth, s, a)
    ensures Weight(c, depth, S.Do(c, names, sparse, s, a)) < Weight(c, depth, s)
  {
    hide S.Inv, D.Inv, Weight;
    WalkFacts(c, names, s);
    match a
    case Data(d) => DataFalls(c, names, sparse, depth, s, d);
    case Enumerate(f) =>
      hide D.Can, D.Do, S.DoEnumerate;
      EnumerateFalls(c, depth, s, f);
    case Receive(_) => SenderFalls(c, names, sparse, depth, s, a);
    case Announce => SenderFalls(c, names, sparse, depth, s, a);
    case WalkOver => SenderFalls(c, names, sparse, depth, s, a);
    case Report(_) => SenderFalls(c, names, sparse, depth, s, a);
    case Enter => SenderFalls(c, names, sparse, depth, s, a);
    case Confirm => SenderFalls(c, names, sparse, depth, s, a);
    case Complete => SenderFalls(c, names, sparse, depth, s, a);
    case _ => ReceiverFalls(c, names, sparse, depth, s, a);
  }

  lemma WalkFacts(c: Config, names: nat -> string, s: S.State)
    requires S.Inv(c, names, s)
    ensures D.Inv(c, s.p) && s.p.tx.added <= Range(s.walk.drawn) && s.walk.msgs <= s.p.tx.added
  {
    hide D.Inv, S.QueueOk, S.NamesOk, S.CountsOk, S.OpeningOk, S.ClosingOk, S.InfoOk, S.ReceiptsOk, S.DeskOk,
      S.ReportedOk;
  }

  lemma ConfirmAgreed(c: Config, names: nat -> string, s: S.State)
    requires S.Inv(c, names, s) && S.CanConfirm(s)
    ensures !s.failed && !S.DoConfirm(s).failed
  {
    hide D.Inv, S.ControlOk;
    S.ConfirmAgrees(c, names, s);
    S.EndHolds(c, names, s);
  }
}
