/** Every session comes to its end: once numbering has stopped, no schedule goes on for ever, and
    one that cannot go on has let the receiver leave its loop with every file arrived whole. */
module Progress {
  import opened Blocks
  import opened Potential
  import Disk
  import D = DataPlane
  import Share = SenderShare
  import L = Ledger
  import S = Session
  import W = StateWord

  // ---- What else holds in every run ----

  predicate Tends(s: Share.State, f: nat) {
    exists w | 0 <= w < |s.workers| :: Share.Out(s.workers[w]) && s.workers[w].file == f
  }

  /** No worker bit is left in the word. */
  predicate Bare(r: Share.Rec) { r.word.Open? && r.word.ids == {} }

  /** A file without worker bits is down to FS_COMPLETE and has a last worker on its way out. */
  ghost predicate Tended(s: Share.State) {
    forall f | f in s.recs && Bare(s.recs[f]) :: s.recs[f].word == W.COMPLETE && Tends(s, f)
  }

  lemma TendsStays(s: Share.State, s': Share.State, w: nat, f: nat)
    requires Tends(s, f) && |s'.workers| == |s.workers| && w < |s.workers|
    requires forall v | 0 <= v < |s.workers| && v != w :: s'.workers[v] == s.workers[v]
    requires Share.Out(s.workers[w]) && s.workers[w].file == f ==> Share.Out(s'.workers[w]) && s'.workers[w].file == f
    ensures Tends(s', f)
  {
    var v :| 0 <= v < |s.workers| && Share.Out(s.workers[v]) && s.workers[v].file == f;
    assert Share.Out(s'.workers[v]) && s'.workers[v].file == f;
  }

  /** What a worker's own action leaves alone. */
  lemma OwnAction(c: Config, s: Share.State, a: Share.Action)
    requires Share.Enabled(c, s, a) && !a.Add?
    ensures a.w < |s.workers| == |Share.Apply(c, s, a).workers|
    ensures forall v | 0 <= v < |s.workers| && v != a.w :: Share.Apply(c, s, a).workers[v] == s.workers[v]
  {
  }

  /** What a step leaves behind at a file without worker bits: the word and the worker on its way
      out as they were, or the word down to FS_COMPLETE and the worker now on its way out. */
  ghost predicate TendedAfter(s: Share.State, s': Share.State, w: nat, f: nat)
    requires f in s'.recs && w < |s.workers| && w < |s'.workers|
  {
    || (f in s.recs && s'.recs[f].word == s.recs[f].word &&
        (Share.Out(s.workers[w]) && s.workers[w].file == f ==> Share.Out(s'.workers[w]) && s'.workers[w].file == f))
    || (s'.recs[f].word == W.COMPLETE && Share.Out(s'.workers[w]) && s'.workers[w].file == f)
  }

  lemma DetachDown(c: Config, s: Share.State, w: nat, f: nat)
    requires Share.Inv(c, s) && Share.Enabled(c, s, Share.Detach(w))
    requires f in Share.DoDetach(c, s, w).recs && Bare(Share.DoDetach(c, s, w).recs[f])
    ensures TendedAfter(s, Share.DoDetach(c, s, w), w, f)
  {
    assert Share.WorkerOk(c, s, w);
  }

  /** Only a detach can take the last bit from a word. */
  lemma OthersDown(c: Config, s: Share.State, a: Share.Action, f: nat)
    requires Share.Inv(c, s) && Share.Enabled(c, s, a) && !a.Add? && !a.Detach? && a.w < |s.workers|
    requires f in Share.Apply(c, s, a).recs && Bare(Share.Apply(c, s, a).recs[f])
    requires a.w < |Share.Apply(c, s, a).workers|
    ensures TendedAfter(s, Share.Apply(c, s, a), a.w, f)
  {
    assert Share.WorkerOk(c, s, a.w);
    hide Data, HashOf, BlockCount, Share.Inv, Share.WorkerOk;
  }

  lemma TendedKeeps(c: Config, s: Share.State, a: Share.Action)
    requires Share.Inv(c, s) && Tended(s) && Share.Enabled(c, s, a)
    ensures Tended(Share.Apply(c, s, a)) && |Share.Apply(c, s, a).workers| == |s.workers|
  {
    var s' := Share.Apply(c, s, a);
    if a.Add? {
      assert forall f | f in s.recs && Bare(s.recs[f]) :: Tends(s, f) && Tends(s', f);
    } else {
      OwnAction(c, s, a);
      forall f | f in s'.recs && Bare(s'.recs[f])
        ensures s'.recs[f].word == W.COMPLETE && Tends(s', f)
      {
        if a.Detach? {
          DetachDown(c, s, a.w, f);
        } else {
          OthersDown(c, s, a, f);
        }
        hide Share.Apply;
        if !(Share.Out(s'.workers[a.w]) && s'.workers[a.w].file == f) {
          assert Bare(s.recs[f]);
          TendsStays(s, s', a.w, f);
        }
      }
    }
  }

  ghost predicate Live(s: S.State) {
    && Tended(s.p.tx) && |s.p.tx.workers| > 0 && |s.p.rx.workers| > 0
    && (s.complete ==> s.bye || S.SessionComplete in s.toRx)
  }

  lemma CrewStays(c: Config, sparse: bool, p: D.Plane, d: D.Step)
    requires D.Can(c, p, d)
    ensures |D.Do(c, sparse, p, d).rx.workers| == |p.rx.workers|
    ensures !d.Tx? ==> D.Do(c, sparse, p, d).tx == p.tx
    ensures d.Tx? ==> D.Do(c, sparse, p, d).tx == Share.Apply(c, p.tx, d.a)
  {
    hide D.SlotOf, D.DiskOf, D.Raised, Share.Apply, Share.Enabled;
  }

  lemma DataLive(c: Config, names: nat -> string, sparse: bool, s: S.State, d: D.Step)
    requires S.Inv(c, names, s) && Live(s) && S.Background(d) && D.Can(c, s.p, d)
    ensures Live(s.(p := D.Do(c, sparse, s.p, d)))
  {
    hide S.ControlOk, Share.Inv, D.RxInv, D.NetOk, Tended;
    CrewStays(c, sparse, s.p, d);
    if d.Tx? {
      TendedKeeps(c, s.p.tx, d.a);
    }
  }

  lemma EnumerateLive(c: Config, names: nat -> string, s: S.State, f: nat)
    requires S.Inv(c, names, s) && Live(s) && f > 0 && f !in s.p.tx.added
    ensures Live(S.DoEnumerate(c, s, f))
  {
    hide S.ControlOk, Share.Inv, D.RxInv, D.NetOk, Tended;
    TendedKeeps(c, s.p.tx, Share.Add(f));
  }

  /** The final message is either still in the queue or has arrived. */
  lemma ItemLive(s: S.State)
    requires Live(s) && s.toRx != []
    ensures Live(S.DoRxItem(s))
  {
    hide Tended;
    assert s.toRx == [s.toRx[0]] + s.toRx[1..];
  }

  lemma LiveKeeps(c: Config, names: nat -> string, sparse: bool, s: S.State, a: S.Action)
    requires S.Inv(c, names, s) && Live(s) && S.Can(c, s, a)
    ensures Live(S.Do(c, names, sparse, s, a))
  {
    hide S.Inv, D.Can, D.Do, Tended;
    match a
    case Data(d) => DataLive(c, names, sparse, s, d);
    case Enumerate(f) => EnumerateLive(c, names, s, f);
    case RxItem => ItemLive(s);
    case Announce => assert S.DoAnnounce(c, names, s).toRx == s.toRx + [S.NameItem(c, names, s.walk.sent + 1)];
    case _ =>
  }

  lemma {:induction false} RunLive(c: Config, names: nat -> string, sparse: bool, n: nat, m: nat, run: seq<S.Action>)
    requires S.Ordinary(c, n) && n > 0 && m > 0 && S.Legal(c, names, sparse, S.Start(n, m), run)
    ensures Live(S.Exec(c, names, sparse, S.Start(n, m), run))
    decreases |run|
  {
    if run != [] {
      hide S.Inv, Live;
      RunLive(c, names, sparse, n, m, run[..|run| - 1]);
      S.RunKeeps(c, names, sparse, n, m, run[..|run| - 1]);
      LiveKeeps(c, names, sparse, S.Exec(c, names, sparse, S.Start(n, m), run[..|run| - 1]), run[|run| - 1]);
    }
  }

  // ---- Somebody can always move on ----

  /** The session is over, or some thread can take a proper step. */
  ghost predicate Moves(c: Config, depth: nat, s: S.State) {
    s.finished || exists a: S.Action :: Proper(c, depth, s, a)
  }

  lemma ByAction(c: Config, depth: nat, s: S.State, a: S.Action)
    requires Proper(c, depth, s, a)
    ensures Moves(c, depth, s)
  {
  }

  /** The next step of a worker that has a file: it claims a block only with an empty queue. */
  ghost function NextStep(k: Share.Worker, w: nat): Share.Action
    requires !k.Idle?
  {
    match k
    case Working(f, q, eof) =>
      if q != {} then var i :| i in q; Share.Reap(w, i) else if eof then Share.Detach(w) else Share.Claim(w)
    case Sending(f, q, eof, i, st) =>
      if st == 0 then Share.Fold(w)
      else if st == 1 then Share.Send(w)
      else if st == 2 then Share.Size(w)
      else Share.Tick(w)
    case Leaving(f) => Share.Copy(w)
    case Publishing(f, d) => Share.Publish(w)
    case Wiping(f) => Share.Wipe(w)
  }

  lemma BusyTxMoves(c: Config, depth: nat, s: S.State, w: nat)
    requires Share.Inv(c, s.p.tx) && w < |s.p.tx.workers| && !s.p.tx.workers[w].Idle? && depth > 0
    ensures Moves(c, depth, s)
  {
    assert Share.WorkerOk(c, s.p.tx, w);
    var a := NextStep(s.p.tx.workers[w], w);
    assert Share.Enabled(c, s.p.tx, a) && !a.Add?;
    assert a.Claim? ==> a.w == w && |s.p.tx.workers[w].queue| == 0;
    hide Share.Enabled, Share.Inv, NextStep;
    assert D.Can(c, s.p, D.Tx(a));
    ByAction(c, depth, s, S.Data(D.Tx(a)));
  }

  /** An open file has a worker attached to it or on its way out. */
  lemma OpenFileHasWorker(c: Config, t: Share.State, f: nat) returns (w: nat)
    requires Share.Inv(c, t) && Tended(t) && f in t.recs && t.recs[f].word.Open?
    ensures w < |t.workers| && !t.workers[w].Idle?
  {
    assert Share.RecOk(c, t, f);
    var ids := t.recs[f].word.ids;
    if ids == {} {
      assert Bare(t.recs[f]);
      w :| 0 <= w < |t.workers| && Share.Out(t.workers[w]) && t.workers[w].file == f;
    } else {
      w :| w in ids;
    }
  }

  /** As long as a file is in the sender's table, some sender worker can move on. */
  lemma OpenFileMoves(c: Config, depth: nat, s: S.State, f: nat)
    requires Share.Inv(c, s.p.tx) && Tended(s.p.tx) && |s.p.tx.workers| > 0 && f in s.p.tx.recs && depth > 0
    ensures Moves(c, depth, s)
  {
    var t := s.p.tx;
    assert Share.RecOk(c, t, f);
    hide Moves;
    if w :| 0 <= w < |t.workers| && !t.workers[w].Idle? {
      BusyTxMoves(c, depth, s, w);
    } else if t.recs[f].word.Open? {
      var w := OpenFileHasWorker(c, t, f);
      BusyTxMoves(c, depth, s, w);
    } else {
      hide Share.Inv, Tended;
      ByAction(c, depth, s, S.Data(D.Tx(Share.First(0, f))));
    }
  }

  /** Until the walk is over, it can go on. */
  lemma WalkMoves(c: Config, depth: nat, s: S.State)
    requires S.WalkOk(s.walk, s.p.tx.added) && !s.walk.over
    ensures Moves(c, depth, s)
  {
    hide Moves, D.Can;
    if f :| f in Range(s.walk.drawn) && f !in s.p.tx.added {
      ByAction(c, depth, s, S.Enumerate(f));
    } else if f :| f in s.walk.msgs {
      ByAction(c, depth, s, S.Receive(f));
    } else if s.walk.sent + 1 in s.walk.vec {
      ByAction(c, depth, s, S.Announce);
    } else {
      ByAction(c, depth, s, S.WalkOver);
    }
  }

  /** The control queues are empty and every completion has been passed on. */
  predicate Quiet(s: S.State) {
    && s.walk.over && s.p.tx.recs == map[] && s.toRx == [] && s.opening.addQ == [] && s.doneQ == [] && s.toTx == []
    && s.desk.entered == |s.p.tx.done| && (forall j | 0 <= j < |s.p.tx.done| :: s.p.tx.done[j].file in s.reported)
  }

  lemma UnquietMoves(c: Config, names: nat -> string, depth: nat, s: S.State)
    requires S.Inv(c, names, s) && Live(s) && !Quiet(s) && depth > 0
    ensures Moves(c, depth, s)
  {
    hide S.QueueOk, S.NamesOk, S.CountsOk, S.OpeningOk, S.ClosingOk, S.InfoOk, S.ReceiptsOk, S.DeskOk, S.ReportedOk,
      S.WalkOk, D.RxInv, Share.Inv, Tended, Moves, D.Can;
    if !s.walk.over {
      WalkMoves(c, depth, s);
    } else if s.p.tx.recs != map[] {
      var f :| f in s.p.tx.recs;
      OpenFileMoves(c, depth, s, f);
    } else if s.toRx != [] {
      ByAction(c, depth, s, S.RxItem);
    } else if s.opening.addQ != [] {
      FirstCanOpen(c, names, s);
      ByAction(c, depth, s, S.RxOpen);
    } else if s.doneQ != [] {
      ByAction(c, depth, s, S.RxSend);
    } else if j :| 0 <= j < |s.p.tx.done| && s.p.tx.done[j].file !in s.reported {
      ByAction(c, depth, s, S.Report(j));
    } else if s.desk.entered < |s.p.tx.done| {
      ByAction(c, depth, s, S.Enter);
    } else {
      EnteredInRange(c, s.desk, s.walk.total, s.p.tx.done);
      ReceiptIsReady(c, names, s);
      ByAction(c, depth, s, S.Confirm);
    }
  }

  lemma EnteredInRange(c: Config, k: S.Desk, total: set<nat>, done: seq<Share.Done>)
    requires S.DeskOk(c, k, total, done)
    ensures k.entered <= |done|
  {
  }

  lemma FirstCanOpen(c: Config, names: nat -> string, s: S.State)
    requires S.ControlOk(c, names, s) && s.opening.addQ != []
    ensures S.CanOpen(s)
  {
    hide S.QueueOk, S.CountsOk, S.ClosingOk, S.InfoOk, S.ReceiptsOk, S.DeskOk, S.ReportedOk, S.WalkOk;
    S.OpeningPops(s.opening, s.p.rx.ever);
  }

  /** A file that has left the sender's table is among the completions. */
  lemma DoneFile(c: Config, t: Share.State, f: nat)
    requires Share.DoneOk(c, t) && f in t.added && f !in t.recs
    ensures Share.Exact(c, f) in t.done && f in S.DoneFiles(t.done, |t.done|)
  {
    assert Share.Finished(t, f);
    var j :| 0 <= j < |t.done| && t.done[j] == Share.Exact(c, f);
    assert t.done[j].file == f;
  }

  lemma InLedger(c: Config, s: S.State, f: nat)
    requires S.DeskOk(c, s.desk, s.walk.total, s.p.tx.done) && s.desk.entered == |s.p.tx.done|
    requires f in s.walk.total && f !in s.desk.confirmed && f in S.DoneFiles(s.p.tx.done, |s.p.tx.done|)
    ensures L.Ready(s.desk.book, f)
  {
  }

  lemma NotYetConfirmed(c: Config, s: S.State)
    requires S.ReceiptsOk(c, s.doneQ, s.toTx, s.desk.confirmed, s.p.rx.closed.Keys) && s.toTx != []
    ensures s.toTx[0].fino in s.p.rx.closed && s.toTx[0].fino !in s.desk.confirmed
  {
    assert s.toTx[0] in s.toTx;
  }

  lemma TotalWasAdded(w: S.Walk, added: set<nat>)
    requires S.WalkOk(w, added)
    ensures w.total <= added && (w.over ==> w.total == added)
  {
  }

  /** With every completion entered, the ledger is ready for any confirmation. */
  lemma ReceiptIsReady(c: Config, names: nat -> string, s: S.State)
    requires S.Inv(c, names, s) && s.toTx != [] && s.desk.entered >= |s.p.tx.done| && s.p.tx.recs == map[]
    ensures S.CanConfirm(s)
  {
    hide S.QueueOk, S.NamesOk, S.OpeningOk, S.CountsOk, S.ClosingOk, S.InfoOk, S.ReportedOk, S.WalkOk, S.ReceiptsOk,
      D.RxInv, Share.DoneOk, Share.WorkersOk, Share.RecsOk, Share.SentOk;
    var f := s.toTx[0].fino;
    NotYetConfirmed(c, s);
    S.OpenedWasAnnounced(c, names, s, f);
    TotalWasAdded(s.walk, s.p.tx.added);
    DoneFile(c, s.p.tx, f);
    InLedger(c, s, f);
  }

  // ---- The receiver when the control queues are quiet ----

  /** Every numbered file has been opened. */
  lemma AllOpened(c: Config, names: nat -> string, s: S.State)
    requires S.ControlOk(c, names, s) && Quiet(s)
    ensures s.p.tx.added == s.walk.total == s.opening.named == s.p.rx.ever
  {
    hide S.QueueOk, S.CountsOk, S.ClosingOk, S.InfoOk, S.ReceiptsOk, S.DeskOk, S.ReportedOk;
    S.OpenedWereAnnounced(c, names, s);
    TotalWasAdded(s.walk, s.p.tx.added);
    AllNamed(c, names, s.walk, s.p.tx.added, s.opening.named);
    AllAdded(s.opening, s.p.rx.ever);
  }

  lemma AllNamed(c: Config, names: nat -> string, w: S.Walk, added: set<nat>, named: set<nat>)
    requires S.WalkOk(w, added) && w.over && S.NamesOk(c, names, [], w.sent, named)
    ensures w.total <= named
  {
    forall f | f in w.total
      ensures f in named
    {
      assert S.NameItem(c, names, f) !in [];
    }
  }

  lemma AllAdded(o: S.Opening, ever: set<nat>)
    requires S.OpeningOk(o, ever) && o.addQ == []
    ensures o.named <= ever
  {
    assert forall f: nat :: f !in o.addQ;
  }

  /** A frame in hand is of an open file. */
  lemma FrameFileOpen(c: Config, p: D.Plane, w: nat)
    requires D.Inv(c, p) && w < |p.rx.workers| && p.rx.workers[w].job.Block? && p.tx.added <= p.rx.ever
    ensures p.rx.workers[w].job.stage <= 4 && p.rx.workers[w].job.key.file in p.rx.table
  {
    var r := p.rx;
    var k := r.workers[w].job.key;
    assert D.WorkerOk(c, r, w);
    assert k in p.tx.sent && Share.Key(k.file, k.index) == k;
    assert D.EverOk(c, r, k.file);
    forall f | f in r.closed
      ensures f != k.file
    {
      ClosedHasNoFrames(c, r, f, w);
    }
  }

  lemma ClosedHasNoFrames(c: Config, r: D.Rx, f: nat, w: nat)
    requires D.RxInv(c, r) && f in r.closed && w < |r.workers| && r.workers[w].job.Block?
    ensures r.workers[w].job.key.file != f
  {
    assert D.WorkerOk(c, r, w) && D.ClosedOk(c, r, f);
  }

  lemma BusyRxMoves(c: Config, depth: nat, s: S.State, w: nat)
    requires D.Inv(c, s.p) && w < |s.p.rx.workers| && s.p.rx.workers[w].job.Block? && s.p.tx.added <= s.p.rx.ever
    ensures Moves(c, depth, s)
  {
    hide D.Inv, Moves;
    FrameFileOpen(c, s.p, w);
    var d := match s.p.rx.workers[w].job.stage
             case 0 => D.Lookup(w)
             case 1 => D.RxFold(w)
             case 2 => D.Write(w)
             case 3 => D.RxSize(w)
             case _ => D.RxTick(w);
    assert D.Can(c, s.p, d) && !d.Tx?;
    hide D.Can;
    ByAction(c, depth, s, S.Data(d));
  }

  lemma NetMoves(c: Config, depth: nat, s: S.State, k: Share.Key)
    requires k in s.p.net && |s.p.rx.workers| > 0 && s.p.rx.workers[0].job.None?
    ensures Moves(c, depth, s)
  {
    var d := D.Take(0, k, Disk.Stale(Data(c, k.file, k.index), 0));
    assert D.Can(c, s.p, d);
    ByAction(c, depth, s, S.Data(d));
  }

  /** Everything sent has been taken in. */
  predicate Delivered(p: D.Plane) {
    p.net == {} && forall w | 0 <= w < |p.rx.workers| :: p.rx.workers[w].job.None?
  }

  lemma UndeliveredMoves(c: Config, depth: nat, s: S.State)
    requires D.Inv(c, s.p) && |s.p.rx.workers| > 0 && s.p.tx.added <= s.p.rx.ever && !Delivered(s.p)
    ensures Moves(c, depth, s)
  {
    hide D.Inv, Moves;
    if w :| 0 <= w < |s.p.rx.workers| && s.p.rx.workers[w].job.Block? {
      BusyRxMoves(c, depth, s, w);
    } else {
      var k :| k in s.p.net;
      NetMoves(c, depth, s, k);
    }
  }

  /** An open file whose sender is done and whose frames are all in has its full count. */
  lemma CountIsFull(c: Config, p: D.Plane, f: nat)
    requires D.Inv(c, p) && Delivered(p) && f in p.tx.added && f !in p.tx.recs && f in p.rx.table
    ensures D.CanClose(p.rx, f, BlockCount(c, f))
  {
    var r := p.rx;
    assert D.SlotOk(c, r, f) && D.EverOk(c, r, f);
    forall i | 0 <= i < |r.got[f]|
      ensures r.got[f][i] == 4
    {
      assert Share.Key(f, i) in p.tx.sent;
      assert D.HolderOk(c, r, Share.Key(f, i));
    }
    FullTotals(c, f, r.got[f], 4);
  }

  lemma HeadToClose(c: Config, names: nat -> string, s: S.State)
    requires S.ControlOk(c, names, s) && s.closing.closeQ != [] && s.opening.named == s.p.tx.added
    ensures var f := s.closing.closeQ[0];
            && f in s.closing.counted && f !in s.p.rx.closed
            && (f in s.opening.named ==>
                  f in s.info && s.info[f].blocks == BlockCount(c, f) && s.info[f].sz == |c.src(f)|)
  {
    hide S.QueueOk, S.NamesOk, S.CountsOk, S.OpeningOk, S.ClosingOk, S.InfoOk, S.ReceiptsOk, S.DeskOk, S.ReportedOk,
      S.WalkOk;
    S.ClosingPops(s.closing, s.p.rx.closed.Keys);
    var f := s.closing.closeQ[0];
    if f in s.opening.named {
      S.InfoReady(c, names, s.info, s.opening.named, s.closing.counted, s.p.rx.closed.Keys, f);
    }
  }

  lemma CloseMoves(c: Config, names: nat -> string, depth: nat, s: S.State)
    requires S.Inv(c, names, s) && Quiet(s) && Delivered(s.p) && s.closing.closeQ != []
    ensures Moves(c, depth, s)
  {
    hide S.ControlOk, D.RxInv, Share.WorkersOk, Share.RecsOk, Share.SentOk, Share.DoneOk, Moves;
    var f := s.closing.closeQ[0];
    AllOpened(c, names, s);
    HeadToClose(c, names, s);
    CountedAdded(c, names, s);
    OpenOrClosed(c, s.p.rx, f);
    CountIsFull(c, s.p, f);
    ByAction(c, depth, s, S.RxClose);
  }

  lemma CountedAdded(c: Config, names: nat -> string, s: S.State)
    requires S.Inv(c, names, s)
    ensures s.closing.counted <= s.p.tx.added
  {
    hide S.QueueOk, S.NamesOk, S.CountsOk, S.OpeningOk, S.ClosingOk, S.InfoOk, S.ReceiptsOk, S.DeskOk, S.ReportedOk,
      S.WalkOk, D.RxInv, Share.DoneOk;
    S.CountedWereAdded(c, s);
  }

  lemma OpenOrClosed(c: Config, r: D.Rx, f: nat)
    requires D.RxInv(c, r) && f in r.ever
    ensures f in r.table || f in r.closed
  {
    assert D.EverOk(c, r, f);
  }

  // ---- When nothing is left ----

  /** All files are confirmed when all queues are empty. */
  lemma AllSettled(c: Config, names: nat -> string, s: S.State)
    requires S.Inv(c, names, s) && Quiet(s) && s.closing.closeQ == []
    ensures s.desk.filesOk == s.walk.filesTotal
  {
    hide S.QueueOk, S.NamesOk, S.CountsOk, S.OpeningOk, S.ClosingOk, S.InfoOk, S.ReceiptsOk, S.DeskOk, S.ReportedOk,
      S.WalkOk, D.RxInv, Share.DoneOk;
    forall f | f in s.walk.total
      ensures f in s.desk.confirmed
    {
      TotalWasAdded(s.walk, s.p.tx.added);
      DoneFile(c, s.p.tx, f);
      FileSettled(c, s, f);
    }
    AllCounted(c, s.walk, s.p.tx.added, s.desk, s.p.tx.done);
  }

  lemma AllCounted(c: Config, w: S.Walk, added: set<nat>, k: S.Desk, done: seq<Share.Done>)
    requires S.WalkOk(w, added) && S.DeskOk(c, k, w.total, done) && w.total <= k.confirmed
    ensures k.filesOk == w.filesTotal
  {
    assert k.confirmed == w.total;
  }

  lemma FileSettled(c: Config, s: S.State, f: nat)
    requires Quiet(s) && s.closing.closeQ == [] && f in S.DoneFiles(s.p.tx.done, |s.p.tx.done|)
    requires S.CountsOk(c, s.toRx, s.reported, s.closing.counted) && S.ClosingOk(s.closing, s.p.rx.closed.Keys)
    requires S.ReceiptsOk(c, s.doneQ, s.toTx, s.desk.confirmed, s.p.rx.closed.Keys)
    ensures f in s.desk.confirmed
  {
    assert f in s.reported;
    assert S.CountItem(c, f) !in s.toRx;
    assert f !in s.closing.closeQ;
    assert S.Receipt(c, f) !in s.doneQ && S.Receipt(c, f) !in s.toTx;
  }

  lemma QuietMoves(c: Config, names: nat -> string, depth: nat, s: S.State)
    requires S.Inv(c, names, s) && Live(s) && Quiet(s) && !s.finished
    ensures Moves(c, depth, s)
  {
    hide S.ControlOk, D.Inv, Tended, Moves, D.Can;
    AllOpened(c, names, s);
    if !Delivered(s.p) {
      UndeliveredMoves(c, depth, s);
    } else if s.closing.closeQ != [] {
      CloseMoves(c, names, depth, s);
    } else if !s.complete {
      AllSettled(c, names, s);
      ByAction(c, depth, s, S.Complete);
    } else {
      S.AllClosed(c, names, s);
      ByAction(c, depth, s, S.RxFinish);
    }
  }

  lemma AlwaysMoves(c: Config, names: nat -> string, depth: nat, s: S.State)
    requires S.Inv(c, names, s) && Live(s) && depth > 0
    ensures Moves(c, depth, s)
  {
    hide S.Inv, Live, Quiet, Proper;
    if !s.finished {
      if Quiet(s) {
        QuietMoves(c, names, depth, s);
      } else {
        UnquietMoves(c, names, depth, s);
      }
    }
  }

  lemma ReachableLive(c: Config, names: nat -> string, sparse: bool, n: nat, m: nat, s: S.State)
    requires S.Reachable(c, names, sparse, n, m, s) && n > 0 && m > 0
    ensures S.Inv(c, names, s) && Live(s)
  {
    hide S.Inv, Live;
    var run :| S.Legal(c, names, sparse, S.Start(n, m), run) && s == S.Exec(c, names, sparse, S.Start(n, m), run);
    S.RunKeeps(c, names, sparse, n, m, run);
    RunLive(c, names, sparse, n, m, run);
  }

  /** The session never gets stuck: in every reachable state, with at least one worker on each
      side, some thread can take a step other than numbering another file. */
  lemma NeverStuck(c: Config, names: nat -> string, sparse: bool, n: nat, m: nat, s: S.State)
    requires S.Reachable(c, names, sparse, n, m, s) && n > 0 && m > 0
    ensures exists a: S.Action :: !a.Draw? && S.Can(c, s, a)
  {
    hide S.Reachable, S.Inv, Live;
    ReachableLive(c, names, sparse, n, m, s);
    AlwaysMoves(c, names, 1, s);
    if s.finished {
      FinishedStays(c, names, s);
      assert S.Can(c, s, S.RxFinish);
    } else {
      var a :| Proper(c, 1, s, a);
      assert S.Can(c, s, a);
    }
  }

  lemma FinishedStays(c: Config, names: nat -> string, s: S.State)
    requires S.Inv(c, names, s) && s.finished
    ensures s.complete && s.bye && s.opening.countIn == s.closing.countOut
  {
    hide D.Inv, S.ControlOk;
    S.EndHolds(c, names, s);
    S.AllClosed(c, names, s);
  }

  // ---- Every schedule ends, and ends well ----

  /** The run goes through from `s` and numbers no further file. */
  predicate Continues(c: Config, names: nat -> string, sparse: bool, s: S.State, run: seq<S.Action>)
    decreases |run|
  {
    run == [] ||
    (!run[0].Draw? && S.Can(c, s, run[0]) && Continues(c, names, sparse, S.Do(c, names, sparse, s, run[0]), run[1..]))
  }

  function After(c: Config, names: nat -> string, sparse: bool, s: S.State, run: seq<S.Action>): S.State
    requires Continues(c, names, sparse, s, run)
    decreases |run|
  {
    if run == [] then s else After(c, names, sparse, S.Do(c, names, sparse, s, run[0]), run[1..])
  }

  /** A schedule: every step of the run is a proper one. */
  predicate Schedule(c: Config, names: nat -> string, sparse: bool, depth: nat, s: S.State, run: seq<S.Action>)
    decreases |run|
  {
    run == [] ||
    (Proper(c, depth, s, run[0]) && Schedule(c, names, sparse, depth, S.Do(c, names, sparse, s, run[0]), run[1..]))
  }

  lemma DrawnStays(c: Config, names: nat -> string, sparse: bool, s: S.State, a: S.Action)
    requires S.Can(c, s, a) && !a.Draw?
    ensures S.Do(c, names, sparse, s, a).walk.drawn == s.walk.drawn
  {
    if a.Data? {
      hide D.Can, D.Do;
    } else if a.RxItem? || a.RxOpen? || a.RxClose? || a.RxSend? || a.RxFinish? {
      ReceiverDrawn(c, names, sparse, s, a);
    } else {
      SenderDrawn(c, names, sparse, s, a);
    }
  }

  lemma ReceiverDrawn(c: Config, names: nat -> string, sparse: bool, s: S.State, a: S.Action)
    requires S.Can(c, s, a) && (a.RxItem? || a.RxOpen? || a.RxClose? || a.RxSend? || a.RxFinish?)
    ensures S.Do(c, names, sparse, s, a).walk.drawn == s.walk.drawn
  {
    hide D.Can, D.Do, D.DoOpen, D.DoClose;
  }

  lemma SenderDrawn(c: Config, names: nat -> string, sparse: bool, s: S.State, a: S.Action)
    requires S.Can(c, s, a)
    requires || a.Enumerate? || a.Receive? || a.Announce? || a.WalkOver?
             || a.Report? || a.Enter? || a.Confirm? || a.Complete?
    ensures S.Do(c, names, sparse, s, a).walk.drawn == s.walk.drawn
  {
    hide D.Can, D.Do, D.DoTx;
  }

  /** The invariants hold along a schedule, and its length is at most the weight of its start. */
  lemma {:induction false} ScheduleKeeps(c: Config, names: nat -> string, sparse: bool, depth: nat, s: S.State,
                                         run: seq<S.Action>)
    requires S.Inv(c, names, s) && Live(s) && Schedule(c, names, sparse, depth, s, run)
    ensures Continues(c, names, sparse, s, run) && |run| <= Weight(c, depth, s)
    ensures var e := After(c, names, sparse, s, run);
            S.Inv(c, names, e) && Live(e) && e.walk.drawn == s.walk.drawn
    decreases |run|
  {
    hide S.Inv, Live, Weight, S.Can, S.Do;
    if run != [] {
      var a := run[0];
      S.ActionKeeps(c, names, sparse, s, a);
      LiveKeeps(c, names, sparse, s, a);
      DrawnStays(c, names, sparse, s, a);
      EveryStepFalls(c, names, sparse, depth, s, a);
      ScheduleKeeps(c, names, sparse, depth, S.Do(c, names, sparse, s, a), run[1..]);
    }
  }

  /** No schedule goes on for ever: from every reachable state, whatever the threads do, they take
      at most as many steps as the state weighs. */
  lemma SchedulesAreBounded(c: Config, names: nat -> string, sparse: bool, n: nat, m: nat, depth: nat, s: S.State,
                            run: seq<S.Action>)
    requires S.Reachable(c, names, sparse, n, m, s) && n > 0 && m > 0 && Schedule(c, names, sparse, depth, s, run)
    ensures |run| <= Weight(c, depth, s)
  {
    hide S.Reachable, S.Inv, Live, Weight, Schedule;
    ReachableLive(c, names, sparse, n, m, s);
    ScheduleKeeps(c, names, sparse, depth, s, run);
  }

  lemma FinishedArrived(c: Config, names: nat -> string, e: S.State)
    requires S.Inv(c, names, e) && e.finished
    ensures forall f | 1 <= f <= e.walk.drawn :: S.Arrived(c, e, f)
  {
    hide D.Inv, S.ControlOk;
    FinishedStays(c, names, e);
    S.AllClosed(c, names, e);
    forall f | 1 <= f <= e.walk.drawn
      ensures S.Arrived(c, e, f)
    {
      S.ClosedArrived(c, e, f);
    }
  }

  /** Every schedule that cannot be continued has let the receiver leave its loop, with every
      numbered file arrived whole: together with the bound, every fair or unfair way to run the
      threads to the end completes the session. */
  lemma MaximalSchedulesFinish(c: Config, names: nat -> string, sparse: bool, n: nat, m: nat, depth: nat, s: S.State,
                               run: seq<S.Action>)
    requires S.Reachable(c, names, sparse, n, m, s) && n > 0 && m > 0 && depth > 0
    requires Schedule(c, names, sparse, depth, s, run) && Continues(c, names, sparse, s, run)
    requires forall a: S.Action :: !Proper(c, depth, After(c, names, sparse, s, run), a)
    ensures var e := After(c, names, sparse, s, run);
            e.finished && e.walk.drawn == s.walk.drawn && forall f | 1 <= f <= s.walk.drawn :: S.Arrived(c, e, f)
  {
    hide S.Reachable, S.Inv, Live, Schedule, Continues, After, Proper;
    ReachableLive(c, names, sparse, n, m, s);
    ScheduleKeeps(c, names, sparse, depth, s, run);
    AlwaysMoves(c, names, depth, After(c, names, sparse, s, run));
    FinishedArrived(c, names, After(c, names, sparse, s, run));
  }

  lemma {:induction false} Finishes(c: Config, names: nat -> string, sparse: bool, s: S.State)
    returns (run: seq<S.Action>)
    requires S.Inv(c, names, s) && Live(s)
    ensures Continues(c, names, sparse, s, run)
    ensures var e := After(c, names, sparse, s, run); e.finished && e.walk.drawn == s.walk.drawn && S.Inv(c, names, e)
    decreases Weight(c, 1, s)
  {
    hide S.Inv, Live, Weight, S.Can, S.Do;
    if s.finished {
      run := [];
    } else {
      AlwaysMoves(c, names, 1, s);
      var a :| Proper(c, 1, s, a);
      S.ActionKeeps(c, names, sparse, s, a);
      LiveKeeps(c, names, sparse, s, a);
      DrawnStays(c, names, sparse, s, a);
      EveryStepFalls(c, names, sparse, 1, s, a);
      var rest := Finishes(c, names, sparse, S.Do(c, names, sparse, s, a));
      run := [a] + rest;
      assert run[1..] == rest;
    }
  }

  /** From every reachable state, however far the session got, and without numbering a further
      file, some continuation lets the receiver leave its loop with every file arrived whole. */
  lemma EndIsInReach(c: Config, names: nat -> string, sparse: bool, n: nat, m: nat, s: S.State)
    returns (run: seq<S.Action>)
    requires S.Reachable(c, names, sparse, n, m, s) && n > 0 && m > 0
    ensures Continues(c, names, sparse, s, run)
    ensures var e := After(c, names, sparse, s, run);
            e.finished && e.walk.drawn == s.walk.drawn && forall f | 1 <= f <= s.walk.drawn :: S.Arrived(c, e, f)
  {
    hide S.Reachable, S.Inv, Live, Continues, After;
    ReachableLive(c, names, sparse, n, m, s);
    run := Finishes(c, names, sparse, s);
    FinishedArrived(c, names, After(c, names, sparse, s, run));
  }
}
