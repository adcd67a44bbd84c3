/** The loops of the control threads are sequences of steps of the session.

    The session takes messages apart into entries and loops into single steps. Here the loops, as
    the classes run them, are put back together: a settled confirmation message, a call of
    close_file and a batch of announcements each are a run of the session's own steps with the
    same outcome.
 */
module Loops {
  import opened Blocks
  import opened Options
  import A = Announcer
  import D = DataPlane
  import L = Ledger
  import P = Progress
  import R = ReceiverControl
  import S = Session
  import Share = SenderShare

  // ---- handle_msg_from_receiver ----

  /** The completions that wait to be entered in the ledger. */
  function Waiting(s: S.State): seq<L.Completed>
    requires s.desk.entered <= |s.p.tx.done|
  {
    seq(|s.p.tx.done| - s.desk.entered, i requires 0 <= i < |s.p.tx.done| - s.desk.entered =>
      L.Completed(s.p.tx.done[s.desk.entered + i].file, Num(s.p.tx.done[s.desk.entered + i].crc)))
  }

  /** The run leads from `s` to `e` without numbering a file. */
  ghost predicate Leads(c: Config, names: nat -> string, sparse: bool, s: S.State, run: seq<S.Action>, e: S.State) {
    P.Continues(c, names, sparse, s, run) && P.After(c, names, sparse, s, run) == e
  }

  lemma StepFirst(c: Config, names: nat -> string, sparse: bool, s: S.State, a: S.Action, rest: seq<S.Action>,
                  e: S.State)
    requires !a.Draw? && S.Can(c, s, a) && Leads(c, names, sparse, S.Do(c, names, sparse, s, a), rest, e)
    ensures Leads(c, names, sparse, s, [a] + rest, e)
  {
    hide S.Can, S.Do;
    assert ([a] + rest)[1..] == rest;
  }

  lemma {:induction false} Joined(c: Config, names: nat -> string, sparse: bool, s: S.State, r: seq<S.Action>,
                                  m: S.State, q: seq<S.Action>, e: S.State)
    requires Leads(c, names, sparse, s, r, m) && Leads(c, names, sparse, m, q, e)
    ensures Leads(c, names, sparse, s, r + q, e)
    decreases |r|
  {
    hide S.Can, S.Do;
    if r == [] {
      assert r + q == q;
    } else {
      Joined(c, names, sparse, S.Do(c, names, sparse, s, r[0]), r[1..], m, q, e);
      assert (r + q)[1..] == r[1..] + q;
    }
  }

  lemma WaitingStep(s: S.State)
    requires s.desk.entered < |s.p.tx.done|
    ensures Waiting(s) != [] && Waiting(S.DoEnter(s)) == Waiting(s)[1..]
    ensures S.DoEnter(s).desk.book == L.Enter(s.desk.book, Waiting(s)[0])
  {
  }

  /** The inner loop is a run of Enter steps. */
  lemma {:induction false} EnterSteps(c: Config, names: nat -> string, sparse: bool, s: S.State, f: nat)
    returns (run: seq<S.Action>, e: S.State)
    requires s.desk.entered <= |s.p.tx.done|
    ensures Leads(c, names, sparse, s, run, e)
    ensures e == s.(desk := e.desk) && e.desk == s.desk.(book := e.desk.book, entered := e.desk.entered)
    ensures e.desk.entered <= |e.p.tx.done| && e.desk.book == L.EnterUntil(s.desk.book, Waiting(s), f).book
    ensures Waiting(e) == L.EnterUntil(s.desk.book, Waiting(s), f).rest
    decreases |s.p.tx.done| - s.desk.entered
  {
    if L.Ready(s.desk.book, f) || s.desk.entered == |s.p.tx.done| {
      run, e := [], s;
    } else {
      WaitingStep(s);
      var rest;
      rest, e := EnterSteps(c, names, sparse, S.DoEnter(s), f);
      StepFirst(c, names, sparse, s, S.Enter, rest, e);
      run := [S.Enter] + rest;
    }
  }

  /** What settling the first entry of a message takes. */
  lemma SettleHead(b: L.Book, filesOk: nat, fc: seq<L.Completed>, es: seq<L.Confirmed>)
    requires es != [] && L.Settle(b, filesOk, fc, es).ok
    ensures es[0] == L.Confirmed(0, 0) ==> L.Settle(b, filesOk, fc, es) == L.Settle(b, filesOk + 1, fc, es[1..])
    ensures es[0] != L.Confirmed(0, 0) ==>
              var e := L.EnterUntil(b, fc, es[0].fino);
              && L.Ready(e.book, es[0].fino) && e.book[es[0].fino].crc == es[0].crc
              && L.Settle(b, filesOk, fc, es) == L.Settle(e.book - {es[0].fino}, filesOk + 1, e.rest, es[1..])
  {
    hide L.EnterUntil;
  }

  /** The state is ready for the first entry, and differs from `s` only by entered completions. */
  ghost predicate Prepared(s: S.State, m: S.State, x: L.Confirmed)
    requires s.desk.entered <= |s.p.tx.done|
  {
    && m == s.(desk := m.desk) && m.desk == s.desk.(book := m.desk.book, entered := m.desk.entered)
    && m.desk.entered <= |m.p.tx.done|
    && if x == L.Confirmed(0, 0) then m == s
       else m.desk.book == L.EnterUntil(s.desk.book, Waiting(s), x.fino).book &&
            Waiting(m) == L.EnterUntil(s.desk.book, Waiting(s), x.fino).rest
  }

  /** One entry settles by one Confirm step, once its completion has been entered. */
  lemma ConfirmStep(s: S.State, m: S.State, es: seq<L.Confirmed>)
    requires s.desk.entered <= |s.p.tx.done| && es != [] && es <= s.toTx && Prepared(s, m, es[0])
    requires L.Settle(s.desk.book, s.desk.filesOk, Waiting(s), es).ok
    ensures S.CanConfirm(m)
    ensures var m' := S.DoConfirm(m);
            && m'.desk.entered <= |m'.p.tx.done| && m'.toTx == s.toTx[1..] && es[1..] <= m'.toTx
            && L.Settle(m'.desk.book, m'.desk.filesOk, Waiting(m'), es[1..])
               == L.Settle(s.desk.book, s.desk.filesOk, Waiting(s), es)
  {
    hide L.EnterUntil, L.Settle, Waiting;
    SettleHead(s.desk.book, s.desk.filesOk, Waiting(s), es);
    SameWaiting(m, S.DoConfirm(m));
  }

  lemma SameWaiting(s: S.State, s': S.State)
    requires s.desk.entered <= |s.p.tx.done| && s'.p.tx.done == s.p.tx.done && s'.desk.entered == s.desk.entered
    ensures Waiting(s') == Waiting(s)
  {
  }

  lemma ConfirmFirst(c: Config, names: nat -> string, sparse: bool, m: S.State, rest: seq<S.Action>, e: S.State)
    requires S.CanConfirm(m) && Leads(c, names, sparse, S.DoConfirm(m), rest, e)
    ensures Leads(c, names, sparse, m, [S.Confirm] + rest, e)
  {
    hide Leads, S.DoConfirm, S.CanConfirm;
    StepFirst(c, names, sparse, m, S.Confirm, rest, e);
  }

  lemma Prepare(c: Config, names: nat -> string, sparse: bool, s: S.State, x: L.Confirmed)
    returns (run: seq<S.Action>, m: S.State)
    requires s.desk.entered <= |s.p.tx.done|
    ensures Leads(c, names, sparse, s, run, m) && Prepared(s, m, x)
  {
    if x == L.Confirmed(0, 0) {
      run, m := [], s;
    } else {
      run, m := EnterSteps(c, names, sparse, s, x.fino);
    }
  }

  /** From `s` to `e` the entries `es` were settled as the ledger settles them. */
  ghost predicate Settled(s: S.State, e: S.State, es: seq<L.Confirmed>) {
    && s.desk.entered <= |s.p.tx.done| && e.desk.entered <= |e.p.tx.done| && es <= s.toTx && e.toTx == s.toTx[|es|..]
    && var r := L.Settle(s.desk.book, s.desk.filesOk, Waiting(s), es);
       r.ok && e.desk.book == r.book && e.desk.filesOk == r.filesOk && Waiting(e) == r.rest
  }

  /** A message that settles is a run of Enter and Confirm steps. */
  lemma {:induction false} SettleSteps(c: Config, names: nat -> string, sparse: bool, s: S.State, es: seq<L.Confirmed>)
    returns (run: seq<S.Action>, e: S.State)
    requires s.desk.entered <= |s.p.tx.done| && es <= s.toTx
    requires L.Settle(s.desk.book, s.desk.filesOk, Waiting(s), es).ok
    ensures Leads(c, names, sparse, s, run, e) && Settled(s, e, es)
    decreases |es|
  {
    if es == [] {
      run, e := [], s;
    } else {
      hide L.Settle, L.EnterUntil, Waiting, Leads, Prepared, Settled, S.DoConfirm, S.CanConfirm;
      var r1, m := Prepare(c, names, sparse, s, es[0]);
      ConfirmStep(s, m, es);
      var r2;
      r2, e := SettleSteps(c, names, sparse, S.DoConfirm(m), es[1..]);
      ConfirmFirst(c, names, sparse, m, r2, e);
      Joined(c, names, sparse, s, r1, m, [S.Confirm] + r2, e);
      SettledCons(s, S.DoConfirm(m), e, es);
      run := r1 + ([S.Confirm] + r2);
    }
  }

  lemma SettledCons(s: S.State, m: S.State, e: S.State, es: seq<L.Confirmed>)
    requires s.desk.entered <= |s.p.tx.done| && m.desk.entered <= |m.p.tx.done|
    requires es != [] && es <= s.toTx && m.toTx == s.toTx[1..] && Settled(m, e, es[1..])
    requires L.Settle(m.desk.book, m.desk.filesOk, Waiting(m), es[1..])
             == L.Settle(s.desk.book, s.desk.filesOk, Waiting(s), es)
    ensures Settled(s, e, es)
  {
    hide L.Settle, Waiting;
    assert s.toTx[1..][|es[1..]|..] == s.toTx[|es|..];
  }

  // ---- Every confirmation message of a session settles ----

  /** The completions are of different files, and the ledger is in step with them. */
  ghost predicate InStep(c: Config, s: S.State) {
    && (forall j, k | 0 <= j < k < |s.p.tx.done| :: s.p.tx.done[j].file != s.p.tx.done[k].file)
    && (forall j | 0 <= j < |s.p.tx.done| :: s.p.tx.done[j].crc == CrcAll(c, s.p.tx.done[j].file))
    && S.DeskOk(c, s.desk, s.walk.total, s.p.tx.done)
  }

  lemma AlwaysInStep(c: Config, names: nat -> string, s: S.State)
    requires S.Inv(c, names, s)
    ensures InStep(c, s)
  {
    hide S.WalkOk, S.QueueOk, S.NamesOk, S.CountsOk, S.OpeningOk, S.ClosingOk, S.InfoOk, S.ReceiptsOk, S.DeskOk;
    hide S.ReportedOk, S.EndOk, D.RxInv, D.NetOk, Share.WorkersOk, Share.RecsOk, Share.SentOk;
  }

  /** The completions not entered yet are of other files than the hashes in the ledger. */
  lemma WaitingUnentered(c: Config, s: S.State)
    requires InStep(c, s)
    ensures s.desk.entered <= |s.p.tx.done| && L.Unentered(s.desk.book, Waiting(s))
  {
    var done, n := s.p.tx.done, s.desk.entered;
    forall i | 0 <= i < |Waiting(s)|
      ensures !L.Ready(s.desk.book, Waiting(s)[i].fino)
    {
      assert done[n + i].file !in S.DoneFiles(done, n);
    }
  }

  /** The hash of a completed file that is not confirmed is in the ledger or in the channel. */
  lemma DoneKnown(c: Config, s: S.State, f: nat)
    requires InStep(c, s) && f in S.DoneFiles(s.p.tx.done, |s.p.tx.done|) && f !in s.desk.confirmed
    ensures s.desk.entered <= |s.p.tx.done| && L.Known(s.desk.book, Waiting(s), f, Num(CrcAll(c, f)))
  {
    hide CrcAll, Num;
    var done, n := s.p.tx.done, s.desk.entered;
    var j :| 0 <= j < |done| && done[j].file == f;
    if j < n {
      assert f in S.DoneFiles(done, n);
    } else {
      assert Waiting(s)[j - n] == L.Completed(f, Num(CrcAll(c, f)));
    }
  }

  lemma ReceiptKnown(c: Config, names: nat -> string, s: S.State, i: nat)
    requires S.Inv(c, names, s) && i < |s.toTx|
    ensures s.desk.entered <= |s.p.tx.done|
    ensures L.Known(s.desk.book, Waiting(s), s.toTx[i].fino, s.toTx[i].crc)
  {
    hide S.Inv, InStep, L.Known, Waiting, S.DoneFiles;
    AlwaysInStep(c, names, s);
    ReceiptDone(c, names, s, i);
    DoneKnown(c, s, s.toTx[i].fino);
  }

  lemma ReceiptDone(c: Config, names: nat -> string, s: S.State, i: nat)
    requires S.Inv(c, names, s) && i < |s.toTx|
    ensures var f := s.toTx[i].fino;
            s.toTx[i] == S.Receipt(c, f) && f !in s.desk.confirmed && f in S.DoneFiles(s.p.tx.done, |s.p.tx.done|)
  {
    hide D.Inv, S.WalkOk, S.QueueOk, S.NamesOk, S.OpeningOk, S.InfoOk, S.DeskOk, S.EndOk, S.DoneFiles;
    assert s.toTx[i] in s.toTx;
  }

  /** In every session a message of the next confirmations settles, however far the ledger has come
      with entering the completions. */
  lemma MessagesSettle(c: Config, names: nat -> string, s: S.State, es: seq<L.Confirmed>)
    requires S.Inv(c, names, s) && es <= s.toTx
    ensures s.desk.entered <= |s.p.tx.done|
    ensures L.Settle(s.desk.book, s.desk.filesOk, Waiting(s), es).ok
  {
    hide S.Inv, InStep, L.Settle, L.Known, Waiting, L.Unentered;
    AlwaysInStep(c, names, s);
    WaitingUnentered(c, s);
    forall j | 0 <= j < |es|
      ensures L.Known(s.desk.book, Waiting(s), es[j].fino, es[j].crc)
    {
      assert es[j] == s.toTx[j];
      ReceiptKnown(c, names, s, j);
    }
    assert L.AllKnown(s.desk.book, Waiting(s), es);
    MessageApart(c, names, s, es);
    L.SettlesIff(s.desk.book, s.desk.filesOk, Waiting(s), es);
  }

  lemma MessageApart(c: Config, names: nat -> string, s: S.State, es: seq<L.Confirmed>)
    requires S.Inv(c, names, s) && es <= s.toTx
    ensures L.Apart(es)
  {
    hide D.Inv, S.WalkOk, S.QueueOk, S.NamesOk, S.CountsOk, S.OpeningOk, S.InfoOk, S.DeskOk, S.EndOk;
    forall i, j | 0 <= i < j < |es| && !L.Skipped(es[i]) && !L.Skipped(es[j])
      ensures es[i].fino != es[j].fino
    {
      assert es[i] == s.toTx[i] && es[j] == s.toTx[j] && s.toTx[i] != s.toTx[j];
    }
  }

  /** So every such message is a run of Enter and Confirm steps, and none of its entries fails. */
  lemma MessageSteps(c: Config, names: nat -> string, sparse: bool, s: S.State, es: seq<L.Confirmed>)
    returns (run: seq<S.Action>, e: S.State)
    requires S.Inv(c, names, s) && es <= s.toTx
    ensures Leads(c, names, sparse, s, run, e) && Settled(s, e, es) && e.desk.filesOk == s.desk.filesOk + |es|
  {
    hide S.Inv, Leads, L.Settle, Waiting;
    MessagesSettle(c, names, s, es);
    run, e := SettleSteps(c, names, sparse, s, es);
    L.SettledOnlyOnMatch(s.desk.book, s.desk.filesOk, Waiting(s), es);
  }

  // ---- handle_file_spec and send_file_completions ----

  /** From `s` to `e` the entries `ms` were merged as one message. */
  ghost predicate Merged(s: S.State, e: S.State, ms: seq<R.Message>) {
    && |ms| <= |s.toRx| && e.toRx == s.toRx[|ms|..] && e.info == R.MergeAll(s.info, ms)
    && e.opening.addQ == s.opening.addQ + R.NamesIn(ms) && e.closing.closeQ == s.closing.closeQ + R.CountsIn(ms)
  }

  lemma ItemStep(s: S.State, x: R.Message)
    requires s.toRx != [] && s.toRx[0] == S.Spec(x)
    ensures var m := S.DoRxItem(s);
            && m.toRx == s.toRx[1..] && m.info == R.Merge(s.info, x)
            && m.opening.addQ == s.opening.addQ + (if x.Name? then [x.fino] else [])
            && m.closing.closeQ == s.closing.closeQ + (if x.Count? then [x.fino] else [])
  {
  }

  lemma MergedCons(s: S.State, m: S.State, e: S.State, ms: seq<R.Message>)
    requires ms != [] && s.toRx != [] && s.toRx[0] == S.Spec(ms[0]) && m == S.DoRxItem(s) && Merged(m, e, ms[1..])
    ensures Merged(s, e, ms)
  {
    ItemStep(s, ms[0]);
    hide R.Merge, S.DoRxItem;
    var x, t := ms[0], ms[1..];
    assert s.toRx[1..][|t|..] == s.toRx[|ms|..];
    Regroup(s.opening.addQ, if x.Name? then [x.fino] else [], R.NamesIn(t));
    Regroup(s.closing.closeQ, if x.Count? then [x.fino] else [], R.CountsIn(t));
  }

  lemma Regroup(a: seq<nat>, b: seq<nat>, d: seq<nat>)
    ensures a + b + d == a + (b + d)
  {
  }

  /** A file-specification message is a run of RxItem steps. */
  lemma {:induction false} SpecSteps(c: Config, names: nat -> string, sparse: bool, s: S.State, ms: seq<R.Message>)
    returns (run: seq<S.Action>, e: S.State)
    requires |ms| <= |s.toRx| && forall j | 0 <= j < |ms| :: s.toRx[j] == S.Spec(ms[j])
    ensures Leads(c, names, sparse, s, run, e) && Merged(s, e, ms)
    decreases |ms|
  {
    if ms == [] {
      run, e := [], s;
    } else {
      var m := S.DoRxItem(s);
      assert forall j | 0 <= j < |ms[1..]| :: m.toRx[j] == s.toRx[j + 1] == S.Spec(ms[j + 1]);
      hide S.DoRxItem, Leads, Merged;
      var rest;
      rest, e := SpecSteps(c, names, sparse, m, ms[1..]);
      StepFirst(c, names, sparse, s, S.RxItem, rest, e);
      MergedCons(s, m, e, ms);
      run := [S.RxItem] + rest;
    }
  }

  /** The last `k` entries, last first. */
  function LastFirst(q: seq<L.Confirmed>, k: nat): seq<L.Confirmed>
    requires k <= |q|
  {
    seq(k, j requires 0 <= j < k => q[|q| - 1 - j])
  }

  lemma LastFirstCons(q: seq<L.Confirmed>, k: nat, t: seq<L.Confirmed>)
    requires 0 < k <= |q|
    ensures q[..|q| - 1][..|q| - k] == q[..|q| - k]
    ensures t + [q[|q| - 1]] + LastFirst(q[..|q| - 1], k - 1) == t + LastFirst(q, k)
  {
    assert LastFirst(q, k) == [q[|q| - 1]] + LastFirst(q[..|q| - 1], k - 1);
  }

  /** A message of `k` confirmations is a run of RxSend steps. */
  lemma {:induction false} SendSteps(c: Config, names: nat -> string, sparse: bool, s: S.State, k: nat)
    returns (run: seq<S.Action>, e: S.State)
    requires k <= |s.doneQ|
    ensures Leads(c, names, sparse, s, run, e)
    ensures e.doneQ == s.doneQ[..|s.doneQ| - k] && e.toTx == s.toTx + LastFirst(s.doneQ, k)
    decreases k
  {
    if k == 0 {
      run, e := [], s;
      assert s.toTx + LastFirst(s.doneQ, 0) == s.toTx;
    } else {
      hide Leads, LastFirst;
      LastFirstCons(s.doneQ, k, s.toTx);
      var rest;
      rest, e := SendSteps(c, names, sparse, S.DoRxSend(s), k - 1);
      StepFirst(c, names, sparse, s, S.RxSend, rest, e);
      run := [S.RxSend] + rest;
    }
  }

  // ---- close_file ----

  /** What the file table shows. */
  function StatsOf(r: D.Rx): nat -> Option<R.Stat> {
    f => if f in r.table then Some(R.Stat(r.table[f].blockTotal, Num(r.table[f].crc))) else None
  }

  /** The answers are those of the table for every file that waits to be closed. */
  ghost predicate Shows(stats: nat -> Option<R.Stat>, s: S.State) {
    forall f | f in s.closing.closeQ :: stats(f) == StatsOf(s.p.rx)(f)
  }

  ghost predicate Closing(s: S.State) {
    S.NoRepeat(s.closing.closeQ) && forall f | f in s.info :: s.info[f].sz >= 0
  }

  /** The queue and the records of every session are as the loop needs them. */
  lemma ClosingHolds(c: Config, names: nat -> string, s: S.State)
    requires S.Inv(c, names, s)
    ensures Closing(s)
  {
    hide D.Inv, S.WalkOk, S.QueueOk, S.NamesOk, S.CountsOk, S.OpeningOk, S.ReceiptsOk, S.DeskOk, S.ReportedOk;
  }

  /** The confirmation of a file with the record close_file returns. */
  function ReceiptOf(i: R.Info): L.Confirmed { L.Confirmed(i.fino, i.crc) }

  /** close_file goes on exactly while the session can close a file. */
  lemma ClosableIff(s: S.State, stats: nat -> Option<R.Stat>)
    requires Closing(s) && Shows(stats, s)
    ensures S.CanClose(s) <==> s.closing.closeQ != [] && R.Closable(s.info, s.closing.closeQ[0], stats)
  {
    assert s.closing.closeQ != [] ==> s.closing.closeQ[0] in s.closing.closeQ;
  }

  /** A call of close_file closes a file whenever there is one to close. */
  lemma ClosesWhenItCan(c: Config, names: nat -> string, s: S.State)
    requires S.Inv(c, names, s)
    ensures R.CloseRun(s.info, s.closing.closeQ, StatsOf(s.p.rx)) > 0 <==> S.CanClose(s)
  {
    ClosingHolds(c, names, s);
    hide S.Inv;
    ClosableIff(s, StatsOf(s.p.rx));
  }

  lemma CloseOne(c: Config, s: S.State, stats: nat -> Option<R.Stat>)
    requires Closing(s) && Shows(stats, s) && s.closing.closeQ != []
    requires R.Closable(s.info, s.closing.closeQ[0], stats)
    ensures S.CanClose(s)
    ensures var s', f := S.DoRxClose(c, s), s.closing.closeQ[0];
            && Closing(s') && Shows(stats, s') && s'.closing.closeQ == s.closing.closeQ[1..] && s'.info == s.info - {f}
            && s'.closing.countOut == s.closing.countOut + 1
            && s'.doneQ == s.doneQ + [ReceiptOf(R.ClosedInfo(s.info, f, stats))]
  {
    var q, s' := s.closing.closeQ, S.DoRxClose(c, s);
    assert q[0] in q;
    S.Popped(q);
    forall f | f in s'.closing.closeQ
      ensures stats(f) == StatsOf(s'.p.rx)(f)
    {
      assert f in q && f != q[0];
    }
  }

  /** From `s` to `e` as many files were closed as close_file closes, in order, each with the
      confirmation of the record it returns. */
  ghost predicate ClosedRun(s: S.State, e: S.State, stats: nat -> Option<R.Stat>) {
    var k := R.CloseRun(s.info, s.closing.closeQ, stats);
    && k <= |s.closing.closeQ| && e.closing.closeQ == s.closing.closeQ[k..]
    && e.closing.countOut == s.closing.countOut + k && |e.doneQ| == |s.doneQ| + k && s.doneQ <= e.doneQ
    && forall j | 0 <= j < k ::
         e.doneQ[|s.doneQ| + j] == ReceiptOf(R.ClosedInfo(s.info, s.closing.closeQ[j], stats))
  }

  /** One file is closed, and the state is `m`. */
  ghost predicate ClosedFirst(s: S.State, m: S.State, stats: nat -> Option<R.Stat>) {
    && s.closing.closeQ != [] && S.NoRepeat(s.closing.closeQ)
    && var f := s.closing.closeQ[0];
       && R.Closable(s.info, f, stats) && m.closing.closeQ == s.closing.closeQ[1..] && m.info == s.info - {f}
       && m.closing.countOut == s.closing.countOut + 1
       && m.doneQ == s.doneQ + [ReceiptOf(R.ClosedInfo(s.info, f, stats))]
  }

  lemma ClosedCons(s: S.State, m: S.State, e: S.State, stats: nat -> Option<R.Stat>)
    requires ClosedFirst(s, m, stats) && ClosedRun(m, e, stats)
    ensures ClosedRun(s, e, stats)
  {
    CloseReceipts(s.info, s.closing.closeQ, stats, s.doneQ, e.doneQ);
  }

  /** A call of close_file is a run of RxClose steps, and leaves no file that could be closed. */
  lemma {:induction false} CloseSteps(c: Config, names: nat -> string, sparse: bool, s: S.State,
                                      stats: nat -> Option<R.Stat>)
    returns (run: seq<S.Action>, e: S.State)
    requires Closing(s) && Shows(stats, s)
    ensures Leads(c, names, sparse, s, run, e) && ClosedRun(s, e, stats) && !S.CanClose(e)
    decreases |s.closing.closeQ|
  {
    ClosableIff(s, stats);
    if s.closing.closeQ == [] || !R.Closable(s.info, s.closing.closeQ[0], stats) {
      run, e := [], s;
    } else {
      CloseOne(c, s, stats);
      var m := S.DoRxClose(c, s);
      assert ClosedFirst(s, m, stats);
      hide S.DoRxClose, S.CanClose, Closing, Shows, Leads, ClosedRun, ClosedFirst;
      var rest;
      rest, e := CloseSteps(c, names, sparse, m, stats);
      CloseFirst(c, names, sparse, s, rest, e);
      ClosedCons(s, m, e, stats);
      run := [S.RxClose] + rest;
    }
  }

  /** In every session a call of close_file, with the answers of the session's own table, is a run of
      RxClose steps up to the first file that cannot be closed. */
  lemma CloseFileSteps(c: Config, names: nat -> string, sparse: bool, s: S.State)
    returns (run: seq<S.Action>, e: S.State)
    requires S.Inv(c, names, s)
    ensures Leads(c, names, sparse, s, run, e) && ClosedRun(s, e, StatsOf(s.p.rx)) && !S.CanClose(e)
  {
    hide S.Inv, Leads, ClosedRun, Closing;
    ClosingHolds(c, names, s);
    run, e := CloseSteps(c, names, sparse, s, StatsOf(s.p.rx));
  }

  lemma CloseFirst(c: Config, names: nat -> string, sparse: bool, s: S.State, rest: seq<S.Action>, e: S.State)
    requires S.CanClose(s) && Leads(c, names, sparse, S.DoRxClose(c, s), rest, e)
    ensures Leads(c, names, sparse, s, [S.RxClose] + rest, e)
  {
    hide Leads, S.DoRxClose, S.CanClose;
    StepFirst(c, names, sparse, s, S.RxClose, rest, e);
  }

  /** Removing the first file does not change the records of the others that can be closed. */
  lemma CloseReceipts(h: R.Files, q: seq<nat>, stats: nat -> Option<R.Stat>, was: seq<L.Confirmed>,
                      now: seq<L.Confirmed>)
    requires q != [] && S.NoRepeat(q) && R.Closable(h, q[0], stats)
    requires var k := R.CloseRun(h - {q[0]}, q[1..], stats);
             && k <= |q| - 1 && |now| == |was| + 1 + k && was + [ReceiptOf(R.ClosedInfo(h, q[0], stats))] <= now
             && forall j | 0 <= j < k ::
                  now[|was| + 1 + j] == ReceiptOf(R.ClosedInfo(h - {q[0]}, q[1..][j], stats))
    ensures forall j | 0 <= j < R.CloseRun(h, q, stats) ::
              now[|was| + j] == ReceiptOf(R.ClosedInfo(h, q[j], stats))
  {
    forall j | 0 <= j < R.CloseRun(h, q, stats)
      ensures now[|was| + j] == ReceiptOf(R.ClosedInfo(h, q[j], stats))
    {
      if j > 0 {
        assert q[1..][j - 1] == q[j] && q[j] != q[0];
      } else {
        assert (was + [ReceiptOf(R.ClosedInfo(h, q[0], stats))])[|was|] == now[|was|];
      }
    }
  }

  // ---- The batches of iterate_files ----

  function Numbers(v: seq<A.Entry>): set<nat> { set i | 0 <= i < |v| :: v[i].fino }

  /** The names the main loop takes from the channel are Receive steps. */
  lemma {:induction false} ReceiveSteps(c: Config, names: nat -> string, sparse: bool, s: S.State,
                                        arrived: seq<A.Entry>)
    returns (run: seq<S.Action>, e: S.State)
    requires A.Distinct(arrived) && Numbers(arrived) <= s.walk.msgs
    ensures Leads(c, names, sparse, s, run, e)
    ensures e.walk.sent == s.walk.sent && e.walk.vec == s.walk.vec + Numbers(arrived) && e.toRx == s.toRx
    ensures e.walk.msgs == s.walk.msgs - Numbers(arrived) && e.walk.filesTotal == s.walk.filesTotal + |arrived|
    decreases |arrived|
  {
    if arrived == [] {
      run, e := [], s;
    } else {
      NumbersHead(arrived);
      var f := arrived[0].fino;
      var m := S.DoReceive(names, s, f);
      var rest;
      rest, e := ReceiveSteps(c, names, sparse, m, arrived[1..]);
      hide Leads;
      StepFirst(c, names, sparse, s, S.Receive(f), rest, e);
      run := [S.Receive(f)] + rest;
    }
  }

  lemma NumbersHead(v: seq<A.Entry>)
    requires v != []
    ensures Numbers(v) == {v[0].fino} + Numbers(v[1..]) && v[0].fino in Numbers(v)
    ensures A.Distinct(v) ==> A.Distinct(v[1..]) && v[0].fino !in Numbers(v[1..])
  {
    assert forall i | 0 <= i < |v[1..]| :: v[1..][i] == v[i + 1];
    assert v[0].fino in Numbers(v);
    forall i | 0 < i < |v|
      ensures v[i].fino in Numbers(v[1..])
    {
      assert v[1..][i - 1] == v[i];
    }
  }

  /** The announcements of a run of numbers, in order. */
  function NameItems(c: Config, names: nat -> string, v: seq<A.Entry>): seq<S.Item> {
    seq(|v|, i requires 0 <= i < |v| => S.NameItem(c, names, v[i].fino))
  }

  /** From `s` to `e` the run of numbers at the front of `v` was announced. */
  ghost predicate AnnouncedRun(c: Config, names: nat -> string, s: S.State, e: S.State, v: seq<A.Entry>) {
    var k := A.RunLength(v, s.walk.sent);
    && k <= |v| && e.walk.sent == A.RunEnd(v, s.walk.sent) && e.walk.vec == Numbers(v[k..])
    && e.toRx == s.toRx + NameItems(c, names, v[..k])
  }

  lemma AnnouncedCons(c: Config, names: nat -> string, s: S.State, e: S.State, v: seq<A.Entry>)
    requires v != [] && v[0].fino == s.walk.sent + 1
    requires AnnouncedRun(c, names, S.DoAnnounce(c, names, s), e, v[1..])
    ensures AnnouncedRun(c, names, s, e, v)
  {
    hide Numbers, NameItems;
    ItemsHead(c, names, v, A.RunLength(v[1..], s.walk.sent + 1), s.toRx);
  }

  /** One pass over the sorted queue is a run of Announce steps. */
  lemma {:induction false} AnnounceSteps(c: Config, names: nat -> string, sparse: bool, s: S.State, v: seq<A.Entry>)
    returns (run: seq<S.Action>, e: S.State)
    requires A.Distinct(v) && s.walk.vec == Numbers(v) && forall i | 0 <= i < |v| :: v[i].fino > 0
    ensures Leads(c, names, sparse, s, run, e) && AnnouncedRun(c, names, s, e, v)
    decreases |v|
  {
    if v == [] || v[0].fino != s.walk.sent + 1 {
      run, e := [], s;
      assert v[0..] == v && s.toRx + NameItems(c, names, []) == s.toRx;
    } else {
      NumbersHead(v);
      var m := S.DoAnnounce(c, names, s);
      assert m.walk.vec == Numbers(v[1..]);
      hide Numbers, AnnouncedRun, Leads;
      var rest;
      rest, e := AnnounceSteps(c, names, sparse, m, v[1..]);
      StepFirst(c, names, sparse, s, S.Announce, rest, e);
      AnnouncedCons(c, names, s, e, v);
      run := [S.Announce] + rest;
    }
  }

  lemma ItemsHead(c: Config, names: nat -> string, v: seq<A.Entry>, k: nat, q: seq<S.Item>)
    requires v != [] && k <= |v| - 1
    ensures v[1..][k..] == v[k + 1..]
    ensures q + [S.NameItem(c, names, v[0].fino)] + NameItems(c, names, v[1..][..k])
            == q + NameItems(c, names, v[..k + 1])
  {
    assert NameItems(c, names, v[..k + 1]) == [S.NameItem(c, names, v[0].fino)] + NameItems(c, names, v[1..][..k]);
  }

  /** The queue of the main loop holds the names pending in the session. */
  ghost predicate Matches(l: A.Loop, s: S.State) {
    && A.Distinct(l.vec) && Numbers(l.vec) == s.walk.vec && l.sent == s.walk.sent
    && forall i | 0 <= i < |l.vec| :: l.vec[i].fino > 0
  }

  /** A batch is a run of Receive and Announce steps: afterwards the queue of the loop and the names
      pending in the session match again, and the session has sent the same announcements. */
  lemma BatchSteps(c: Config, names: nat -> string, sparse: bool, s: S.State, l: A.Loop, arrived: seq<A.Entry>)
    returns (run: seq<S.Action>, e: S.State)
    requires Matches(l, s) && A.Distinct(l.vec + arrived) && Numbers(arrived) <= s.walk.msgs && 0 !in s.walk.msgs
    ensures Leads(c, names, sparse, s, run, e) && Matches(A.Batch(l, arrived), e)
    ensures var b := A.Batch(l, arrived);
            && |l.out| <= |b.out| && e.toRx == s.toRx + NameItems(c, names, b.out[|l.out|..])
  {
    var v := A.SortByKey(l.vec + arrived);
    SortedMatches(l.vec + arrived);
    ArrivedApart(l.vec, arrived);
    var r1, m := ReceiveSteps(c, names, sparse, s, arrived);
    assert forall i | 0 <= i < |v| :: v[i].fino in Numbers(v);
    var r2;
    r2, e := AnnounceSteps(c, names, sparse, m, v);
    hide Leads;
    Joined(c, names, sparse, s, r1, m, r2, e);
    run := r1 + r2;
    var k := A.RunLength(v, l.sent);
    assert A.Batch(l, arrived).out[|l.out|..] == v[..k];
    assert A.Distinct(v[k..]);
  }

  /** Sorting keeps the numbers. */
  lemma SortedMatches(v: seq<A.Entry>)
    ensures Numbers(A.SortByKey(v)) == Numbers(v) && (A.Distinct(v) ==> A.Distinct(A.SortByKey(v)))
  {
    A.SortSorts(v);
    var u := A.SortByKey(v);
    SameNumbers(u, v);
    SameNumbers(v, u);
    if A.Distinct(v) {
      A.DistinctReordered(v, u);
    }
  }

  lemma SameNumbers(u: seq<A.Entry>, v: seq<A.Entry>)
    requires multiset(u) == multiset(v)
    ensures Numbers(u) <= Numbers(v)
  {
    forall i | 0 <= i < |u|
      ensures u[i].fino in Numbers(v)
    {
      assert u[i] in multiset(u) && u[i] in multiset(v);
      var j :| 0 <= j < |v| && v[j] == u[i];
    }
  }

  lemma ArrivedApart(u: seq<A.Entry>, v: seq<A.Entry>)
    requires A.Distinct(u + v)
    ensures A.Distinct(v) && Numbers(u + v) == Numbers(u) + Numbers(v)
  {
    var w := u + v;
    assert forall i | 0 <= i < |u| :: w[i] == u[i];
    assert forall i | 0 <= i < |v| :: w[|u| + i] == v[i];
    forall i, j | 0 <= i < j < |v|
      ensures v[i].fino != v[j].fino
    {
      assert w[|u| + i] == v[i] && w[|u| + j] == v[j];
    }
    forall i | 0 <= i < |u|
      ensures u[i].fino in Numbers(w)
    {
      assert w[i] == u[i];
    }
    forall i | 0 <= i < |v|
      ensures v[i].fino in Numbers(w)
    {
      assert w[|u| + i] == v[i];
    }
  }
}
